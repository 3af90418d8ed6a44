/** What a scenario run reports once it is over (scenario.go:397-536): its
    status, the Slack attachment's colour and title, and the attributes and
    run id of the pub/sub report. */
module Report {
  import opened Wrappers
  import opened Text
  import opened Metadata

  /** How a scenario ended. */
  datatype Status = Succeeded | Failed | Cancelled

  /** The name the pub/sub report carries in its `status` field. */
  function StatusName(st: Status): string {
    match st
    case Succeeded => "success"
    case Failed => "error"
    case Cancelled => "cancelled"
  }

  /** Reads a status back from its name. */
  function StatusNamed(name: string): Option<Status> {
    if name == "success" then Some(Succeeded)
    else if name == "error" then Some(Failed)
    else if name == "cancelled" then Some(Cancelled)
    else None
  }

  lemma StatusNameRoundTrip(st: Status)
    ensures StatusNamed(StatusName(st)) == Some(st)
  {
  }

  /** The status of a run: cancellation wins over errors, and errors over
      success. */
  function Verdict(cancelled: bool, failed: bool): (st: Status)
    ensures st == Cancelled <==> cancelled
    ensures st == Failed <==> !cancelled && failed
    ensures st == Succeeded <==> !cancelled && !failed
  {
    if cancelled then Cancelled else if failed then Failed else Succeeded
  }

  /** Once cancellation is seen it stays seen, so a later look can only move
      the status to Cancelled. */
  lemma VerdictLater(before: bool, after: bool, failed: bool)
    requires before ==> after
    ensures Verdict(after, failed) == Verdict(before, failed) || Verdict(after, failed) == Cancelled
  {
  }

  /** One Slack attachment, as far as it depends on the run's outcome. */
  datatype SlackNote = SlackNote(color: string, title: string)

  /** The word closing the attachment's title. */
  function TitleWord(st: Status): string {
    match st
    case Succeeded => "success"
    case Failed => "failure"
    case Cancelled => "cancelled"
  }

  /** The attachment colour Slack shows. */
  function Color(st: Status): string {
    match st
    case Succeeded => "good"
    case Failed => "danger"
    case Cancelled => "warning"
  }

  /** The attachment for scenario file `file`: titled with the file's base
      name, coloured and worded after the status. */
  function SlackFor(file: string, st: Status): (note: SlackNote)
    ensures HasPrefix(note.title, Base(file) + " - ")
  {
    SlackNote(Color(st), Base(file) + " - " + TitleWord(st))
  }

  /** Reads the status back from an attachment's colour. */
  function StatusOfColor(color: string): Option<Status> {
    if color == "good" then Some(Succeeded)
    else if color == "danger" then Some(Failed)
    else if color == "warning" then Some(Cancelled)
    else None
  }

  /** The attachment determines the status: its colour names it, and its
      title ends in the matching word. */
  lemma SlackShowsStatus(file: string, st: Status)
    ensures StatusOfColor(SlackFor(file, st).color) == Some(st)
    ensures HasSuffix(SlackFor(file, st).title, TitleWord(st))
  {
    var t := SlackFor(file, st).title;
    assert t[|t| - |TitleWord(st)|..] == TitleWord(st);
  }

  /** The metadata key whose object value is flattened into the attributes. */
  const AnalysisKey := "test_analysis"

  /** The attributes coming from the deployment: `snssqs` and `pubsub`, each
      only when set. */
  function DeployAttributes(snssqs: string, pubsub: string): map<string, string> {
    (if snssqs != "" then map["snssqs" := snssqs] else map[]) +
    (if pubsub != "" then map["pubsub" := pubsub] else map[])
  }

  /** The metadata entries among `keys` copied as attributes: non-empty
      strings, except under the analysis key. */
  function StringEntries(md: map<string, Meta>, keys: set<string>): map<string, string> {
    map k | k in keys && k in md && k != AnalysisKey && md[k].Str? && md[k].s != "" :: md[k].s
  }

  /** The fields of the analysis object, when the metadata holds one. */
  function AnalysisFields(md: map<string, Meta>): map<string, string> {
    if AnalysisKey in md && md[AnalysisKey].Object? then md[AnalysisKey].fields else map[]
  }

  /** The attribute map of a pub/sub report, in the order it is filled: the
      deployment entries, then the string metadata, then the analysis fields,
      each overriding what came before. */
  function Attributes(snssqs: string, pubsub: string, md: map<string, Meta>): map<string, string> {
    DeployAttributes(snssqs, pubsub) + StringEntries(md, md.Keys) + AnalysisFields(md)
  }

  /** Which attributes there are, and where each value comes from: an
      analysis field wins over everything, a string metadata entry over the
      deployment entries. */
  lemma AttributesSources(snssqs: string, pubsub: string, md: map<string, Meta>, k: string)
    ensures k in Attributes(snssqs, pubsub, md) <==>
      || k in AnalysisFields(md)
      || (k in md && k != AnalysisKey && md[k].Str? && md[k].s != "")
      || (k == "snssqs" && snssqs != "")
      || (k == "pubsub" && pubsub != "")
    ensures k in AnalysisFields(md) ==> Attributes(snssqs, pubsub, md)[k] == AnalysisFields(md)[k]
    ensures k !in AnalysisFields(md) && k in md && k != AnalysisKey && md[k].Str? && md[k].s != "" ==>
      Attributes(snssqs, pubsub, md)[k] == md[k].s
    ensures k !in AnalysisFields(md) && k !in StringEntries(md, md.Keys) && k == "pubsub" && pubsub != "" ==>
      Attributes(snssqs, pubsub, md)[k] == pubsub
    ensures k !in AnalysisFields(md) && k !in StringEntries(md, md.Keys) && k == "snssqs" && snssqs != "" ==>
      Attributes(snssqs, pubsub, md)[k] == snssqs
  {
  }

  /** The analysis object itself never becomes an attribute: the key appears
      only when the object has a field of that name or the deployment sets it. */
  lemma AnalysisKeyNotCopied(snssqs: string, pubsub: string, md: map<string, Meta>)
    requires AnalysisKey !in AnalysisFields(md)
    ensures AnalysisKey !in Attributes(snssqs, pubsub, md)
  {
    AttributesSources(snssqs, pubsub, md, AnalysisKey);
  }

  /** Whether metadata entry `k` is copied as an attribute. */
  predicate Copied(md: map<string, Meta>, k: string)
    requires k in md
  {
    k != AnalysisKey && md[k].Str? && md[k].s != ""
  }

  /** Visiting one more metadata key adds its entry, if it has one. */
  lemma CopyStringsStep(base: map<string, string>, md: map<string, Meta>, unseen: set<string>,
                        k: string, attr: map<string, string>)
    requires unseen <= md.Keys && k in unseen
    requires attr == base + StringEntries(md, md.Keys - unseen)
    ensures Copied(md, k) ==> attr[k := md[k].s] == base + StringEntries(md, md.Keys - (unseen - {k}))
    ensures !Copied(md, k) ==> attr == base + StringEntries(md, md.Keys - (unseen - {k}))
  {
    var seen := md.Keys - unseen;
    assert md.Keys - (unseen - {k}) == seen + {k};
    if Copied(md, k) {
      assert StringEntries(md, seen + {k}) == StringEntries(md, seen)[k := md[k].s];
    } else {
      assert StringEntries(md, seen + {k}) == StringEntries(md, seen);
    }
  }

  /** The pass over the metadata that copies its non-empty strings. */
  method CopyStrings(base: map<string, string>, md: map<string, Meta>) returns (attr: map<string, string>)
    ensures attr == base + StringEntries(md, md.Keys)
  {
    attr := base;
    assert StringEntries(md, {}) == map[];
    var unseen := md.Keys;
    while unseen != {}
      invariant unseen <= md.Keys
      invariant attr == base + StringEntries(md, md.Keys - unseen)
      decreases |unseen|
    {
      var k :| k in unseen;
      CopyStringsStep(base, md, unseen, k, attr);
      if k != AnalysisKey && md[k].Str? && md[k].s != "" {
        attr := attr[k := md[k].s];
      }
      unseen := unseen - {k};
    }
    assert md.Keys - unseen == md.Keys;
  }

  /** The pass over the analysis object that copies all of its fields. */
  method CopyFields(mid: map<string, string>, fields: map<string, string>) returns (attr: map<string, string>)
    ensures attr == mid + fields
  {
    attr := mid;
    var rest := fields.Keys;
    while rest != {}
      invariant rest <= fields.Keys
      invariant attr == mid + (map k | k in fields.Keys - rest :: fields[k])
      decreases |rest|
    {
      var k :| k in rest;
      attr := attr[k := fields[k]];
      rest := rest - {k};
    }
    assert (map k | k in fields.Keys - rest :: fields[k]) == fields;
  }

  /** The code that fills the attribute map in place: the deployment
      entries, then one pass over the metadata, then one over the analysis
      object. */
  method BuildAttributes(snssqs: string, pubsub: string, md: map<string, Meta>) returns (attr: map<string, string>)
    ensures attr == Attributes(snssqs, pubsub, md)
  {
    attr := map[];
    if snssqs != "" {
      attr := attr["snssqs" := snssqs];
    }
    if pubsub != "" {
      attr := attr["pubsub" := pubsub];
    }
    assert attr == DeployAttributes(snssqs, pubsub);
    attr := CopyStrings(attr, md);
    if AnalysisKey in md && md[AnalysisKey].Object? {
      attr := CopyFields(attr, md[AnalysisKey].fields);
    } else {
      assert attr + AnalysisFields(md) == attr;
    }
  }

  /** The run id correlating the report with its CI run: the metadata's `id`
      when it is a string, otherwise empty. */
  function RunId(md: map<string, Meta>): (id: string)
    ensures StrField(md, "id").Some? ==> id == StrField(md, "id").value
    ensures StrField(md, "id").None? ==> id == ""
  {
    match StrField(md, "id")
    case Some(s) => s
    case None => ""
  }
}
