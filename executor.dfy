/** The scenario executor (doScenario, scenario.go:197-540): for each
    scenario file in turn it loads the scenario, applies the tag filter,
    runs the prepare script, the HTTP steps and the check script, collects
    every failure in an ordered error list, and reports the outcome to Slack
    and pub/sub. A run started for a pull request or a branch can be
    cancelled from outside; the executor looks for cancellation at fixed
    points and stops early when it sees it.

    Everything the executor does not decide itself is an input: reading and
    decoding the file (`FileWorld.loaded`), what every script does
    (`ScriptWorld`, `ValueWorld`), `url.Parse` (`Host.parseUrl`), the HTTP
    exchange (`StepWorld.response`, `StepWorld.schemaErr`), and the moment
    the run is cancelled (`cancelAt`). */
module Executor {
  import opened Wrappers
  import opened Text
  import opened Metadata
  import opened Script
  import opened TagFilter
  import opened Cancellation
  import opened Report

  // ---------------------------------------------------------------------
  // Scenario files

  /** The acceptance criteria of one HTTP step. */
  datatype Asserts = Asserts(code: int, validateJson: string, script: string)

  /** One HTTP step. Maps whose visiting order shows in the result are
      sequences of pairs, in the order they are visited. */
  datatype RunHttp = RunHttp(
    httpMethod: string,
    url: string,
    headers: seq<(string, string)>,
    queryParams: seq<(string, string)>,
    files: seq<(string, string)>,
    forms: seq<(string, string)>,
    payload: string,
    responseOut: string,
    asserts: Option<Asserts>)

  /** A decoded scenario file. */
  datatype Scenario = Scenario(
    maintainers: seq<string>,
    tags: map<string, string>,
    env: seq<(string, string)>,
    prepare: string,
    run: seq<RunHttp>,
    check: string)

  /** The parts of a parsed URL the request is built from. */
  datatype Url = Url(scheme: string, host: string, path: string)

  /** The request a step sends. */
  datatype Request = Request(
    httpMethod: string,
    base: string,
    path: string,
    headers: seq<(string, string)>,
    query: seq<(string, string)>,
    multipart: bool,
    files: seq<(string, string)>,
    forms: seq<(string, string)>,
    body: Option<string>)

  /** One entry of a scenario's error list. */
  datatype Error =
    | PrepareFailed(err: ScriptError, output: string)
    | UrlValueFailed(step: nat, url: string, err: ScriptError)
    | UrlParseFailed(step: nat, reason: string)
    | HeaderValueFailed(step: nat, value: string, err: ScriptError)
    | HttpFailed(step: nat, reason: string)
    | StatusMismatch(step: nat, expected: int, actual: int)
    | SchemaMismatch(step: nat, reason: string)
    | AssertScriptFailed(step: nat, err: ScriptError, output: string)
    | CancelledDuringStep(step: nat)
    | CancelledBeforeCheck
    | CheckFailed(err: ScriptError, output: string)

  /** The step an error was recorded at, if it was recorded at one. */
  function StepOf(e: Error): Option<nat> {
    match e
    case UrlValueFailed(i, _, _) => Some(i)
    case UrlParseFailed(i, _) => Some(i)
    case HeaderValueFailed(i, _, _) => Some(i)
    case HttpFailed(i, _) => Some(i)
    case StatusMismatch(i, _, _) => Some(i)
    case SchemaMismatch(i, _) => Some(i)
    case AssertScriptFailed(i, _, _) => Some(i)
    case CancelledDuringStep(i) => Some(i)
    case _ => None
  }

  /** An error of the status or schema check of a response. */
  predicate ResponseCheck(e: Error) {
    e.StatusMismatch? || e.SchemaMismatch?
  }

  // ---------------------------------------------------------------------
  // The process and the outside world

  /** What the executor takes from its process: the temporary directory,
      the ambient environment, the tag requirements given on the command
      line, the deployment's `snssqs` and `pubsub` settings, and url.Parse. */
  datatype Host = Host(
    tempDir: string,
    ambient: seq<string>,
    tags: seq<string>,
    snssqs: string,
    pubsub: string,
    parseUrl: string -> Result<Url, string>)

  /** doScenarioInput without its application context. */
  datatype Input = Input(
    files: seq<string>,
    reportSlack: string,
    reportPubsub: string,
    metadata: map<string, Meta>)

  /** How the HTTP exchange of one step goes: the response status, or the
      transport failure the client reports; and the verdict of the JSON
      schema check. */
  datatype StepWorld = StepWorld(
    url: ValueWorld,
    headers: seq<ValueWorld>,
    query: seq<ValueWorld>,
    files: seq<ValueWorld>,
    forms: seq<ValueWorld>,
    payload: ValueWorld,
    response: Result<int, string>,
    schemaErr: Option<string>,
    assertScript: ScriptWorld)

  /** How one scenario file goes: whether it can be read and decoded, what
      its prepare and check scripts do, how each step goes, and the message
      id its pub/sub report gets. */
  datatype FileWorld = FileWorld(
    loaded: Option<Scenario>,
    prepare: ScriptWorld,
    steps: seq<StepWorld>,
    check: ScriptWorld,
    messageId: string)

  /** A script that is written, runs and prints nothing. */
  const QuietScript := ScriptWorld(None, ChildRun("", None))
  const QuietValue := ValueWorld(None, QuietScript)
  const QuietStep := StepWorld(QuietValue, [], [], [], [], QuietValue, Success(200), None, QuietScript)
  const Unreadable := FileWorld(None, QuietScript, [], QuietScript, "")

  /** The world of the j-th item; items past the end of the given worlds
      meet the quiet default. */
  function ValueAt(ws: seq<ValueWorld>, j: nat): ValueWorld {
    if j < |ws| then ws[j] else QuietValue
  }

  function StepAt(ws: seq<StepWorld>, j: nat): StepWorld {
    if j < |ws| then ws[j] else QuietStep
  }

  function FileAt(ws: seq<FileWorld>, j: nat): FileWorld {
    if j < |ws| then ws[j] else Unreadable
  }

  // ---------------------------------------------------------------------
  // One step

  /** The prefix of the temporary files of step `i` of file `file`. */
  function StepPrefix(tempDir: string, file: string, i: nat): string {
    JoinPath(tempDir, Base(file) + "_run" + Itoa(i))
  }

  /** A value of step `i` put through ParseValue, its script written to
      `path`. */
  function ValueOf(h: Host, env: seq<(string, string)>, contents: string, path: string, w: ValueWorld): Parsed {
    ParseValue(contents, Some(path), h.tempDir, "", h.ambient, env, w)
  }

  /** The headers that go out with a step, and the errors of those that
      do not. */
  datatype HeaderPass = HeaderPass(sent: seq<(string, string)>, errs: seq<Error>)

  /** One header of the loop: its value is put through ParseValue; a
      failure is recorded and only that header is left out. */
  function AddHeader(done: HeaderPass, step: nat, kv: (string, string), pv: Parsed): HeaderPass {
    if pv.err.Some? then HeaderPass(done.sent, done.errs + [HeaderValueFailed(step, kv.1, pv.err.value)])
    else HeaderPass(done.sent + [(kv.0, pv.value)], done.errs)
  }

  /** The value of header `kv` of a step put through ParseValue. */
  function HeaderValue(h: Host, env: seq<(string, string)>, prefix: string, kv: (string, string), w: ValueWorld): Parsed {
    ValueOf(h, env, kv.1, prefix + "_hdr." + kv.0, w)
  }

  /** The positions of the headers whose value can (`ok`) or cannot
      (`!ok`) be worked out, in increasing order. */
  function HeaderPositions(h: Host, env: seq<(string, string)>, prefix: string,
                           pairs: seq<(string, string)>, ws: seq<ValueWorld>, ok: bool): (ix: seq<nat>)
    ensures forall k :: 0 <= k < |ix| ==>
      ix[k] < |pairs| && HeaderValue(h, env, prefix, pairs[ix[k]], ValueAt(ws, ix[k])).err.None? == ok
    ensures forall k, l :: 0 <= k < l < |ix| ==> ix[k] < ix[l]
    ensures forall j :: 0 <= j < |pairs| && HeaderValue(h, env, prefix, pairs[j], ValueAt(ws, j)).err.None? == ok ==> j in ix
  {
    if |pairs| == 0 then []
    else
      var n := |pairs| - 1;
      var init := HeaderPositions(h, env, prefix, pairs[..n], ws, ok);
      assert forall j :: 0 <= j < n ==> pairs[..n][j] == pairs[j];
      init + (if HeaderValue(h, env, prefix, pairs[n], ValueAt(ws, n)).err.None? == ok then [n] else [])
  }

  /** The header loop of step `step`: the headers whose value can be worked
      out go out, in the order they are visited, with that value; each of
      the others is left out and recorded as one error, in the same order. */
  function HeadersOf(h: Host, env: seq<(string, string)>, prefix: string, step: nat,
                     pairs: seq<(string, string)>, ws: seq<ValueWorld>): (r: HeaderPass)
    ensures |r.sent| + |r.errs| == |pairs|
  {
    if |pairs| == 0 then HeaderPass([], [])
    else
      var n := |pairs| - 1;
      AddHeader(HeadersOf(h, env, prefix, step, pairs[..n], ws), step, pairs[n], HeaderValue(h, env, prefix, pairs[n], ValueAt(ws, n)))
  }

  /** Which headers go out: the k-th header sent is the k-th one whose
      value can be worked out, with that value. */
  lemma {:induction false} HeadersSentAtPositions(h: Host, env: seq<(string, string)>, prefix: string, step: nat,
                                                  pairs: seq<(string, string)>, ws: seq<ValueWorld>)
    ensures var r := HeadersOf(h, env, prefix, step, pairs, ws);
            var ok := HeaderPositions(h, env, prefix, pairs, ws, true);
      |r.sent| == |ok| && forall k :: 0 <= k < |ok| ==>
        r.sent[k] == (pairs[ok[k]].0, HeaderValue(h, env, prefix, pairs[ok[k]], ValueAt(ws, ok[k])).value)
  {
    if |pairs| > 0 {
      var n := |pairs| - 1;
      var init := pairs[..n];
      HeadersSentAtPositions(h, env, prefix, step, init, ws);
      var r0 := HeadersOf(h, env, prefix, step, init, ws);
      var pv := HeaderValue(h, env, prefix, pairs[n], ValueAt(ws, n));
      var r := HeadersOf(h, env, prefix, step, pairs, ws);
      var ok0 := HeaderPositions(h, env, prefix, init, ws, true);
      var ok := HeaderPositions(h, env, prefix, pairs, ws, true);
      assert r.sent == r0.sent + (if pv.err.None? then [(pairs[n].0, pv.value)] else []);
      assert ok == ok0 + (if pv.err.None? then [n] else []);
      forall k | 0 <= k < |ok0| ensures r.sent[k] == (pairs[ok[k]].0, HeaderValue(h, env, prefix, pairs[ok[k]], ValueAt(ws, ok[k])).value) {
        assert ok[k] == ok0[k] && init[ok0[k]] == pairs[ok0[k]];
      }
    }
  }

  /** The header loop over one more header. */
  lemma HeadersLast(h: Host, env: seq<(string, string)>, prefix: string, step: nat,
                    pairs: seq<(string, string)>, ws: seq<ValueWorld>)
    requires |pairs| > 0
    ensures var n := |pairs| - 1;
            var pv := HeaderValue(h, env, prefix, pairs[n], ValueAt(ws, n));
            var r0 := HeadersOf(h, env, prefix, step, pairs[..n], ws);
            var r := HeadersOf(h, env, prefix, step, pairs, ws);
      && r.errs == r0.errs + (if pv.err.Some? then [HeaderValueFailed(step, pairs[n].1, pv.err.value)] else [])
      && HeaderPositions(h, env, prefix, pairs, ws, false) ==
           HeaderPositions(h, env, prefix, pairs[..n], ws, false) + (if pv.err.None? then [] else [n])
  {
  }

  /** Which headers are left out: the k-th error is that of the k-th header
      whose value cannot be worked out. A failing header leaves the others
      alone. */
  lemma {:induction false} HeadersErrsAtPositions(h: Host, env: seq<(string, string)>, prefix: string, step: nat,
                                                  pairs: seq<(string, string)>, ws: seq<ValueWorld>)
    ensures var r := HeadersOf(h, env, prefix, step, pairs, ws);
            var bad := HeaderPositions(h, env, prefix, pairs, ws, false);
      |r.errs| == |bad| && forall k :: 0 <= k < |bad| ==>
        r.errs[k] == HeaderValueFailed(step, pairs[bad[k]].1, HeaderValue(h, env, prefix, pairs[bad[k]], ValueAt(ws, bad[k])).err.value)
  {
    if |pairs| > 0 {
      var n := |pairs| - 1;
      var init := pairs[..n];
      HeadersErrsAtPositions(h, env, prefix, step, init, ws);
      HeadersLast(h, env, prefix, step, pairs, ws);
      var r0 := HeadersOf(h, env, prefix, step, init, ws);
      var r := HeadersOf(h, env, prefix, step, pairs, ws);
      var bad0 := HeaderPositions(h, env, prefix, init, ws, false);
      var bad := HeaderPositions(h, env, prefix, pairs, ws, false);
      forall k | 0 <= k < |bad0|
        ensures r.errs[k] == HeaderValueFailed(step, pairs[bad[k]].1, HeaderValue(h, env, prefix, pairs[bad[k]], ValueAt(ws, bad[k])).err.value)
      {
        assert r.errs[k] == r0.errs[k] && bad[k] == bad0[k] && init[bad0[k]] == pairs[bad0[k]];
      }
    }
  }

  /** A value without a shebang is taken literally, with no error. */
  lemma LiteralValue(h: Host, env: seq<(string, string)>, v: string, path: string, w: ValueWorld)
    requires !HasPrefix(v, Shebang)
    ensures ValueOf(h, env, v, path, w) == Parsed(v, None, None)
  {
  }

  /** Headers given as plain values go out as they are, in order, and
      nothing is recorded. */
  lemma {:induction false} LiteralHeadersPassThrough(h: Host, env: seq<(string, string)>, prefix: string,
                                                     step: nat, pairs: seq<(string, string)>, ws: seq<ValueWorld>)
    requires forall j :: 0 <= j < |pairs| ==> !HasPrefix(pairs[j].1, Shebang)
    ensures HeadersOf(h, env, prefix, step, pairs, ws) == HeaderPass(pairs, [])
  {
    if |pairs| > 0 {
      var n := |pairs| - 1;
      var init := pairs[..n];
      assert init + [pairs[n]] == pairs;
      assert forall j :: 0 <= j < |init| ==> init[j] == pairs[j];
      LiteralHeadersPassThrough(h, env, prefix, step, init, ws);
      var pv := ValueOf(h, env, pairs[n].1, prefix + "_hdr." + pairs[n].0, ValueAt(ws, n));
      LiteralValue(h, env, pairs[n].1, prefix + "_hdr." + pairs[n].0, ValueAt(ws, n));
      assert HeadersOf(h, env, prefix, step, pairs, ws) == AddHeader(HeaderPass(init, []), step, pairs[n], pv);
    }
  }

  /** A header whose value is a script goes out with the script's output in
      its place when the script runs cleanly, and is left out with a
      recorded error when the script fails. */
  lemma ScriptHeader(h: Host, env: seq<(string, string)>, prefix: string, step: nat,
                     k: string, v: string, w: ValueWorld)
    requires HasPrefix(v, Shebang) && w.writeErr.None? && w.script.headErr.None?
    ensures w.script.child.exitErr.None? ==>
      HeadersOf(h, env, prefix, step, [(k, v)], [w]) == HeaderPass([(k, w.script.child.output)], [])
    ensures w.script.child.exitErr.Some? ==>
      HeadersOf(h, env, prefix, step, [(k, v)], [w]).sent == []
      && |HeadersOf(h, env, prefix, step, [(k, v)], [w]).errs| == 1
  {
    assert [(k, v)][..0] == [];
  }

  /** The loop that replaces each query parameter, file or form value by
      its ParseValue result, whatever the error. */
  function Substituted(h: Host, env: seq<(string, string)>, prefix: string, kind: string,
                       pairs: seq<(string, string)>, ws: seq<ValueWorld>): (r: seq<(string, string)>)
    ensures |r| == |pairs|
    ensures forall j :: 0 <= j < |pairs| ==>
      r[j] == (pairs[j].0, ValueOf(h, env, pairs[j].1, prefix + kind + pairs[j].0, ValueAt(ws, j)).value)
  {
    if |pairs| == 0 then []
    else
      var n := |pairs| - 1;
      var k := pairs[n].0;
      Substituted(h, env, prefix, kind, pairs[..n], ws) + [(k, ValueOf(h, env, pairs[n].1, prefix + kind + k, ValueAt(ws, n)).value)]
  }

  /** A plain value is never changed by substitution. */
  lemma LiteralValuesKept(h: Host, env: seq<(string, string)>, prefix: string, kind: string,
                          pairs: seq<(string, string)>, ws: seq<ValueWorld>, j: nat)
    requires j < |pairs| && !HasPrefix(pairs[j].1, Shebang)
    ensures Substituted(h, env, prefix, kind, pairs, ws)[j] == pairs[j]
  {
  }

  /** What a step adds to the error list, and the request it sends (none
      when its URL cannot be worked out). */
  datatype StepOutcome = StepOutcome(errs: seq<Error>, sent: Option<Request>)

  /** The checks made on the response. The client stops checking a response
      once one check has failed: a transport failure hides the status
      check, and a wrong status hides the schema check. The assert script
      runs whatever the response was. */
  function AssertErrs(h: Host, env: seq<(string, string)>, prefix: string, i: nat,
                      a: Asserts, w: StepWorld): (errs: seq<Error>)
    ensures |errs| <= 2
  {
    var httpErrs :=
      match w.response
      case Failure(_) => []
      case Success(code) =>
        if code != a.code then [StatusMismatch(i, a.code, code)]
        else if a.validateJson != "" && w.schemaErr.Some? then [SchemaMismatch(i, w.schemaErr.value)]
        else [];
    var scriptErrs :=
      if a.script == "" then []
      else
        var ran := RunFile(a.script, prefix + "_assertscript", h.ambient, env, w.assertScript);
        if ran.err.Some? then [AssertScriptFailed(i, ran.err.value, ran.output)] else [];
    httpErrs + scriptErrs
  }

  /** The rest of step `i` once its URL is known: the request is built
      and sent, and the response is checked against the step's asserts, if
      any. */
  function Exchange(h: Host, env: seq<(string, string)>, prefix: string, i: nat, run: RunHttp,
                    u: Url, w: StepWorld): (o: StepOutcome)
    ensures o.sent == Some(RequestOf(h, env, prefix, i, run, u, w))
  {
    var transport := if w.response.Failure? then [HttpFailed(i, w.response.error)] else [];
    var checks := if run.asserts.None? then [] else AssertErrs(h, env, prefix, i, run.asserts.value, w);
    StepOutcome(HeadersOf(h, env, prefix, i, run.headers, w.headers).errs + transport + checks,
                Some(RequestOf(h, env, prefix, i, run, u, w)))
  }

  /** The request a step sends: its headers, query parameters, files and
      form values put through ParseValue, and its payload, if it has one. */
  function RequestOf(h: Host, env: seq<(string, string)>, prefix: string, i: nat, run: RunHttp,
                     u: Url, w: StepWorld): (r: Request)
    ensures r.httpMethod == run.httpMethod && r.base == u.scheme + "://" + u.host && r.path == u.path
    ensures r.multipart <==> |run.files| > 0
    ensures r.body.None? <==> run.payload == ""
    ensures |r.headers| <= |run.headers|
  {
    var body :=
      if run.payload == "" then None
      else Some(ValueOf(h, env, run.payload, prefix + "_payload", w.payload).value);
    Request(run.httpMethod, u.scheme + "://" + u.host, u.path, HeadersOf(h, env, prefix, i, run.headers, w.headers).sent,
            Substituted(h, env, prefix, "_qparams.", run.queryParams, w.query),
            |run.files| > 0,
            Substituted(h, env, prefix, "_files.", run.files, w.files),
            Substituted(h, env, prefix, "_forms.", run.forms, w.forms),
            body)
  }
  /** The request carries the step's values as ParseValue left them: the
      headers that worked out, every query parameter, file and form value
      (whatever its error), and the payload when there is one. */
  lemma RequestValues(h: Host, env: seq<(string, string)>, prefix: string, i: nat, run: RunHttp,
                      u: Url, w: StepWorld)
    ensures var r := RequestOf(h, env, prefix, i, run, u, w);
      && r.headers == HeadersOf(h, env, prefix, i, run.headers, w.headers).sent
      && r.query == Substituted(h, env, prefix, "_qparams.", run.queryParams, w.query)
      && r.files == Substituted(h, env, prefix, "_files.", run.files, w.files)
      && r.forms == Substituted(h, env, prefix, "_forms.", run.forms, w.forms)
      && (run.payload != "" ==> r.body == Some(ValueOf(h, env, run.payload, prefix + "_payload", w.payload).value))
  {
  }


  /** Step `i` of scenario file `file`: the URL is worked out first, and a
      failure to do so abandons the step with one recorded error. */
  function StepSpec(h: Host, env: seq<(string, string)>, file: string, i: nat, run: RunHttp, w: StepWorld): (o: StepOutcome)
    ensures o.sent.None? ==> |o.errs| == 1
  {
    var prefix := StepPrefix(h.tempDir, file, i);
    var url := ValueOf(h, env, run.url, prefix + "_url", w.url);
    if url.err.Some? then StepOutcome([UrlValueFailed(i, run.url, url.err.value)], None)
    else
      match h.parseUrl(url.value)
      case Failure(e) => StepOutcome([UrlParseFailed(i, e)], None)
      case Success(u) => Exchange(h, env, prefix, i, run, u, w)
  }

  /** Every header error belongs to the step. */
  lemma {:induction false} HeaderErrsOfStep(h: Host, env: seq<(string, string)>, prefix: string, step: nat,
                                            pairs: seq<(string, string)>, ws: seq<ValueWorld>)
    ensures forall e :: e in HeadersOf(h, env, prefix, step, pairs, ws).errs ==> e.HeaderValueFailed? && e.step == step
  {
    if |pairs| > 0 {
      HeaderErrsOfStep(h, env, prefix, step, pairs[..|pairs| - 1], ws);
    }
  }

  /** The checks on a response: every error belongs to the step; a
      transport failure hides the status and schema checks; a wrong status
      is reported first and hides the schema check; a schema failure is
      reported first when the status matched and a schema is set; with a
      matching status and no schema failure, neither is reported. */
  lemma AssertErrsCases(h: Host, env: seq<(string, string)>, prefix: string, i: nat, a: Asserts, w: StepWorld)
    ensures var errs := AssertErrs(h, env, prefix, i, a, w);
      && (forall e :: e in errs ==> StepOf(e) == Some(i))
      && (w.response.Failure? ==> forall e :: e in errs ==> !ResponseCheck(e))
      && (w.response.Success? && w.response.value != a.code ==>
            |errs| > 0 && errs[0] == StatusMismatch(i, a.code, w.response.value)
            && forall e :: e in errs ==> !e.SchemaMismatch?)
      && (w.response == Success(a.code) && a.validateJson != "" && w.schemaErr.Some? ==>
            |errs| > 0 && errs[0] == SchemaMismatch(i, w.schemaErr.value)
            && forall e :: e in errs ==> !e.StatusMismatch?)
      && (w.response == Success(a.code) && (a.validateJson == "" || w.schemaErr.None?) ==>
            forall e :: e in errs ==> !ResponseCheck(e))
      && (a.script == "" ==> |errs| <= 1)
  {
  }

  /** The shape of the checks' errors: at most one status or schema error,
      then at most one assert-script error. A failing assert script is
      recorded last whatever the response was; a script that is absent or
      succeeds records nothing. */
  lemma AssertScriptErrs(h: Host, env: seq<(string, string)>, prefix: string, i: nat, a: Asserts, w: StepWorld)
    ensures var errs := AssertErrs(h, env, prefix, i, a, w);
            var ran := RunFile(a.script, prefix + "_assertscript", h.ambient, env, w.assertScript);
      && (forall k :: 0 <= k < |errs| ==> ResponseCheck(errs[k]) || errs[k].AssertScriptFailed?)
      && (|errs| == 2 ==> ResponseCheck(errs[0]) && errs[1].AssertScriptFailed?)
      && (a.script != "" && ran.err.Some? ==>
            |errs| > 0 && errs[|errs| - 1] == AssertScriptFailed(i, ran.err.value, ran.output))
      && ((a.script == "" || ran.err.None?) ==> forall e :: e in errs ==> !e.AssertScriptFailed?)
  {
  }

  /** The errors of a step whose URL is known: the header errors come
      first, then a transport failure, then the assert errors; a transport
      failure rules out status and schema errors; with no asserts, a
      successful exchange adds only the header errors. Every error belongs
      to the step. */
  lemma ExchangeErrs(h: Host, env: seq<(string, string)>, prefix: string, i: nat, run: RunHttp, u: Url, w: StepWorld)
    ensures var o := Exchange(h, env, prefix, i, run, u, w);
            var herrs := HeadersOf(h, env, prefix, i, run.headers, w.headers).errs;
      && |herrs| <= |o.errs| && o.errs[..|herrs|] == herrs
      && (w.response.Failure? ==>
            |herrs| < |o.errs| && o.errs[|herrs|] == HttpFailed(i, w.response.error)
            && forall e :: e in o.errs ==> !ResponseCheck(e))
      && (run.asserts.None? && w.response.Success? ==> o.errs == herrs)
      && (run.asserts.None? && w.response.Failure? ==> o.errs == herrs + [HttpFailed(i, w.response.error)])
      && (run.asserts.Some? ==>
            var m := |herrs| + (if w.response.Failure? then 1 else 0);
            m <= |o.errs| && o.errs[m..] == AssertErrs(h, env, prefix, i, run.asserts.value, w))
      && (forall e :: e in o.errs ==> StepOf(e) == Some(i))
  {
    HeaderErrsOfStep(h, env, prefix, i, run.headers, w.headers);
    if run.asserts.Some? {
      AssertErrsCases(h, env, prefix, i, run.asserts.value, w);
    }
    var o := Exchange(h, env, prefix, i, run, u, w);
    var herrs := HeadersOf(h, env, prefix, i, run.headers, w.headers).errs;
    assert o.errs[..|herrs|] == herrs;
    if run.asserts.Some? {
      var m := |herrs| + (if w.response.Failure? then 1 else 0);
      assert o.errs[m..] == AssertErrs(h, env, prefix, i, run.asserts.value, w);
    }
  }

  /** One step: a URL whose ParseValue fails gives exactly one
      UrlValueFailed and sends nothing; a URL that url.Parse rejects gives
      exactly one UrlParseFailed and sends nothing; otherwise the step's
      request is sent. Every error belongs to the step. */
  lemma StepCases(h: Host, env: seq<(string, string)>, file: string, i: nat, run: RunHttp, w: StepWorld)
    ensures var o := StepSpec(h, env, file, i, run, w);
            var url := ValueOf(h, env, run.url, StepPrefix(h.tempDir, file, i) + "_url", w.url);
      && (url.err.Some? ==> o == StepOutcome([UrlValueFailed(i, run.url, url.err.value)], None))
      && (url.err.None? && h.parseUrl(url.value).Failure? ==>
            o == StepOutcome([UrlParseFailed(i, h.parseUrl(url.value).error)], None))
      && (url.err.None? && h.parseUrl(url.value).Success? ==>
            o == Exchange(h, env, StepPrefix(h.tempDir, file, i), i, run, h.parseUrl(url.value).value, w)
            && o.sent == Some(RequestOf(h, env, StepPrefix(h.tempDir, file, i), i, run, h.parseUrl(url.value).value, w)))
      && (forall e :: e in o.errs ==> StepOf(e) == Some(i))
  {
    var url := ValueOf(h, env, run.url, StepPrefix(h.tempDir, file, i) + "_url", w.url);
    if url.err.None? && h.parseUrl(url.value).Success? {
      ExchangeErrs(h, env, StepPrefix(h.tempDir, file, i), i, run, h.parseUrl(url.value).value, w);
    }
  }

  /** The header loop of a step. */
  method ApplyHeaders(h: Host, env: seq<(string, string)>, prefix: string, step: nat,
                      pairs: seq<(string, string)>, ws: seq<ValueWorld>) returns (hp: HeaderPass)
    ensures hp == HeadersOf(h, env, prefix, step, pairs, ws)
  {
    var sent: seq<(string, string)> := [];
    var errs: seq<Error> := [];
    for j := 0 to |pairs|
      invariant HeaderPass(sent, errs) == HeadersOf(h, env, prefix, step, pairs[..j], ws)
    {
      assert pairs[..j + 1][..j] == pairs[..j];
      var k, v := pairs[j].0, pairs[j].1;
      var pv := ValueOf(h, env, v, prefix + "_hdr." + k, ValueAt(ws, j));
      if pv.err.Some? {
        errs := errs + [HeaderValueFailed(step, v, pv.err.value)];
      } else {
        sent := sent + [(k, pv.value)];
      }
    }
    assert pairs[..|pairs|] == pairs;
    return HeaderPass(sent, errs);
  }

  /** The query parameter, file and form loops of a step. */
  method SubstituteAll(h: Host, env: seq<(string, string)>, prefix: string, kind: string,
                       pairs: seq<(string, string)>, ws: seq<ValueWorld>) returns (out: seq<(string, string)>)
    ensures out == Substituted(h, env, prefix, kind, pairs, ws)
  {
    out := [];
    for j := 0 to |pairs|
      invariant out == Substituted(h, env, prefix, kind, pairs[..j], ws)
    {
      assert pairs[..j + 1][..j] == pairs[..j];
      var k, v := pairs[j].0, pairs[j].1;
      out := out + [(k, ValueOf(h, env, v, prefix + kind + k, ValueAt(ws, j)).value)];
    }
    assert pairs[..|pairs|] == pairs;
  }

  /** Building the request of a step, and the errors of its headers. */
  method BuildRequest(h: Host, env: seq<(string, string)>, prefix: string, i: nat, run: RunHttp,
                      u: Url, w: StepWorld) returns (req: Request, herrs: seq<Error>)
    ensures req == RequestOf(h, env, prefix, i, run, u, w)
    ensures herrs == HeadersOf(h, env, prefix, i, run.headers, w.headers).errs
  {
    var hp := ApplyHeaders(h, env, prefix, i, run.headers, w.headers);
    var query := SubstituteAll(h, env, prefix, "_qparams.", run.queryParams, w.query);
    var files := SubstituteAll(h, env, prefix, "_files.", run.files, w.files);
    var forms := SubstituteAll(h, env, prefix, "_forms.", run.forms, w.forms);
    var body := None;
    if run.payload != "" {
      body := Some(ValueOf(h, env, run.payload, prefix + "_payload", w.payload).value);
    }
    req := Request(run.httpMethod, u.scheme + "://" + u.host, u.path, hp.sent,
                   query, |run.files| > 0, files, forms, body);
    herrs := hp.errs;
  }

  /** Building, sending and checking the request of a step. */
  method Send(h: Host, env: seq<(string, string)>, prefix: string, i: nat, run: RunHttp,
              u: Url, w: StepWorld) returns (o: StepOutcome)
    ensures o == Exchange(h, env, prefix, i, run, u, w)
  {
    var req, herrs := BuildRequest(h, env, prefix, i, run, u, w);
    var transport := [];
    if w.response.Failure? {
      transport := [HttpFailed(i, w.response.error)];
    }
    var checks := [];
    if run.asserts.Some? {
      checks := AssertErrs(h, env, prefix, i, run.asserts.value, w);
    }
    return StepOutcome(herrs + transport + checks, Some(req));
  }

  /** The body of the step loop, after the cancellation check. */
  method RunStep(h: Host, env: seq<(string, string)>, file: string, i: nat, run: RunHttp, w: StepWorld)
    returns (o: StepOutcome)
    ensures o == StepSpec(h, env, file, i, run, w)
  {
    var prefix := StepPrefix(h.tempDir, file, i);
    var url := ValueOf(h, env, run.url, prefix + "_url", w.url);
    if url.err.Some? {
      return StepOutcome([UrlValueFailed(i, run.url, url.err.value)], None);
    }
    var u := h.parseUrl(url.value);
    if u.Failure? {
      return StepOutcome([UrlParseFailed(i, u.error)], None);
    }
    o := Send(h, env, prefix, i, run, u.value, w);
  }

  // ---------------------------------------------------------------------
  // Cancellation

  /** Whether the test context is done at its `poll`-th look: cancellation
      happens once, at `cancelAt`, and stays. */
  predicate Done(cancelAt: Option<nat>, poll: nat) {
    cancelAt.Some? && cancelAt.value <= poll
  }

  lemma DoneStays(cancelAt: Option<nat>, p: nat, q: nat)
    requires p <= q && Done(cancelAt, p)
    ensures Done(cancelAt, q)
  {
  }

  /** The test context of one doScenario call: the moment it is cancelled
      (if ever), counted in looks at it, and how many looks were taken. */
  class TestContext {
    const cancelAt: Option<nat>
    var polls: nat

    constructor (cancelAt: Option<nat>)
      ensures this.cancelAt == cancelAt && polls == 0
    {
      this.cancelAt := cancelAt;
      polls := 0;
    }

    /** One `select` on the context's Done channel with a default case. */
    method Poll() returns (done: bool)
      modifies this
      ensures done == Done(cancelAt, old(polls)) && polls == old(polls) + 1
    {
      done := Done(cancelAt, polls);
      polls := polls + 1;
    }
  }

  // ---------------------------------------------------------------------
  // The step loop

  /** Where the step loop stands: the error list so far, the requests sent,
      the looks taken at the context, and whether cancellation stopped it. */
  datatype Progress = Progress(errs: seq<Error>, sent: seq<Request>, polls: nat, stopped: bool)

  /** The step loop over `runs`, from `start`: before each step the context
      is checked; cancellation records which step it stopped at and skips
      the rest, otherwise the step's errors are added in order. */
  function Steps(h: Host, env: seq<(string, string)>, file: string, runs: seq<RunHttp>,
                 ws: seq<StepWorld>, start: Progress, cancelAt: Option<nat>): (p: Progress)
    ensures |start.errs| <= |p.errs| && p.errs[..|start.errs|] == start.errs
    ensures |start.sent| <= |p.sent| && p.sent[..|start.sent|] == start.sent
    ensures start.polls <= p.polls
  {
    if |runs| == 0 then start
    else
      var n := |runs| - 1;
      var p := Steps(h, env, file, runs[..n], ws, start, cancelAt);
      var q := StepTurn(h, env, file, n, runs[n], StepAt(ws, n), p, cancelAt);
      assert q.errs[..|start.errs|] == p.errs[..|start.errs|];
      assert q.sent[..|start.sent|] == p.sent[..|start.sent|];
      q
  }

  /** One turn of the step loop at step `n`: a stopped loop stays as it is;
      otherwise the context is looked at, and cancellation records the step
      and stops the loop, while a live context lets the step run and adds
      its errors and its request. */
  function StepTurn(h: Host, env: seq<(string, string)>, file: string, n: nat, run: RunHttp, w: StepWorld,
                    p: Progress, cancelAt: Option<nat>): (q: Progress)
    ensures p.stopped ==> q == p
    ensures |p.errs| <= |q.errs| && q.errs[..|p.errs|] == p.errs
    ensures |p.sent| <= |q.sent| && q.sent[..|p.sent|] == p.sent
    ensures p.polls <= q.polls
  {
    if p.stopped then p
    else if Done(cancelAt, p.polls) then Progress(p.errs + [CancelledDuringStep(n)], p.sent, p.polls + 1, true)
    else
      var o := StepSpec(h, env, file, n, run, w);
      Progress(p.errs + o.errs, p.sent + (if o.sent.Some? then [o.sent.value] else []), p.polls + 1, false)
  }
  /** A turn that is not stopped and finds the context live runs its step:
      the step's own errors are appended, its request, if any, is recorded,
      one look is taken and the loop goes on. */
  lemma LiveStepTurn(h: Host, env: seq<(string, string)>, file: string, n: nat, run: RunHttp, w: StepWorld,
                     p: Progress, cancelAt: Option<nat>)
    requires !p.stopped && !Done(cancelAt, p.polls)
    ensures var q := StepTurn(h, env, file, n, run, w, p, cancelAt);
            var o := StepSpec(h, env, file, n, run, w);
      && q.errs == p.errs + o.errs
      && (o.sent.Some? ==> q.sent == p.sent + [o.sent.value])
      && (o.sent.None? ==> q.sent == p.sent)
      && q.polls == p.polls + 1 && !q.stopped
  {
  }

  /** A step loop that stopped did so because its last look found the
      context done. */
  lemma {:induction false} StoppedSawCancel(h: Host, env: seq<(string, string)>, file: string, runs: seq<RunHttp>,
                                            ws: seq<StepWorld>, start: Progress, cancelAt: Option<nat>)
    requires !start.stopped
    ensures var q := Steps(h, env, file, runs, ws, start, cancelAt);
      q.stopped ==> 0 < q.polls && Done(cancelAt, q.polls - 1)
  {
    if |runs| > 0 {
      var n := |runs| - 1;
      StoppedSawCancel(h, env, file, runs[..n], ws, start, cancelAt);
    }
  }


  /** The error list only grows: running more steps keeps every error the
      earlier steps recorded, in the same place. */
  lemma {:induction false} StepsAppendOnly(h: Host, env: seq<(string, string)>, file: string, runs: seq<RunHttp>,
                                           ws: seq<StepWorld>, start: Progress, cancelAt: Option<nat>, k: nat)
    requires k <= |runs|
    ensures var before := Steps(h, env, file, runs[..k], ws, start, cancelAt);
            var after := Steps(h, env, file, runs, ws, start, cancelAt);
      && |before.errs| <= |after.errs| && after.errs[..|before.errs|] == before.errs
      && |before.sent| <= |after.sent| && after.sent[..|before.sent|] == before.sent
      && before.polls <= after.polls
    decreases |runs|
  {
    if k < |runs| {
      var n := |runs| - 1;
      assert runs[..n][..k] == runs[..k];
      StepsAppendOnly(h, env, file, runs[..n], ws, start, cancelAt, k);
      var before := Steps(h, env, file, runs[..k], ws, start, cancelAt);
      var mid := Steps(h, env, file, runs[..n], ws, start, cancelAt);
      var after := Steps(h, env, file, runs, ws, start, cancelAt);
      assert after == StepTurn(h, env, file, n, runs[n], StepAt(ws, n), mid, cancelAt);
      PrefixOfPrefix(before.errs, mid.errs, after.errs);
      PrefixOfPrefix(before.sent, mid.sent, after.sent);
    } else {
      assert runs[..k] == runs;
    }
  }

  /** Being a prefix is transitive. */
  lemma PrefixOfPrefix<T>(a: seq<T>, b: seq<T>, c: seq<T>)
    requires |a| <= |b| && b[..|a|] == a
    requires |b| <= |c| && c[..|b|] == b
    ensures |a| <= |c| && c[..|a|] == a
  {
    assert c[..|b|][..|a|] == c[..|a|];
  }

  /** The step loop over one more step takes one more turn. */
  lemma StepsSnoc(h: Host, env: seq<(string, string)>, file: string, runs: seq<RunHttp>,
                  ws: seq<StepWorld>, start: Progress, cancelAt: Option<nat>, i: nat)
    requires i < |runs|
    ensures Steps(h, env, file, runs[..i + 1], ws, start, cancelAt) ==
      StepTurn(h, env, file, i, runs[i], StepAt(ws, i), Steps(h, env, file, runs[..i], ws, start, cancelAt), cancelAt)
  {
    assert runs[..i + 1][..i] == runs[..i];
  }

  /** A loop stopped before its last step ignores that step. */
  lemma StoppedStaysStopped(h: Host, env: seq<(string, string)>, file: string, runs: seq<RunHttp>,
                            ws: seq<StepWorld>, start: Progress, cancelAt: Option<nat>)
    requires |runs| > 0 && Steps(h, env, file, runs[..|runs| - 1], ws, start, cancelAt).stopped
    ensures Steps(h, env, file, runs, ws, start, cancelAt) == Steps(h, env, file, runs[..|runs| - 1], ws, start, cancelAt)
  {
  }

  /** Once cancellation has stopped the loop, later steps change nothing. */
  lemma {:induction false} StepsStopped(h: Host, env: seq<(string, string)>, file: string, runs: seq<RunHttp>,
                                        ws: seq<StepWorld>, start: Progress, cancelAt: Option<nat>, k: nat)
    requires k <= |runs| && Steps(h, env, file, runs[..k], ws, start, cancelAt).stopped
    ensures Steps(h, env, file, runs, ws, start, cancelAt) == Steps(h, env, file, runs[..k], ws, start, cancelAt)
    decreases |runs|
  {
    if k < |runs| {
      var n := |runs| - 1;
      assert runs[..n][..k] == runs[..k];
      StepsStopped(h, env, file, runs[..n], ws, start, cancelAt, k);
      StoppedStaysStopped(h, env, file, runs, ws, start, cancelAt);
    } else {
      assert runs[..k] == runs;
    }
  }

  /** Cancellation seen before step `i` records "cancelled during run step
      i" after everything recorded so far, skips step `i` and all later
      ones, and stops the loop. */
  lemma CancelBeforeStep(h: Host, env: seq<(string, string)>, file: string, runs: seq<RunHttp>,
                            ws: seq<StepWorld>, start: Progress, cancelAt: Option<nat>, i: nat)
    requires i < |runs|
    requires var p := Steps(h, env, file, runs[..i], ws, start, cancelAt); !p.stopped && Done(cancelAt, p.polls)
    ensures var p := Steps(h, env, file, runs[..i], ws, start, cancelAt);
      Steps(h, env, file, runs, ws, start, cancelAt) ==
        Progress(p.errs + [CancelledDuringStep(i)], p.sent, p.polls + 1, true)
  {
    assert runs[..i + 1][..i] == runs[..i];
    StepsStopped(h, env, file, runs, ws, start, cancelAt, i + 1);
  }

  /** A loop nobody cancels runs every step, looking at the context once
      before each. */
  lemma {:induction false} StepsUncancelled(h: Host, env: seq<(string, string)>, file: string, runs: seq<RunHttp>,
                                            ws: seq<StepWorld>, start: Progress)
    requires !start.stopped
    ensures var p := Steps(h, env, file, runs, ws, start, None);
      !p.stopped && p.polls == start.polls + |runs|
  {
    if |runs| > 0 {
      StepsUncancelled(h, env, file, runs[..|runs| - 1], ws, start);
    }
  }

  /** Every error from position `m` on belongs to a step. */
  predicate StepErrorsFrom(errs: seq<Error>, m: nat) {
    forall k :: m <= k < |errs| ==> StepOf(errs[k]).Some?
  }

  /** Every error one turn adds belongs to that turn's step, so errors
      from position `m` on that belonged to steps still do. */
  lemma StepTurnTagged(h: Host, env: seq<(string, string)>, file: string, n: nat, run: RunHttp, w: StepWorld,
                       p: Progress, cancelAt: Option<nat>, m: nat)
    requires m <= |p.errs| && StepErrorsFrom(p.errs, m)
    ensures StepErrorsFrom(StepTurn(h, env, file, n, run, w, p, cancelAt).errs, m)
  {
    var q := StepTurn(h, env, file, n, run, w, p, cancelAt);
    forall k | m <= k < |q.errs| ensures StepOf(q.errs[k]).Some? {
      if k < |p.errs| {
        assert q.errs[k] == q.errs[..|p.errs|][k];
      } else if !p.stopped && !Done(cancelAt, p.polls) {
        var o := StepSpec(h, env, file, n, run, w);
        StepCases(h, env, file, n, run, w);
        assert q.errs[k] == o.errs[k - |p.errs|];
      }
    }
  }

  /** One turn does not depend on the errors recorded before it. */
  lemma StepTurnAfterErrors(h: Host, env: seq<(string, string)>, file: string, n: nat, run: RunHttp, w: StepWorld,
                            errs0: seq<Error>, p: Progress, cancelAt: Option<nat>)
    ensures var q := StepTurn(h, env, file, n, run, w, p, cancelAt);
      StepTurn(h, env, file, n, run, w, Progress(errs0 + p.errs, p.sent, p.polls, p.stopped), cancelAt)
        == Progress(errs0 + q.errs, q.sent, q.polls, q.stopped)
  {
    if !p.stopped && !Done(cancelAt, p.polls) {
      var o := StepSpec(h, env, file, n, run, w);
      assert (errs0 + p.errs) + o.errs == errs0 + (p.errs + o.errs);
    } else if !p.stopped {
      assert (errs0 + p.errs) + [CancelledDuringStep(n)] == errs0 + (p.errs + [CancelledDuringStep(n)]);
    }
  }

  /** Every error the step loop adds belongs to a step. */
  lemma {:induction false} StepsAddStepErrors(h: Host, env: seq<(string, string)>, file: string, runs: seq<RunHttp>,
                                              ws: seq<StepWorld>, start: Progress, cancelAt: Option<nat>)
    ensures StepErrorsFrom(Steps(h, env, file, runs, ws, start, cancelAt).errs, |start.errs|)
  {
    if |runs| > 0 {
      var n := |runs| - 1;
      StepsAddStepErrors(h, env, file, runs[..n], ws, start, cancelAt);
      var p0 := Steps(h, env, file, runs[..n], ws, start, cancelAt);
      StepTurnTagged(h, env, file, n, runs[n], StepAt(ws, n), p0, cancelAt, |start.errs|);
    }
  }

  /** The errors the loop starts from do not change what it does: they
      stay in front of the errors it adds. */
  lemma {:induction false} StepsAfterErrors(h: Host, env: seq<(string, string)>, file: string, runs: seq<RunHttp>,
                                            ws: seq<StepWorld>, errs0: seq<Error>, polls0: nat, cancelAt: Option<nat>)
    ensures var p := Steps(h, env, file, runs, ws, Progress(errs0, [], polls0, false), cancelAt);
            var q := Steps(h, env, file, runs, ws, Progress([], [], polls0, false), cancelAt);
      p == Progress(errs0 + q.errs, q.sent, q.polls, q.stopped)
  {
    if |runs| > 0 {
      var n := |runs| - 1;
      StepsAfterErrors(h, env, file, runs[..n], ws, errs0, polls0, cancelAt);
      var q0 := Steps(h, env, file, runs[..n], ws, Progress([], [], polls0, false), cancelAt);
      StepTurnAfterErrors(h, env, file, n, runs[n], StepAt(ws, n), errs0, q0, cancelAt);
    } else {
      assert errs0 + [] == errs0;
    }
  }

  /** A step whose URL cannot be worked out, by its ParseValue or by
      url.Parse, records one error of that step, sends nothing, and does not
      stop the loop: only that step is abandoned. */
  lemma BadUrlSkipsOnlyThatStep(h: Host, env: seq<(string, string)>, file: string, runs: seq<RunHttp>,
                                ws: seq<StepWorld>, start: Progress, i: nat)
    requires i < |runs| && !start.stopped
    requires var url := ValueOf(h, env, runs[i].url, StepPrefix(h.tempDir, file, i) + "_url", StepAt(ws, i).url);
      url.err.Some? || h.parseUrl(url.value).Failure?
    ensures var p := Steps(h, env, file, runs[..i], ws, start, None);
            var q := Steps(h, env, file, runs[..i + 1], ws, start, None);
      && !q.stopped && q.sent == p.sent && |q.errs| == |p.errs| + 1
      && (q.errs[|p.errs|].UrlValueFailed? || q.errs[|p.errs|].UrlParseFailed?)
      && StepOf(q.errs[|p.errs|]) == Some(i)
  {
    StepsSnoc(h, env, file, runs, ws, start, None, i);
    StepsUncancelled(h, env, file, runs[..i], ws, start);
    StepCases(h, env, file, i, runs[i], StepAt(ws, i));
  }

  /** The step loop, with the context looked at before each step. */
  method RunSteps(h: Host, env: seq<(string, string)>, file: string, runs: seq<RunHttp>, ws: seq<StepWorld>,
                  ctx: TestContext, errs0: seq<Error>)
    returns (errs: seq<Error>, sent: seq<Request>, stopped: bool)
    modifies ctx
    ensures Progress(errs, sent, ctx.polls, stopped) ==
      Steps(h, env, file, runs, ws, Progress(errs0, [], old(ctx.polls), false), ctx.cancelAt)
  {
    ghost var start := Progress(errs0, [], ctx.polls, false);
    errs, sent, stopped := errs0, [], false;
    var i := 0;
    while i < |runs| && !stopped
      invariant 0 <= i <= |runs|
      invariant Progress(errs, sent, ctx.polls, stopped) == Steps(h, env, file, runs[..i], ws, start, ctx.cancelAt)
    {
      StepsSnoc(h, env, file, runs, ws, start, ctx.cancelAt, i);
      var done := ctx.Poll();
      if done {
        errs := errs + [CancelledDuringStep(i)];
        stopped := true;
      } else {
        var o := RunStep(h, env, file, i, runs[i], StepAt(ws, i));
        errs := errs + o.errs;
        if o.sent.Some? {
          sent := sent + [o.sent.value];
        }
      }
      i := i + 1;
    }
    if stopped {
      StepsStopped(h, env, file, runs, ws, start, ctx.cancelAt, i);
    } else {
      assert runs[..i] == runs;
    }
  }

  // ---------------------------------------------------------------------
  // One scenario file

  /** The prepare script, run from `<temp>/<base>_prepare`; its failure is
      recorded and the scenario goes on. */
  function PrepareErrs(h: Host, file: string, s: Scenario, w: ScriptWorld): (r: seq<Error>)
    ensures |r| <= 1
    ensures |r| == 1 <==>
      s.prepare != "" && RunFile(s.prepare, JoinPath(h.tempDir, Base(file) + "_prepare"), h.ambient, s.env, w).err.Some?
  {
    if s.prepare == "" then []
    else
      var ran := RunFile(s.prepare, JoinPath(h.tempDir, Base(file) + "_prepare"), h.ambient, s.env, w);
      if ran.err.Some? then [PrepareFailed(ran.err.value, ran.output)] else []
  }

  /** The check script, run from `<temp>/<base>_check`; its failure is
      recorded. */
  function CheckErrs(h: Host, file: string, s: Scenario, w: ScriptWorld): (r: seq<Error>)
    ensures |r| <= 1
    ensures |r| == 1 <==>
      s.check != "" && RunFile(s.check, JoinPath(h.tempDir, Base(file) + "_check"), h.ambient, s.env, w).err.Some?
    ensures |r| == 1 ==> r[0].CheckFailed?
  {
    if s.check == "" then []
    else
      var ran := RunFile(s.check, JoinPath(h.tempDir, Base(file) + "_check"), h.ambient, s.env, w);
      if ran.err.Some? then [CheckFailed(ran.err.value, ran.output)] else []
  }

  /** Where a scenario stands when it reaches its report. */
  datatype Finish = Finish(errs: seq<Error>, sent: seq<Request>, polls: nat)

  /** Prepare, the step loop, and the check. Cancellation stopping the
      step loop skips the check; cancellation seen after the loop records
      "cancelled before check step" and skips it too. */
  function Phases(h: Host, file: string, s: Scenario, w: FileWorld, polls0: nat, cancelAt: Option<nat>): (f: Finish)
    ensures polls0 <= f.polls
  {
    var p := Steps(h, s.env, file, s.run, w.steps, Progress(PrepareErrs(h, file, s, w.prepare), [], polls0, false), cancelAt);
    if p.stopped then Finish(p.errs, p.sent, p.polls)
    else if Done(cancelAt, p.polls) then Finish(p.errs + [CancelledBeforeCheck], p.sent, p.polls + 1)
    else Finish(p.errs + CheckErrs(h, file, s, w.check), p.sent, p.polls + 1)
  }

  /** The prepare script can only record a prepare failure. */
  lemma PrepareErrsArePrepare(h: Host, file: string, s: Scenario, w: ScriptWorld)
    ensures forall e :: e in PrepareErrs(h, file, s, w) ==> e.PrepareFailed?
  {
  }

  /** The order of a scenario's errors: the prepare script's, then those of
      the steps, then either nothing (cancellation stopped the steps),
      "cancelled before check step" (cancellation seen after them), or the
      check script's. A failed prepare script does not stop the steps. */
  lemma PhasesOrder(h: Host, file: string, s: Scenario, w: FileWorld, polls0: nat, cancelAt: Option<nat>)
    ensures var q := Steps(h, s.env, file, s.run, w.steps, Progress([], [], polls0, false), cancelAt);
            var f := Phases(h, file, s, w, polls0, cancelAt);
            var pre := PrepareErrs(h, file, s, w.prepare);
      && f.sent == q.sent
      && (q.stopped ==> f.errs == pre + q.errs)
      && (!q.stopped && Done(cancelAt, q.polls) ==> f.errs == pre + q.errs + [CancelledBeforeCheck])
      && (!q.stopped && !Done(cancelAt, q.polls) ==> f.errs == pre + q.errs + CheckErrs(h, file, s, w.check))
  {
    StepsAfterErrors(h, s.env, file, s.run, w.steps, PrepareErrs(h, file, s, w.prepare), polls0, cancelAt);
  }

  /** Once cancellation has been seen, by the step loop or just after it,
      the check script does not run: no check failure is recorded. */
  lemma CancelledSkipsCheck(h: Host, file: string, s: Scenario, w: FileWorld, polls0: nat, cancelAt: Option<nat>)
    requires var q := Steps(h, s.env, file, s.run, w.steps, Progress([], [], polls0, false), cancelAt);
      q.stopped || Done(cancelAt, q.polls)
    ensures forall e :: e in Phases(h, file, s, w, polls0, cancelAt).errs ==> !e.CheckFailed?
  {
    var start := Progress([], [], polls0, false);
    var q := Steps(h, s.env, file, s.run, w.steps, start, cancelAt);
    var pre := PrepareErrs(h, file, s, w.prepare);
    PhasesOrder(h, file, s, w, polls0, cancelAt);
    StepsAddStepErrors(h, s.env, file, s.run, w.steps, start, cancelAt);
    PrepareErrsArePrepare(h, file, s, w.prepare);
    var tail := if q.stopped then [] else [CancelledBeforeCheck];
    NoCheckAmong(pre, q.errs, tail);
    assert Phases(h, file, s, w, polls0, cancelAt).errs == pre + q.errs + tail;
  }

  /** Prepare errors, step errors and a "cancelled before check step" hold
      no check failure. */
  lemma NoCheckAmong(pre: seq<Error>, errs: seq<Error>, tail: seq<Error>)
    requires forall e :: e in pre ==> e.PrepareFailed?
    requires StepErrorsFrom(errs, 0)
    requires tail == [] || tail == [CancelledBeforeCheck]
    ensures forall e :: e in pre + errs + tail ==> !e.CheckFailed?
  {
    forall e | e in pre + errs + tail ensures !e.CheckFailed? {
      if e in errs {
        var k :| 0 <= k < |errs| && errs[k] == e;
        assert StepOf(errs[k]).Some?;
      }
    }
  }


  /** A scenario nobody cancels runs its prepare script, every step and its
      check script, whatever fails along the way, and records their errors
      in that order. */
  lemma UncancelledPhases(h: Host, file: string, s: Scenario, w: FileWorld, polls0: nat)
    ensures var q := Steps(h, s.env, file, s.run, w.steps, Progress([], [], polls0, false), None);
      Phases(h, file, s, w, polls0, None) ==
        Finish(PrepareErrs(h, file, s, w.prepare) + q.errs + CheckErrs(h, file, s, w.check), q.sent, polls0 + |s.run| + 1)
  {
    PhasesOrder(h, file, s, w, polls0, None);
    StepsUncancelled(h, s.env, file, s.run, w.steps, Progress([], [], polls0, false));
    StepsAfterErrors(h, s.env, file, s.run, w.steps, PrepareErrs(h, file, s, w.prepare), polls0, None);
  }

  /** What the pub/sub report says beyond its status. */
  datatype ReportData = NoData | CancelNote | ErrorList(errs: seq<Error>)

  /** The pub/sub report of one scenario. */
  datatype PubsubReport = PubsubReport(
    scenario: string,
    attributes: map<string, string>,
    status: Status,
    data: ReportData,
    messageId: string,
    runId: string)

  /** What one scenario file leaves behind: its error list, the requests it
      sent, and its Slack and pub/sub reports, if they are configured. */
  datatype FileOutcome = FileOutcome(
    file: string,
    errs: seq<Error>,
    sent: seq<Request>,
    slack: Option<SlackNote>,
    report: Option<PubsubReport>)

  /** An outcome and the looks taken at the context by then. */
  datatype Scored = Scored(outcome: FileOutcome, polls: nat)

  /** Whether pub/sub reports are sent: a report topic is named and the
      application context has a publisher. */
  predicate Publishes(input: Input, hasApp: bool, hasPublisher: bool) {
    input.reportPubsub != "" && hasApp && hasPublisher
  }

  /** The report: the context is looked at once for Slack and once more
      for pub/sub, and each report's status follows Verdict. */
  function Reports(h: Host, input: Input, publish: bool, file: string, fin: Finish,
                   messageId: string, cancelAt: Option<nat>): (r: Scored)
    ensures r.outcome.file == file && r.outcome.errs == fin.errs && r.outcome.sent == fin.sent
    ensures r.outcome.slack.Some? <==> input.reportSlack != ""
    ensures r.outcome.report.Some? <==> publish
    ensures fin.polls < r.polls
  {
    var failed := |fin.errs| > 0;
    var slack :=
      if input.reportSlack != "" then Some(SlackFor(file, Verdict(Done(cancelAt, fin.polls), failed))) else None;
    if publish then
      var st := Verdict(Done(cancelAt, fin.polls + 1), failed);
      var data := if st == Cancelled then CancelNote else if st == Failed then ErrorList(fin.errs) else NoData;
      var report := PubsubReport(file, Attributes(h.snssqs, h.pubsub, input.metadata), st, data,
                                 messageId, RunId(input.metadata));
      Scored(FileOutcome(file, fin.errs, fin.sent, slack, Some(report)), fin.polls + 2)
    else
      Scored(FileOutcome(file, fin.errs, fin.sent, slack, None), fin.polls + 1)
  }

  /** One allowed scenario file, from its prepare script to its reports. */
  function ScenarioRun(h: Host, input: Input, publish: bool, file: string, s: Scenario, w: FileWorld,
                       polls0: nat, cancelAt: Option<nat>): (r: Scored)
    ensures r.outcome.file == file && polls0 < r.polls
  {
    Reports(h, input, publish, file, Phases(h, file, s, w, polls0, cancelAt), w.messageId, cancelAt)
  }

  /** A scenario that finds its context already cancelled records that at
      its first step (or before its check, when it has no steps), sends
      nothing, and reports itself cancelled everywhere. */
  lemma CancelledScenario(h: Host, input: Input, publish: bool, file: string, s: Scenario, w: FileWorld,
                          polls0: nat, cancelAt: Option<nat>)
    requires Done(cancelAt, polls0)
    ensures var o := ScenarioRun(h, input, publish, file, s, w, polls0, cancelAt).outcome;
      && o.sent == []
      && |o.errs| > 0
      && o.errs[|o.errs| - 1] == (if |s.run| > 0 then CancelledDuringStep(0) else CancelledBeforeCheck)
      && (o.slack.Some? ==> o.slack.value == SlackFor(file, Cancelled))
      && (o.report.Some? ==> o.report.value.status == Cancelled && o.report.value.data == CancelNote)
  {
    var start := Progress(PrepareErrs(h, file, s, w.prepare), [], polls0, false);
    if |s.run| > 0 {
      assert s.run[..0] == [];
      CancelBeforeStep(h, s.env, file, s.run, w.steps, start, cancelAt, 0);
    }
    var fin := Phases(h, file, s, w, polls0, cancelAt);
    DoneStays(cancelAt, polls0, fin.polls);
    DoneStays(cancelAt, polls0, fin.polls + 1);
  }
  /** A scenario whose cancellation is seen during its steps or just after
      them reports itself cancelled, to Slack and pub/sub alike, however
      many requests it has sent. */
  lemma CancelledMidRunReportsCancelled(h: Host, input: Input, publish: bool, file: string, s: Scenario,
                                        w: FileWorld, polls0: nat, cancelAt: Option<nat>)
    requires var q := Steps(h, s.env, file, s.run, w.steps, Progress([], [], polls0, false), cancelAt);
      q.stopped || Done(cancelAt, q.polls)
    ensures var o := ScenarioRun(h, input, publish, file, s, w, polls0, cancelAt).outcome;
      && (o.slack.Some? ==> o.slack.value == SlackFor(file, Cancelled))
      && (o.report.Some? ==> o.report.value.status == Cancelled && o.report.value.data == CancelNote)
  {
    var start := Progress([], [], polls0, false);
    var q := Steps(h, s.env, file, s.run, w.steps, start, cancelAt);
    StepsAfterErrors(h, s.env, file, s.run, w.steps, PrepareErrs(h, file, s, w.prepare), polls0, cancelAt);
    StoppedSawCancel(h, s.env, file, s.run, w.steps, start, cancelAt);
    var fin := Phases(h, file, s, w, polls0, cancelAt);
    if q.stopped {
      assert fin.polls == q.polls;
      DoneStays(cancelAt, q.polls - 1, fin.polls);
    } else {
      assert fin.polls == q.polls + 1;
      DoneStays(cancelAt, q.polls, fin.polls);
    }
    DoneStays(cancelAt, fin.polls, fin.polls + 1);
  }


  /** A scenario nobody cancels reports errors exactly when its error list
      is not empty, and success otherwise, to Slack and pub/sub alike. */
  lemma UncancelledScenario(h: Host, input: Input, publish: bool, file: string, s: Scenario, w: FileWorld,
                            polls0: nat)
    ensures var o := ScenarioRun(h, input, publish, file, s, w, polls0, None).outcome;
      && (o.slack.Some? ==> o.slack.value == SlackFor(file, if |o.errs| > 0 then Failed else Succeeded))
      && (o.report.Some? ==> o.report.value.status == (if |o.errs| > 0 then Failed else Succeeded))
      && (o.report.Some? && |o.errs| > 0 ==> o.report.value.data == ErrorList(o.errs))
  {
  }

  /** The pub/sub report looks at the context after Slack's report did, so
      it says what Slack said, unless cancellation came in between; a
      failed report carries the error list, a successful one an empty one. */
  lemma ReportsAgree(h: Host, input: Input, publish: bool, file: string, s: Scenario, w: FileWorld,
                     polls0: nat, cancelAt: Option<nat>)
    ensures var o := ScenarioRun(h, input, publish, file, s, w, polls0, cancelAt).outcome;
      && (o.slack.Some? && o.report.Some? ==>
            StatusOfColor(o.slack.value.color) == Some(o.report.value.status)
            || o.report.value.status == Cancelled)
      && (o.report.Some? && o.report.value.status == Failed ==> o.errs != [] && o.report.value.data == ErrorList(o.errs))
      && (o.report.Some? && o.report.value.status == Succeeded ==> o.errs == [])
  {
    var fin := Phases(h, file, s, w, polls0, cancelAt);
    var failed := |fin.errs| > 0;
    var st1 := Verdict(Done(cancelAt, fin.polls), failed);
    SlackShowsStatus(file, st1);
    if Done(cancelAt, fin.polls) {
      DoneStays(cancelAt, fin.polls, fin.polls + 1);
    }
    VerdictLater(Done(cancelAt, fin.polls), Done(cancelAt, fin.polls + 1), failed);
  }

  /** Prepare, the step loop and the check of one scenario. */
  method RunPhases(h: Host, file: string, s: Scenario, w: FileWorld, ctx: TestContext)
    returns (errs: seq<Error>, sent: seq<Request>)
    modifies ctx
    ensures Finish(errs, sent, ctx.polls) == Phases(h, file, s, w, old(ctx.polls), ctx.cancelAt)
  {
    errs := [];
    if s.prepare != "" {
      var ran := RunFile(s.prepare, JoinPath(h.tempDir, Base(file) + "_prepare"), h.ambient, s.env, w.prepare);
      if ran.err.Some? {
        errs := errs + [PrepareFailed(ran.err.value, ran.output)];
      }
    }
    assert errs == PrepareErrs(h, file, s, w.prepare);
    var stopped;
    errs, sent, stopped := RunSteps(h, s.env, file, s.run, w.steps, ctx, errs);
    if !stopped {
      var done := ctx.Poll();
      if done {
        errs := errs + [CancelledBeforeCheck];
      } else if s.check != "" {
        var ran := RunFile(s.check, JoinPath(h.tempDir, Base(file) + "_check"), h.ambient, s.env, w.check);
        if ran.err.Some? {
          errs := errs + [CheckFailed(ran.err.value, ran.output)];
        }
      }
    }
  }

  /** The GET step of NotFoundScenario on its own. */
  lemma NotFoundStep(h: Host, env: seq<(string, string)>, file: string, url: string, u: Url, w: StepWorld)
    requires !HasPrefix(url, Shebang) && h.parseUrl(url) == Success(u)
    requires w.response == Success(404)
    ensures var o := StepSpec(h, env, file, 0, RunHttp("GET", url, [], [], [], [], "", "", Some(Asserts(200, "", ""))), w);
      && o.errs == [StatusMismatch(0, 200, 404)]
      && o.sent.Some? && o.sent.value.httpMethod == "GET" && o.sent.value.path == u.path
  {
    var run := RunHttp("GET", url, [], [], [], [], "", "", Some(Asserts(200, "", "")));
    var prefix := StepPrefix(h.tempDir, file, 0);
    assert ValueOf(h, env, url, prefix + "_url", w.url).value == url;
    var x := Exchange(h, env, prefix, 0, run, u, w);
    assert AssertErrs(h, env, prefix, 0, Asserts(200, "", ""), w) == [StatusMismatch(0, 200, 404)];
    assert HeadersOf(h, env, prefix, 0, [], w.headers) == HeaderPass([], []);
    assert x.errs == [StatusMismatch(0, 200, 404)];
  }

  /** A loop of one step that is not cancelled runs that step. */
  lemma OneStep(h: Host, env: seq<(string, string)>, file: string, runs: seq<RunHttp>, ws: seq<StepWorld>,
                start: Progress)
    requires |runs| == 1 && !start.stopped
    ensures var o := StepSpec(h, env, file, 0, runs[0], StepAt(ws, 0));
      Steps(h, env, file, runs, ws, start, None) ==
        Progress(start.errs + o.errs, start.sent + (if o.sent.Some? then [o.sent.value] else []), start.polls + 1, false)
  {
    assert runs[..0] == [];
  }

  /** A scenario of one GET step that asserts status 200, sent to a server
      that answers 404: the request goes out, exactly one error is
      recorded, and the scenario is reported as a failure. */
  lemma NotFoundScenario(h: Host, input: Input, publish: bool, file: string, s: Scenario, w: FileWorld,
                         polls0: nat, url: string, u: Url)
    requires !HasPrefix(url, Shebang) && h.parseUrl(url) == Success(u)
    requires s.prepare == "" && s.check == ""
    requires s.run == [RunHttp("GET", url, [], [], [], [], "", "", Some(Asserts(200, "", "")))]
    requires StepAt(w.steps, 0).response == Success(404)
    ensures var o := ScenarioRun(h, input, publish, file, s, w, polls0, None).outcome;
      && o.errs == [StatusMismatch(0, 200, 404)]
      && |o.sent| == 1 && o.sent[0].httpMethod == "GET" && o.sent[0].path == u.path
      && (o.slack.Some? ==> o.slack.value == SlackFor(file, Failed))
      && (o.report.Some? ==> o.report.value.status == Failed)
  {
    NotFoundStep(h, s.env, file, url, u, StepAt(w.steps, 0));
    OneStep(h, s.env, file, s.run, w.steps, Progress([], [], polls0, false));
    var fin := Phases(h, file, s, w, polls0, None);
    assert fin.errs == [StatusMismatch(0, 200, 404)];
  }

  /** The body of the file loop for an allowed scenario: prepare, the step
      loop, the check (skipped by cancellation), and the reports. */
  method RunScenario(h: Host, input: Input, publish: bool, file: string, s: Scenario, w: FileWorld,
                     ctx: TestContext) returns (o: FileOutcome)
    modifies ctx
    ensures Scored(o, ctx.polls) == ScenarioRun(h, input, publish, file, s, w, old(ctx.polls), ctx.cancelAt)
  {
    var errs, sent := RunPhases(h, file, s, w, ctx);
    o := ReportResults(h, input, publish, file, errs, sent, w.messageId, ctx);
  }

  /** The reports at the end of a scenario (`reportResults`). */
  method ReportResults(h: Host, input: Input, publish: bool, file: string, errs: seq<Error>, sent: seq<Request>,
                messageId: string, ctx: TestContext) returns (o: FileOutcome)
    modifies ctx
    ensures Scored(o, ctx.polls) == Reports(h, input, publish, file, Finish(errs, sent, old(ctx.polls)), messageId, ctx.cancelAt)
  {
    var failed := |errs| > 0;
    var cancelled := ctx.Poll();
    var slack := None;
    if input.reportSlack != "" {
      slack := Some(SlackFor(file, Verdict(cancelled, failed)));
    }
    var report := None;
    if publish {
      var cancelledNow := ctx.Poll();
      var st := Verdict(cancelledNow, failed);
      var data := NoData;
      if st == Cancelled {
        data := CancelNote;
      } else if st == Failed {
        data := ErrorList(errs);
      }
      var attr := BuildAttributes(h.snssqs, h.pubsub, input.metadata);
      report := Some(PubsubReport(file, attr, st, data, messageId, RunId(input.metadata)));
    }
    return FileOutcome(file, errs, sent, slack, report);
  }

  // ---------------------------------------------------------------------
  // The file loop

  /** Where the file loop stands: the outcomes of the scenarios run so far,
      the looks taken at the context, and whether cancellation ended it. */
  datatype Exec = Exec(outcomes: seq<FileOutcome>, polls: nat, aborted: bool)

  /** The file loop over `files`: the context is looked at before each file
      and cancellation ends the whole call; a file that cannot be read or
      decoded, or that the tag filter rejects, is skipped; the context is
      looked at once more before an allowed scenario runs. */
  function Files(h: Host, input: Input, publish: bool, files: seq<string>, ws: seq<FileWorld>,
                 cancelAt: Option<nat>): (e: Exec)
    ensures |e.outcomes| <= |files|
  {
    if |files| == 0 then Exec([], 0, false)
    else
      var n := |files| - 1;
      FileStep(h, input, publish, Files(h, input, publish, files[..n], ws, cancelAt), files[n], FileAt(ws, n), cancelAt)
  }

  /** One turn of the file loop. */
  function FileStep(h: Host, input: Input, publish: bool, e: Exec, file: string, w: FileWorld,
                    cancelAt: Option<nat>): (r: Exec)
    ensures e.aborted ==> r == e
    ensures |e.outcomes| <= |r.outcomes| <= |e.outcomes| + 1
    ensures r.outcomes[..|e.outcomes|] == e.outcomes
    ensures |r.outcomes| == |e.outcomes| + 1 ==>
      r.outcomes[|e.outcomes|].file == file && w.loaded.Some? && Allowed(h.tags, w.loaded.value.tags)
  {
    if e.aborted then e
    else if Done(cancelAt, e.polls) then Exec(e.outcomes, e.polls + 1, true)
    else if w.loaded.None? || !Allowed(h.tags, w.loaded.value.tags) then Exec(e.outcomes, e.polls + 1, false)
    else if Done(cancelAt, e.polls + 1) then Exec(e.outcomes, e.polls + 2, true)
    else
      var r := ScenarioRun(h, input, publish, file, w.loaded.value, w, e.polls + 2, cancelAt);
      Exec(e.outcomes + [r.outcome], r.polls, false)
  }

  /** What one turn of the file loop does without running a scenario:
      cancellation seen before the file aborts the loop and adds nothing; a
      file that cannot be read, decoded or is not allowed adds nothing and
      the loop goes on. */
  lemma FileTurnSkips(h: Host, input: Input, publish: bool, e: Exec, file: string, w: FileWorld, cancelAt: Option<nat>)
    ensures var r := FileStep(h, input, publish, e, file, w, cancelAt);
      && (r.aborted ==> r.outcomes == e.outcomes)
      && (Done(cancelAt, e.polls) ==> r.aborted)
      && (!e.aborted && !Done(cancelAt, e.polls) && (w.loaded.None? || !Allowed(h.tags, w.loaded.value.tags)) ==>
            r == Exec(e.outcomes, e.polls + 1, false))
  {
    var r := FileStep(h, input, publish, e, file, w, cancelAt);
    if !e.aborted && !Done(cancelAt, e.polls) && w.loaded.Some? && Allowed(h.tags, w.loaded.value.tags)
       && !Done(cancelAt, e.polls + 1) {
      assert !r.aborted;
    }
  }

  /** An allowed file of a loop not cancelled before it runs adds exactly
      its scenario's outcome, and the loop goes on. */
  lemma FileTurnRuns(h: Host, input: Input, publish: bool, e: Exec, file: string, w: FileWorld, cancelAt: Option<nat>)
    requires !e.aborted && !Done(cancelAt, e.polls + 1) && w.loaded.Some? && Allowed(h.tags, w.loaded.value.tags)
    ensures var r := FileStep(h, input, publish, e, file, w, cancelAt);
      !r.aborted &&
      r.outcomes == e.outcomes + [ScenarioRun(h, input, publish, file, w.loaded.value, w, e.polls + 2, cancelAt).outcome]
  {
    var sr := ScenarioRun(h, input, publish, file, w.loaded.value, w, e.polls + 2, cancelAt);
    assert FileStep(h, input, publish, e, file, w, cancelAt) == Exec(e.outcomes + [sr.outcome], sr.polls, false);
  }

  /** The file loop over one more file takes one more turn. */
  lemma FilesSnoc(h: Host, input: Input, publish: bool, files: seq<string>, ws: seq<FileWorld>,
                  cancelAt: Option<nat>, i: nat)
    requires i < |files|
    ensures Files(h, input, publish, files[..i + 1], ws, cancelAt) ==
      FileStep(h, input, publish, Files(h, input, publish, files[..i], ws, cancelAt), files[i], FileAt(ws, i), cancelAt)
  {
    assert files[..i + 1][..i] == files[..i];
  }

  /** A file loop aborted before its last file ignores that file. */
  lemma AbortedStaysAborted(h: Host, input: Input, publish: bool, files: seq<string>,
                            ws: seq<FileWorld>, cancelAt: Option<nat>)
    requires |files| > 0 && Files(h, input, publish, files[..|files| - 1], ws, cancelAt).aborted
    ensures Files(h, input, publish, files, ws, cancelAt) == Files(h, input, publish, files[..|files| - 1], ws, cancelAt)
  {
  }

  /** Once cancellation has ended the file loop, later files change nothing:
      no further scenario runs or reports. */
  lemma {:induction false} FilesAborted(h: Host, input: Input, publish: bool, files: seq<string>,
                                        ws: seq<FileWorld>, cancelAt: Option<nat>, k: nat)
    requires k <= |files| && Files(h, input, publish, files[..k], ws, cancelAt).aborted
    ensures Files(h, input, publish, files, ws, cancelAt) == Files(h, input, publish, files[..k], ws, cancelAt)
    decreases |files|
  {
    if k < |files| {
      var n := |files| - 1;
      assert files[..n][..k] == files[..k];
      FilesAborted(h, input, publish, files[..n], ws, cancelAt, k);
      AbortedStaysAborted(h, input, publish, files, ws, cancelAt);
    } else {
      assert files[..k] == files;
    }
  }

  /** Only cancellation ends the file loop early. */
  lemma {:induction false} FilesUncancelled(h: Host, input: Input, publish: bool, files: seq<string>,
                                            ws: seq<FileWorld>)
    ensures !Files(h, input, publish, files, ws, None).aborted
  {
    if |files| > 0 {
      FilesUncancelled(h, input, publish, files[..|files| - 1], ws);
    }
  }

  /** Outcome `o` comes from a file of `files` that could be read and
      decoded and that the tag filter allowed. */
  predicate FromAllowedFile(h: Host, files: seq<string>, ws: seq<FileWorld>, o: FileOutcome) {
    exists j :: 0 <= j < |files| && files[j] == o.file && FileAt(ws, j).loaded.Some?
                && Allowed(h.tags, FileAt(ws, j).loaded.value.tags)
  }

  /** Every outcome comes from a file of the list that could be read and
      decoded and that the tag filter allowed. */
  lemma {:induction false} OutcomesAreAllowed(h: Host, input: Input, publish: bool, files: seq<string>,
                                              ws: seq<FileWorld>, cancelAt: Option<nat>)
    ensures var e := Files(h, input, publish, files, ws, cancelAt);
      forall m :: 0 <= m < |e.outcomes| ==> FromAllowedFile(h, files, ws, e.outcomes[m])
  {
    if |files| > 0 {
      var n := |files| - 1;
      OutcomesAreAllowed(h, input, publish, files[..n], ws, cancelAt);
      var e0 := Files(h, input, publish, files[..n], ws, cancelAt);
      var e := Files(h, input, publish, files, ws, cancelAt);
      assert var e1 := Files(h, input, publish, files[..n], ws, cancelAt);
        forall m :: 0 <= m < |e1.outcomes| ==> FromAllowedFile(h, files[..n], ws, e1.outcomes[m]);
      assert forall m :: 0 <= m < |e0.outcomes| ==> FromAllowedFile(h, files[..n], ws, e0.outcomes[m]);
      assert e == FileStep(h, input, publish, e0, files[n], FileAt(ws, n), cancelAt);
      forall m | 0 <= m < |e.outcomes| ensures FromAllowedFile(h, files, ws, e.outcomes[m]) {
        if m < |e0.outcomes| {
          assert e.outcomes[m] == e0.outcomes[m];
          assert FromAllowedFile(h, files[..n], ws, e0.outcomes[m]);
          var j :| 0 <= j < n && files[..n][j] == e0.outcomes[m].file && FileAt(ws, j).loaded.Some?
                   && Allowed(h.tags, FileAt(ws, j).loaded.value.tags);
          assert files[j] == files[..n][j];
        } else {
          assert m == |e0.outcomes|;
          assert e.outcomes[m].file == files[n];
          assert FileAt(ws, n).loaded.Some? && Allowed(h.tags, FileAt(ws, n).loaded.value.tags);
        }
      }
    }
  }

  /** The files of the list that can be read and decoded and that the tag
      filter allows, in list order. */
  function Runnable(h: Host, files: seq<string>, ws: seq<FileWorld>): seq<string> {
    if |files| == 0 then []
    else
      var n := |files| - 1;
      var w := FileAt(ws, n);
      Runnable(h, files[..n], ws) + (if w.loaded.Some? && Allowed(h.tags, w.loaded.value.tags) then [files[n]] else [])
  }

  /** The files the outcomes report on, in order. */
  function Names(os: seq<FileOutcome>): (r: seq<string>)
    ensures |r| == |os| && forall k :: 0 <= k < |os| ==> r[k] == os[k].file
  {
    seq(|os|, k requires 0 <= k < |os| => os[k].file)
  }

  /** One turn of a loop nobody cancels adds an outcome exactly for an
      allowed file, and that outcome is the file's. */
  lemma UncancelledFileTurn(h: Host, input: Input, publish: bool, e: Exec, file: string, w: FileWorld)
    requires !e.aborted
    ensures var r := FileStep(h, input, publish, e, file, w, None);
      && !r.aborted
      && Names(r.outcomes) ==
         Names(e.outcomes) + (if w.loaded.Some? && Allowed(h.tags, w.loaded.value.tags) then [file] else [])
  {
    var r := FileStep(h, input, publish, e, file, w, None);
    if w.loaded.Some? && Allowed(h.tags, w.loaded.value.tags) {
      FileTurnRuns(h, input, publish, e, file, w, None);
      assert Names(r.outcomes) == Names(e.outcomes) + [file];
    } else {
      assert r.outcomes == e.outcomes;
    }
  }

  /** A file loop nobody cancels runs every file that can be read, decoded
      and is allowed, in list order, and only those. */
  lemma {:induction false} FilesRunAllAllowed(h: Host, input: Input, publish: bool, files: seq<string>,
                                              ws: seq<FileWorld>)
    ensures Names(Files(h, input, publish, files, ws, None).outcomes) == Runnable(h, files, ws)
  {
    if |files| > 0 {
      var n := |files| - 1;
      FilesRunAllAllowed(h, input, publish, files[..n], ws);
      FilesUncancelled(h, input, publish, files[..n], ws);
      var e0 := Files(h, input, publish, files[..n], ws, None);
      UncancelledFileTurn(h, input, publish, e0, files[n], FileAt(ws, n));
    }
  }

  /** The registry key's effect on cancellation: only a run registered
      under a key can be cancelled from outside. */
  function EffectiveCancel(key: Option<string>, cancelAt: Option<nat>): Option<nat> {
    if key.Some? then cancelAt else None
  }

  /** The application context a doScenario call may be given: the registry
      of running tests and whether a pub/sub publisher is configured. */
  class App {
    const registry: Registry
    const hasPublisher: bool

    constructor (hasPublisher: bool)
      ensures fresh(registry) && registry.running == map[] && this.hasPublisher == hasPublisher
    {
      registry := new Registry();
      this.hasPublisher := hasPublisher;
    }
  }

  /** One turn of the file loop, on a run not yet cancelled. */
  method VisitFile(h: Host, input: Input, publish: bool, outcomes0: seq<FileOutcome>, file: string, w: FileWorld,
                   ctx: TestContext) returns (outcomes: seq<FileOutcome>, aborted: bool)
    modifies ctx
    ensures Exec(outcomes, ctx.polls, aborted) ==
      FileStep(h, input, publish, Exec(outcomes0, old(ctx.polls), false), file, w, ctx.cancelAt)
  {
    ghost var e := Exec(outcomes0, ctx.polls, false);
    outcomes, aborted := outcomes0, false;
    var done := ctx.Poll();
    if done {
      aborted := true;
    } else if w.loaded.Some? {
      var s := w.loaded.value;
      var ok := IsAllowed(h.tags, s.tags);
      if ok {
        done := ctx.Poll();
        if done {
          aborted := true;
        } else {
          ghost var r := ScenarioRun(h, input, publish, file, s, w, e.polls + 2, ctx.cancelAt);
          assert FileStep(h, input, publish, e, file, w, ctx.cancelAt) == Exec(e.outcomes + [r.outcome], r.polls, false);
          var o := RunScenario(h, input, publish, file, s, w, ctx);
          outcomes := outcomes + [o];
        }
      }
    }
  }

  /** The file loop of doScenario, on a fresh context. */
  method RunFiles(h: Host, input: Input, publish: bool, files: seq<string>, ws: seq<FileWorld>, ctx: TestContext)
    returns (outcomes: seq<FileOutcome>, aborted: bool)
    requires ctx.polls == 0
    modifies ctx
    ensures Exec(outcomes, ctx.polls, aborted) == Files(h, input, publish, files, ws, ctx.cancelAt)
  {
    outcomes := [];
    aborted := false;
    var i := 0;
    while i < |files| && !aborted
      invariant 0 <= i <= |files|
      invariant Exec(outcomes, ctx.polls, aborted) == Files(h, input, publish, files[..i], ws, ctx.cancelAt)
    {
      FilesSnoc(h, input, publish, files, ws, ctx.cancelAt, i);
      outcomes, aborted := VisitFile(h, input, publish, outcomes, files[i], FileAt(ws, i), ctx);
      i := i + 1;
    }
    if aborted {
      FilesAborted(h, input, publish, files, ws, ctx.cancelAt, i);
    } else {
      assert files[..i] == files;
    }
  }

  /** doScenario. The run registers its cancel function (`token`) under its
      key, if it has one, for the whole call, and removes whatever is
      registered under that key on the way out. Cancellation ends the call
      with "test cancelled". */
  method DoScenario(h: Host, input: Input, app: App?, token: nat, ws: seq<FileWorld>, cancelAt: Option<nat>)
    returns (err: Option<string>, outcomes: seq<FileOutcome>)
    modifies if app == null then {} else {app.registry}
    ensures var key := CancelKey(app != null, input.metadata);
      app != null ==>
        app.registry.running == if key.Some? then old(app.registry.running) - {key.value} else old(app.registry.running)
    ensures var e := Files(h, input, Publishes(input, app != null, app != null && app.hasPublisher), input.files, ws,
                           EffectiveCancel(CancelKey(app != null, input.metadata), cancelAt));
      && outcomes == e.outcomes
      && err == if e.aborted then Some("test cancelled") else None
  {
    var key := CancelKey(app != null, input.metadata);
    var ctx := new TestContext(EffectiveCancel(key, cancelAt));
    if key.Some? {
      app.registry.Register(key.value, token);
    }
    var publish := input.reportPubsub != "" && app != null && app.hasPublisher;
    var aborted;
    outcomes, aborted := RunFiles(h, input, publish, input.files, ws, ctx);
    err := if aborted then Some("test cancelled") else None;
    if key.Some? {
      app.registry.Deregister(key.value);
    }
  }

  /** A run that registers no key can never be cancelled: it goes through
      every file and returns no error. */
  lemma UnregisteredRunCompletes(h: Host, input: Input, publish: bool, ws: seq<FileWorld>, cancelAt: Option<nat>)
    ensures !Files(h, input, publish, input.files, ws, EffectiveCancel(None, cancelAt)).aborted
  {
    FilesUncancelled(h, input, publish, input.files, ws);
  }
}
