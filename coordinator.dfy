/** The SQS side of the service (main.go:47-162): the scenario files to run
    are the explicitly named ones plus the `.yaml` files under a directory;
    a `start` message fans them out as one `process` message per file, all
    carrying one fresh batch id, and a `process` message runs its one file.

    The directory walk, `filepath.Abs`, JSON decoding, the batch id and
    the outcome of each SNS publish are inputs. */
module Coordinator {
  import opened Wrappers
  import opened Text
  import opened Metadata
  import opened Executor
  import opened Cancellation

  /** The message exchanged over SNS/SQS: `code` is "start" or "process";
      `id` names the batch and `scenario` the file, for "process". */
  datatype Cmd = Cmd(code: string, id: string, scenario: string)

  // ---------------------------------------------------------------------
  // combineFilesAndDir

  /** The absolute forms of the explicitly named files. */
  function Explicit(files: seq<string>, abs: string -> string): set<string> {
    set v | v in files :: abs(v)
  }

  /** The absolute forms of the walked paths that end in ".yaml". */
  function Walked(walked: seq<string>, abs: string -> string): set<string> {
    set p | p in walked && HasSuffix(abs(p), ".yaml") :: abs(p)
  }

  /** The paths combineFilesAndDir returns, as a set. */
  function Candidates(files: seq<string>, walked: seq<string>, abs: string -> string): set<string> {
    Explicit(files, abs) + Walked(walked, abs)
  }

  /** No path occurs twice. */
  predicate Distinct<T(==)>(s: seq<T>) {
    forall i, j :: 0 <= i < j < |s| ==> s[i] != s[j]
  }

  /** combineFilesAndDir: the absolute paths are gathered in a set, first
      the named files whatever their suffix, then the walked `.yaml` files,
      and the set is listed in the order it happens to be visited. `walked`
      lists the paths the walk visits, `abs` is filepath.Abs. */
  method CombineFilesAndDir(files: seq<string>, walked: seq<string>, abs: string -> string)
    returns (final: seq<string>)
    ensures Distinct(final)
    ensures forall v :: v in files ==> abs(v) in final
    ensures forall p :: p in walked && HasSuffix(abs(p), ".yaml") ==> abs(p) in final
    ensures forall x :: x in final ==>
      (exists v :: v in files && abs(v) == x) || (exists p :: p in walked && abs(p) == x && HasSuffix(x, ".yaml"))
    ensures forall x :: x in final <==> x in Candidates(files, walked, abs)
    ensures |final| == |Candidates(files, walked, abs)|
  {
    var tmp := ExplicitPaths(files, abs);
    tmp := AddWalked(tmp, walked, abs);
    final := ListSet(tmp);
    CandidatesFrom(files, walked, abs);
  }

  /** Where a candidate comes from. */
  lemma CandidatesFrom(files: seq<string>, walked: seq<string>, abs: string -> string)
    ensures forall x :: x in Candidates(files, walked, abs) ==>
      (exists v :: v in files && abs(v) == x) || (exists p :: p in walked && abs(p) == x && HasSuffix(x, ".yaml"))
  {
  }

  /** The first loop of combineFilesAndDir, over the named files. */
  method ExplicitPaths(files: seq<string>, abs: string -> string) returns (tmp: set<string>)
    ensures tmp == Explicit(files, abs)
  {
    tmp := {};
    for i := 0 to |files|
      invariant tmp == Explicit(files[..i], abs)
    {
      assert files[..i + 1] == files[..i] + [files[i]];
      tmp := tmp + {abs(files[i])};
    }
    assert files[..|files|] == files;
  }

  /** The walk callback of combineFilesAndDir, over every visited path. */
  method AddWalked(tmp0: set<string>, walked: seq<string>, abs: string -> string) returns (tmp: set<string>)
    ensures tmp == tmp0 + Walked(walked, abs)
  {
    tmp := tmp0;
    for i := 0 to |walked|
      invariant tmp == tmp0 + Walked(walked[..i], abs)
    {
      assert walked[..i + 1] == walked[..i] + [walked[i]];
      var f := abs(walked[i]);
      if HasSuffix(f, ".yaml") {
        tmp := tmp + {f};
      }
    }
    assert walked[..|walked|] == walked;
  }

  /** The loop that lists the keys of a set, each once, in any order. */
  method ListSet(tmp: set<string>) returns (final: seq<string>)
    ensures Distinct(final)
    ensures forall x :: x in final <==> x in tmp
    ensures |final| == |tmp|
  {
    final := [];
    var rest := tmp;
    while rest != {}
      invariant rest <= tmp
      invariant Distinct(final)
      invariant forall x :: x in final <==> x in tmp && x !in rest
      invariant |final| + |rest| == |tmp|
      decreases |rest|
    {
      var k :| k in rest;
      final := final + [k];
      rest := rest - {k};
    }
  }

  // ---------------------------------------------------------------------
  // processSQS

  /** The "process" messages a "start" message fans out, one per file, in
      the order of the files. */
  function ProcessCmds(id: string, final: seq<string>): (cmds: seq<Cmd>)
    ensures |cmds| == |final|
    ensures forall j :: 0 <= j < |final| ==> cmds[j] == Cmd("process", id, final[j])
  {
    if |final| == 0 then [] else ProcessCmds(id, final[..|final| - 1]) + [Cmd("process", id, final[|final| - 1])]
  }

  /** The publish error of the j-th message; messages past the end of the
      given outcomes are published. */
  function PublishErrAt(errs: seq<Option<string>>, j: nat): Option<string> {
    if j < |errs| then errs[j] else None
  }

  /** The messages among `cmds` whose publish went through, in order: a
      failed publish skips only its own message. */
  function Delivered(cmds: seq<Cmd>, errs: seq<Option<string>>): (out: seq<Cmd>)
    ensures |out| <= |cmds|
    ensures forall c :: c in out ==> c in cmds
  {
    if |cmds| == 0 then []
    else
      var n := |cmds| - 1;
      Delivered(cmds[..n], errs) + (if PublishErrAt(errs, n).None? then [cmds[n]] else [])
  }

  /** With distinct messages, a message is delivered exactly when its own
      publish went through, whatever happened to the others. */
  lemma {:induction false} DeliveredExactly(cmds: seq<Cmd>, errs: seq<Option<string>>, j: nat)
    requires Distinct(cmds) && j < |cmds|
    ensures cmds[j] in Delivered(cmds, errs) <==> PublishErrAt(errs, j).None?
  {
    var n := |cmds| - 1;
    var init := cmds[..n];
    assert Distinct(init);
    if j < n {
      assert init[j] == cmds[j];
      DeliveredExactly(init, errs, j);
      assert cmds[j] != cmds[n];
    } else {
      assert cmds[n] !in init;
      assert cmds[n] !in Delivered(init, errs);
    }
  }

  /** The executor input of a "process" message: its one file, and no
      report targets or metadata. */
  function ProcessInput(c: Cmd): Input {
    Input([c.scenario], "", "", map[])
  }

  /** What processSQS did with a message. */
  datatype Dispatch = Dispatch(
    err: Option<string>,
    attempted: seq<Cmd>,
    delivered: seq<Cmd>,
    outcomes: seq<FileOutcome>)

  /** The publishing loop of a "start" message: one "process" message per
      file, in order, all with batch id `id`; a failed publish is logged
      and the loop goes on. */
  method FanOut(id: string, final: seq<string>, publishErrs: seq<Option<string>>)
    returns (attempted: seq<Cmd>, delivered: seq<Cmd>)
    ensures attempted == ProcessCmds(id, final)
    ensures delivered == Delivered(attempted, publishErrs)
  {
    attempted := [];
    delivered := [];
    for j := 0 to |final|
      invariant attempted == ProcessCmds(id, final[..j])
      invariant delivered == Delivered(attempted, publishErrs)
    {
      assert final[..j + 1][..j] == final[..j];
      var nc := Cmd("process", id, final[j]);
      attempted := attempted + [nc];
      assert attempted[..j] == ProcessCmds(id, final[..j]);
      if PublishErrAt(publishErrs, j).None? {
        delivered := delivered + [nc];
      }
    }
    assert final[..|final|] == final;
  }

  /** The messages of distinct files are distinct. */
  lemma ProcessCmdsDistinct(id: string, final: seq<string>)
    requires Distinct(final)
    ensures Distinct(ProcessCmds(id, final))
  {
    var cmds := ProcessCmds(id, final);
    forall i, j | 0 <= i < j < |cmds| ensures cmds[i] != cmds[j] {
      assert cmds[i].scenario == final[i] && cmds[j].scenario == final[j];
    }
  }

  /** The "start" branch: the combined file list fanned out under one id. */
  method Start(newId: string, files: seq<string>, walked: seq<string>, abs: string -> string,
               publishErrs: seq<Option<string>>)
    returns (attempted: seq<Cmd>, delivered: seq<Cmd>)
    ensures |attempted| == |Candidates(files, walked, abs)|
    ensures Distinct(attempted)
    ensures forall j :: 0 <= j < |attempted| ==>
      attempted[j].code == "process" && attempted[j].id == newId
      && attempted[j].scenario in Candidates(files, walked, abs)
    ensures forall x :: x in Candidates(files, walked, abs) ==> Cmd("process", newId, x) in attempted
    ensures delivered == Delivered(attempted, publishErrs)
  {
    var final := CombineFilesAndDir(files, walked, abs);
    attempted, delivered := FanOut(newId, final, publishErrs);
    ProcessCmdsDistinct(newId, final);
    forall x | x in Candidates(files, walked, abs) ensures Cmd("process", newId, x) in attempted {
      var j :| 0 <= j < |final| && final[j] == x;
      assert attempted[j] == Cmd("process", newId, x);
    }
  }

  /** The "process" branch: the executor runs the message's one file with
      no application context, so nothing can cancel it and nothing is
      published to pub/sub. */
  method Process(c: Cmd, h: Host, ws: seq<FileWorld>) returns (outcomes: seq<FileOutcome>)
    ensures outcomes == Files(h, ProcessInput(c), false, [c.scenario], ws, None).outcomes
  {
    var input := ProcessInput(c);
    assert !Publishes(input, false, false);
    assert CancelKey(false, input.metadata).None?;
    var err;
    err, outcomes := DoScenario(h, input, null, 0, ws, None);
  }

  /** processSQS. A message that does not decode returns the decoding error
      and does nothing else; "start" publishes one "process" message per
      file with the batch id `newId`, going on after a failed publish;
      "process" runs the executor on the message's one file, without an
      application context; any other code does nothing. Publishing errors
      and the executor's result are not returned. */
  method ProcessSQS(decoded: Result<Cmd, string>, newId: string, files: seq<string>, walked: seq<string>,
                    abs: string -> string, publishErrs: seq<Option<string>>, h: Host, ws: seq<FileWorld>)
    returns (d: Dispatch)
    ensures decoded.Failure? ==> d == Dispatch(Some(decoded.error), [], [], [])
    ensures decoded.Success? ==> d.err.None?
    ensures decoded.Success? && decoded.value.code == "start" ==>
      && d.outcomes == []
      && |d.attempted| == |Candidates(files, walked, abs)|
      && Distinct(d.attempted)
      && (forall j :: 0 <= j < |d.attempted| ==>
            d.attempted[j].code == "process" && d.attempted[j].id == newId
            && d.attempted[j].scenario in Candidates(files, walked, abs))
      && (forall x :: x in Candidates(files, walked, abs) ==> Cmd("process", newId, x) in d.attempted)
      && d.delivered == Delivered(d.attempted, publishErrs)
    ensures decoded.Success? && decoded.value.code == "process" ==>
      && d.attempted == [] && d.delivered == []
      && d.outcomes == Files(h, ProcessInput(decoded.value), false, [decoded.value.scenario], ws, None).outcomes
    ensures decoded.Success? && decoded.value.code != "start" && decoded.value.code != "process" ==>
      d == Dispatch(None, [], [], [])
  {
    if decoded.Failure? {
      return Dispatch(Some(decoded.error), [], [], []);
    }
    var c := decoded.value;
    if c.code == "start" {
      var attempted, delivered := Start(newId, files, walked, abs, publishErrs);
      return Dispatch(None, attempted, delivered, []);
    } else if c.code == "process" {
      var outcomes := Process(c, h, ws);
      return Dispatch(None, [], [], outcomes);
    }
    return Dispatch(None, [], [], []);
  }

  /** A "process" message runs its file at most once and reports nowhere:
      no Slack message and no pub/sub report. */
  lemma ProcessReportsNothing(h: Host, c: Cmd, ws: seq<FileWorld>)
    ensures var outcomes := Files(h, ProcessInput(c), false, [c.scenario], ws, None).outcomes;
      && |outcomes| <= 1
      && forall o :: o in outcomes ==> o.file == c.scenario && o.slack.None? && o.report.None?
  {
    var files := [c.scenario];
    assert files[..0] == [];
  }
}
