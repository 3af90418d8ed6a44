/** How a scenario runs a script: RunScript sniffs the first line for a
    `#!` interpreter and builds the child's command line and environment;
    ParseValue turns a field that holds a script into that script's output
    (scenario.go:71-151).

    Writing files, running `head` and running the child are done by the
    outside world; their outcomes are the `ScriptWorld` / `ValueWorld`
    inputs below. */
module Script {
  import opened Wrappers
  import opened Text

  /** Why a script produced no usable output. */
  datatype ScriptError =
    | WriteFailed(reason: string)  // os.Create or Sync in WriteScript failed
    | HeadFailed(reason: string)   // `head -n 1 <file>` failed
    | Unsupported                  // the first line does not start with "#!"
    | ExitFailed(reason: string)   // the interpreter could not start or exited non-zero

  /** The command line and the environment handed to exec.Command. */
  datatype Invocation = Invocation(argv: seq<string>, env: seq<string>)

  const Shebang: string := "#!"

  lemma HeadTokenKeepsShebang(head: string)
    requires HasPrefix(head, Shebang)
    ensures HasPrefix(Split(head, " ")[0], Shebang)
  {
    forall j | 0 <= j < |Shebang| ensures !OccursAt(head, " ", j) {
      assert head[j] == head[..2][j];
      assert head[j..j + 1] == [head[j]];
    }
    SplitHeadKeepsPrefix(head, " ", Shebang);
  }

  /** The interpreter named by a `#!` line: the base name of the first
      space-separated word after the marker, with newlines trimmed off. */
  function Runner(head: string): (runner: string)
    requires HasPrefix(head, Shebang)
    ensures |runner| == 0 || (runner[0] != '\n' && runner[|runner| - 1] != '\n')
  {
    HeadTokenKeepsShebang(head);
    var token := Split(head, " ")[0];
    SplitLeadingSeparator(token, Shebang);
    Trim(Base(Split(token, Shebang)[1]), '\n')
  }

  /** One "k=v" entry of the child environment. */
  function EnvEntry(kv: (string, string)): string {
    kv.0 + "=" + kv.1
  }

  /** The child's environment: the ambient environment followed by one
      "k=v" entry per scenario variable, in the order they are visited. */
  function ChildEnvOf(ambient: seq<string>, env: seq<(string, string)>): (r: seq<string>)
    ensures |r| == |ambient| + |env|
    ensures r[..|ambient|] == ambient
    ensures forall j :: 0 <= j < |env| ==> r[|ambient| + j] == EnvEntry(env[j])
  {
    if |env| == 0 then ambient
    else ChildEnvOf(ambient, env[..|env| - 1]) + [EnvEntry(env[|env| - 1])]
  }

  /** What RunScript decides from the output of `head -n 1` on `file`: the
      `head` failure, "unsupported" for a first line without `#!`, or the
      invocation. A python-family interpreter gets the file as its argument;
      any other interpreter is treated as a shell and gets `-c file`. */
  function Launch(head: Result<string, string>, file: string, ambient: seq<string>,
                  env: seq<(string, string)>): (r: Result<Invocation, ScriptError>)
    ensures head.Failure? ==> r == Failure(HeadFailed(head.error))
    ensures head.Success? ==> (r.Failure? <==> !HasPrefix(head.value, Shebang))
    ensures r.Failure? && head.Success? ==> r.error == Unsupported
    ensures r.Success? ==>
      && HasPrefix(head.value, Shebang)
      && var runner := Runner(head.value);
      && (Contains(runner, "python") ==> r.value.argv == [runner, file])
      && (!Contains(runner, "python") ==> r.value.argv == [runner, "-c", file])
      && r.value.env == ChildEnvOf(ambient, env)
  {
    match head
    case Failure(e) => Failure(HeadFailed(e))
    case Success(line) =>
      if !HasPrefix(line, Shebang) then Failure(Unsupported)
      else
        var runner := Runner(line);
        var argv := if Contains(runner, "python") then [runner, file] else [runner, "-c", file];
        Success(Invocation(argv, ChildEnvOf(ambient, env)))
  }

  /** The loop that appends the scenario's variables to os.Environ(). */
  method ChildEnv(ambient: seq<string>, env: seq<(string, string)>) returns (out: seq<string>)
    ensures out == ChildEnvOf(ambient, env)
  {
    out := ambient;
    var i := 0;
    while i < |env|
      invariant 0 <= i <= |env|
      invariant out == ChildEnvOf(ambient, env[..i])
    {
      assert env[..i + 1][..i] == env[..i];
      out := out + [EnvEntry(env[i])];
      i := i + 1;
    }
    assert env[..|env|] == env;
  }

  /** RunScript up to the point where the child is started. */
  method RunScript(head: Result<string, string>, file: string, ambient: seq<string>,
                   env: seq<(string, string)>) returns (r: Result<Invocation, ScriptError>)
    ensures r == Launch(head, file, ambient, env)
  {
    if head.Failure? {
      return Failure(HeadFailed(head.error));
    }
    var line := head.value;
    if !HasPrefix(line, Shebang) {
      return Failure(Unsupported);
    }
    var runner := Runner(line);
    var argv: seq<string>;
    if Contains(runner, "python") {
      argv := [runner, file];
    } else {
      argv := [runner, "-c", file];
    }
    var childEnv := ChildEnv(ambient, env);
    return Success(Invocation(argv, childEnv));
  }

  lemma NoHashNoSplit(s: string)
    requires '#' !in s
    ensures Split(s, Shebang) == [s]
  {
    forall j | 0 <= j ensures !OccursAt(s, Shebang, j) {
      if j + 2 <= |s| {
        assert s[j..j + 2][0] == s[j];
      }
    }
    assert IndexOf(s, Shebang) == None;
  }

  lemma SplitAfterShebang(rest: string)
    requires '#' !in rest
    ensures Split(Shebang + rest, Shebang) == ["", rest]
  {
    var s := Shebang + rest;
    assert OccursAt(s, Shebang, 0);
    assert s[2..] == rest;
    NoHashNoSplit(rest);
  }

  /** The first space-separated word of `#!<word><tail>` is `#!<word>`. */
  lemma {:induction false} FirstWordOfHead(word: string, tail: string)
    requires ' ' !in word
    requires tail == "" || tail[0] == ' '
    ensures Split(Shebang + word + tail, " ")[0] == Shebang + word
  {
    var w := Shebang + word;
    var head := w + tail;
    assert ' ' !in w;
    forall j | 0 <= j < |w| ensures !OccursAt(head, " ", j) {
      assert head[j] == w[j];
      assert head[j..j + 1] == [head[j]];
    }
    if tail == "" {
      assert head == w;
      SplitAbsent(w, ' ');
    } else {
      assert head[|w|..|w| + 1] == [tail[0]];
      assert OccursAt(head, " ", |w|);
      assert IndexOf(head, " ") == Some(|w|);
      assert head[..|w|] == w;
    }
  }

  /** The base name of `<dir>/<name><nl>` without its newlines is `<name>`. */
  lemma {:induction false} TrimmedBaseOfPath(dir: string, name: string, nl: string)
    requires '\n' !in name && '/' !in name && |name| > 0
    requires nl == "" || nl == "\n"
    ensures Trim(Base(dir + "/" + name + nl), '\n') == name
  {
    var word := dir + "/" + name + nl;
    assert word == (dir + "/") + (name + nl);
    assert word[|word| - 1] != '/';
    assert TrimTrailing(word, '/') == word;
    AfterLastOfTail(dir + "/", name + nl, '/');
    assert Base(word) == name + nl;
    if nl == "\n" {
      assert TrimTrailing(name + nl, '\n') == TrimTrailing(name, '\n');
    } else {
      assert name + nl == name;
    }
  }

  /** The interpreter of `#!<word>` followed by nothing or by a space is
      the base name of `<word>`. */
  lemma RunnerOfWord(head: string, word: string, rest: string)
    requires ' ' !in word && '#' !in word
    requires rest == "" || rest[0] == ' '
    requires head == Shebang + word + rest
    ensures HasPrefix(head, Shebang) && Runner(head) == Trim(Base(word), '\n')
  {
    FirstWordOfHead(word, rest);
    SplitAfterShebang(word);
    assert head[..2] == Shebang;
  }

  /** The interpreter of `#!<dir>/<name>` is `<name>`, whether the line ends
      there or goes on with a space and arguments. */
  lemma RunnerOfInterpreterPath(head: string, dir: string, name: string, tail: string)
    requires ' ' !in dir && '#' !in dir && '\n' !in dir
    requires ' ' !in name && '#' !in name && '\n' !in name && '/' !in name && |name| > 0
    requires tail == "\n" || (|tail| > 0 && tail[0] == ' ')
    requires head == Shebang + dir + "/" + name + tail
    ensures HasPrefix(head, Shebang) && Runner(head) == name
  {
    var nl := if tail == "\n" then "\n" else "";
    var rest := if tail == "\n" then "" else tail;
    var word := dir + "/" + name + nl;
    assert head == Shebang + word + rest;
    assert ' ' !in word && '#' !in word;
    RunnerOfWord(head, word, rest);
    TrimmedBaseOfPath(dir, name, nl);
  }

  lemma ShortNameNotPython(name: string)
    requires |name| < 6
    ensures !Contains(name, "python")
  {
  }

  /** Launch follows the runner: how the argument vector is chosen. */
  lemma LaunchByRunner(head: string, file: string, runner: string)
    requires HasPrefix(head, Shebang) && Runner(head) == runner
    ensures var r := Launch(Success(head), file, [], []);
            r.Success? && r.value.argv == (if Contains(runner, "python") then [runner, file] else [runner, "-c", file])
  {
  }

  /** `#!<dir>/sh` runs the file through `sh -c`. */
  lemma ShellScriptLaunch(dir: string, file: string)
    requires ' ' !in dir && '#' !in dir && '\n' !in dir
    ensures var r := Launch(Success(Shebang + dir + "/sh\n"), file, [], []);
            r.Success? && r.value.argv == ["sh", "-c", file]
  {
    var head := Shebang + dir + "/sh\n";
    RunnerOfInterpreterPath(head, dir, "sh", "\n");
    ShortNameNotPython("sh");
    LaunchByRunner(head, file, "sh");
  }

  /** `#!<dir>/python3` gets the file as its only argument. */
  lemma PythonScriptLaunch(dir: string, file: string)
    requires ' ' !in dir && '#' !in dir && '\n' !in dir
    ensures var r := Launch(Success(Shebang + dir + "/python3\n"), file, [], []);
            r.Success? && r.value.argv == ["python3", file]
  {
    var head := Shebang + dir + "/python3\n";
    RunnerOfInterpreterPath(head, dir, "python3", "\n");
    assert OccursAt("python3", "python", 0);
    LaunchByRunner(head, file, "python3");
  }

  /** `#!<dir>/env python3` is not understood: the interpreter is `env`, which
      is run as a shell. */
  lemma EnvShebangLaunch(dir: string, file: string)
    requires ' ' !in dir && '#' !in dir && '\n' !in dir
    ensures var r := Launch(Success(Shebang + dir + "/env python3\n"), file, [], []);
            r.Success? && r.value.argv == ["env", "-c", file]
  {
    var head := Shebang + dir + "/env python3\n";
    RunnerOfInterpreterPath(head, dir, "env", " python3\n");
    ShortNameNotPython("env");
    LaunchByRunner(head, file, "env");
  }

  /** What the child run by RunScript does: its combined output and, if it
      failed, why. */
  datatype ChildRun = ChildRun(output: string, exitErr: Option<string>)

  /** The outside world's part in one RunScript call on a file already
      written: whether `head` fails, and what the child does. */
  datatype ScriptWorld = ScriptWorld(headErr: Option<string>, child: ChildRun)

  /** RunScript's result: the combined output and the error, if any. */
  datatype Ran = Ran(output: string, err: Option<ScriptError>)

  /** `head -n 1` shows the `#!` marker exactly when the file starts with it. */
  lemma FirstLineShebang(contents: string)
    ensures HasPrefix(FirstLine(contents), Shebang) <==> HasPrefix(contents, Shebang)
  {
    if HasPrefix(contents, Shebang) {
      FirstLineKeepsPrefix(contents, Shebang);
    }
    if HasPrefix(FirstLine(contents), Shebang) {
      assert contents[..|FirstLine(contents)|][..2] == contents[..2];
    }
  }

  /** RunScript on a file that holds `contents`: `head` reads its first line,
      a script without `#!` is refused as unsupported with no output, and
      otherwise the child started as Launch says runs. */
  function RunFile(contents: string, path: string, ambient: seq<string>,
                   env: seq<(string, string)>, w: ScriptWorld): (r: Ran)
    ensures w.headErr.Some? ==> r == Ran("", Some(HeadFailed(w.headErr.value)))
    ensures w.headErr.None? ==> (r.err == Some(Unsupported) <==> !HasPrefix(contents, Shebang))
    ensures w.headErr.None? && HasPrefix(contents, Shebang) ==>
      r.output == w.child.output && (r.err.None? <==> w.child.exitErr.None?)
  {
    FirstLineShebang(contents);
    if w.headErr.Some? then Ran("", Some(HeadFailed(w.headErr.value)))
    else if !HasPrefix(FirstLine(contents), Shebang) then Ran("", Some(Unsupported))
    else Ran(w.child.output, if w.child.exitErr.Some? then Some(ExitFailed(w.child.exitErr.value)) else None)
  }

  /** RunFile refuses exactly the files Launch refuses, for the same reason,
      and runs a child for every file Launch finds an invocation for. */
  lemma RunFileFollowsLaunch(contents: string, path: string, ambient: seq<string>,
                             env: seq<(string, string)>, w: ScriptWorld)
    ensures var head := if w.headErr.Some? then Failure(w.headErr.value) else Success(FirstLine(contents));
      && (Launch(head, path, ambient, env).Failure? ==>
            RunFile(contents, path, ambient, env, w) == Ran("", Some(Launch(head, path, ambient, env).error)))
      && (Launch(head, path, ambient, env).Success? ==>
            RunFile(contents, path, ambient, env, w).output == w.child.output)
  {
  }

  /** The outside world's part in one ParseValue call: whether writing the
      script fails, and the RunScript that follows. */
  datatype ValueWorld = ValueWorld(writeErr: Option<string>, script: ScriptWorld)

  /** ParseValue's result, and the path the script was written to, if any. */
  datatype Parsed = Parsed(value: string, err: Option<ScriptError>, scriptPath: Option<string>)

  /** The temporary name ParseValue picks when the caller names no file. */
  function TempScriptPath(tempDir: string, id: string): string {
    JoinPath(tempDir, "oops_" + id)
  }

  /** ParseValue: a value that does not start with `#!` is returned as it is;
      otherwise it is written as an executable script (to `file` when given,
      else to a fresh temporary name from `id`), run, and its output is the
      value. A failed write returns the original contents with the error. */
  function ParseValue(contents: string, file: Option<string>, tempDir: string, id: string,
                      ambient: seq<string>, env: seq<(string, string)>, w: ValueWorld): (r: Parsed)
    ensures !HasPrefix(contents, Shebang) ==> r == Parsed(contents, None, None)
    ensures HasPrefix(contents, Shebang) ==>
      r.scriptPath == Some(if file.Some? then file.value else TempScriptPath(tempDir, id))
    ensures HasPrefix(contents, Shebang) && w.writeErr.Some? ==>
      r.value == contents && r.err == Some(WriteFailed(w.writeErr.value))
    ensures HasPrefix(contents, Shebang) && w.writeErr.None? && w.script.headErr.Some? ==>
      r.value == "" && r.err == Some(HeadFailed(w.script.headErr.value))
    ensures HasPrefix(contents, Shebang) && w.writeErr.None? && w.script.headErr.None? ==>
      r.value == w.script.child.output && (r.err.None? <==> w.script.child.exitErr.None?)
    ensures r.err != Some(Unsupported)
  {
    if !HasPrefix(contents, Shebang) then Parsed(contents, None, None)
    else
      var path := if file.Some? then file.value else TempScriptPath(tempDir, id);
      if w.writeErr.Some? then Parsed(contents, Some(WriteFailed(w.writeErr.value)), Some(path))
      else
        var ran := RunFile(contents, path, ambient, env, w.script);
        Parsed(ran.output, ran.err, Some(path))
  }
}
