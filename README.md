# oops: the scenario executor, the SQS dispatcher and the run tracker in Dafny

oops runs declarative HTTP test scenarios (YAML files). A `start` message fans a
batch of scenario files out over SNS/SQS, one `process` message per file with a
shared batch id. Each worker runs its file through the executor. The executor
applies the tag filter, runs the prepare script, the HTTP steps and the check
script, collects every failure in an ordered error list, and reports success,
failure or cancellation to Slack and pub/sub. A run started for a pull request
or a branch registers a cancel function under a key, so it can be cancelled
from outside. A Redis counter per run id tracks how many files of a batch are
still to finish.

The model is split into one Dafny module per concern:

- `Text` (text.dfy) holds the parts of Go's `strings` and `path/filepath` used by the core: `Split`, `Join`, `HasPrefix`, `Base`, `Join`ed paths, the first line as `head -n 1` prints it, and `Itoa`.
- `Script` (script.dfy) models `RunScript` and `ParseValue`: the `#!` sniffing, the interpreter choice, the argument vector, the child environment, and the script-or-literal rule.
- `TagFilter` (tagfilter.dfy) models `isAllowed` as a counting loop, proved against the predicate "every requirement is met".
- `Metadata` (metadata.dfy) models the run metadata as a map from keys to string, object or other values.
- `Cancellation` (cancellation.dfy) models the `pr_…`/`branch_…` key derivation and the registry of running tests as a class over a map.
- `Report` (report.dfy) models the outcome choice, the Slack colour and title, the pub/sub attribute map (built in place by loops) and the run id.
- `Executor` (executor.dfy) models `doScenario`. Each loop is a method proved equal to a specification function over prefixes. The loops are over files, steps, headers and query, file and form values. The lemmas state the cancellation, append-only and reporting properties.
- `Coordinator` (coordinator.dfy) models `combineFilesAndDir` and `processSQS`.
- `Tracker` (tracker.dfy) models the Redis tracker as a class over a value map and a TTL map. Pure transition functions describe the same store for multi-call lemmas.

Everything the code does not decide itself is an input:

- the outcome of writing a script, of `head`, and of the child process (`ScriptWorld`, `ValueWorld`);
- `url.Parse`;
- the HTTP exchange: transport failure or status, and the schema verdict (`StepWorld`);
- whether a scenario file can be read and decoded (`FileWorld`);
- the moment the run is cancelled, as the index of the first look at the context that finds it done (`cancelAt`);
- the directory walk and `filepath.Abs`;
- the batch id, the publish outcomes and the Redis replies.

Where a world sequence is shorter than what it describes, a missing value or script entry succeeds quietly, a missing step entry is a response with status 200 and no schema or script failure (so a step asserting another status records a status mismatch), and a missing file entry is a file that cannot be read, so that file is skipped. No precondition is placed on the shape of the inputs.

In several places the code does something other than what a reader would expect of such a tool. The model keeps the code's behaviour in each case:

- A decrement past zero returns -1, the same value as a missing counter. A caller cannot tell the two apart. `Tracker.OverDecrementLooksAbsent` states what the code does.
- A `process` message runs its file with no metadata, no report targets and no application context. So a fanned-out run has no run id and sends no reports. `Coordinator.ProcessReportsNothing` states the consequence.
- Cancellation seen before a file or right after loading it ends the whole call without reporting that file or any later one. No file that has not started reports "cancelled"; only the call's error says so. A scenario cancelled during its steps or just after them does report "cancelled" (`Executor.CancelledMidRunReportsCancelled`).
- Discovery is a walk of one directory keeping `.yaml` files. There are no subdirectory patterns, no dropping of missing explicit files and no affected-service filter.
- `Decr` is EXISTS, then DECR, then EXPIRE: three commands, not one atomic operation.

## Model

| member | source | states |
|---|---|---|
| Text.Split | scenario.go:180 | the parts joined with the separator give the string back, there is at least one part, and no part contains the separator (`strings.Split`) |
| Text.FirstLine | scenario.go:71-74 | what `head -n 1` prints is a prefix of the file |
| Script.HeadTokenKeepsShebang | scenario.go:83-88 | the first space-separated word of a `#!` line still starts with `#!`, so splitting it on `#!` has a second part |
| Script.Runner | scenario.go:87-89 | the interpreter name neither starts nor ends with a newline |
| Script.ChildEnvOf | scenario.go:100-106 | the child environment is the ambient one, unchanged, followed by exactly one `k=v` entry per scenario variable, in the order the variables are visited |
| Script.Launch | scenario.go:77-98 | a `head` failure is returned as it is; a first line without `#!` is "unsupported"; otherwise a python-family interpreter gets `[runner, file]` and any other `[runner, -c, file]`, with the child environment |
| Script.ChildEnv | scenario.go:100-106 | the loop appending to `os.Environ()` builds exactly ChildEnvOf |
| Script.RunScript | scenario.go:77-109 | RunScript's decisions up to starting the child are exactly Launch's |
| Script.FirstWordOfHead | scenario.go:87 | the first word of `#!<word>` followed by nothing or a space is `#!<word>` |
| Script.TrimmedBaseOfPath | scenario.go:89 | the trimmed base name of `<dir>/<name>` with or without a newline is `<name>` |
| Script.RunnerOfWord | scenario.go:87-89 | the interpreter of `#!<word><rest>` is the trimmed base name of `<word>` |
| Script.RunnerOfInterpreterPath | scenario.go:87-89 | the interpreter of `#!<dir>/<name>`, with a newline or with arguments after a space, is `<name>` |
| Script.ShellScriptLaunch | scenario.go:91-98 | `#!<dir>/sh` runs as `sh -c file` |
| Script.PythonScriptLaunch | scenario.go:91-94 | `#!<dir>/python3` runs as `python3 file` |
| Script.EnvShebangLaunch | scenario.go:87 | `#!<dir>/env python3` runs `env -c file`: the `env` form is not supported |
| Script.FirstLineShebang | scenario.go:71-85 | the first line shows `#!` exactly when the file starts with it |
| Script.RunFile | scenario.go:77-109 | a `head` failure gives no output and that error; a file without `#!` gives "unsupported" and no output; otherwise the output is the child's, and there is an error exactly when the child failed |
| Script.RunFileFollowsLaunch | scenario.go:77-109 | RunFile refuses exactly what Launch refuses, with Launch's error and no output, and otherwise returns the child's output |
| Script.ParseValue | scenario.go:114-132 | a value without `#!` comes back unchanged with no error; a script is written to the given path, else to a fresh temporary name; a failed write returns the original contents and the error; a failed `head` returns no value and that error; a clean run returns the script's output |
| TagFilter.SatisfiedCount | scenario.go:180-192 | the number of matched requirements never exceeds the number of requirements |
| TagFilter.SatisfiedCountAll | scenario.go:180-194 | the count of matched requirements reaches their number exactly when every requirement is met |
| TagFilter.IsAllowed | scenario.go:175-195 | a scenario is allowed exactly when every requirement splits on "=" into a key and a value that its tags map the key to; with no requirements, always |
| TagFilter.MalformedRequirementRejectsAll | scenario.go:181-184 | a requirement without exactly one "=" (such as "a" or "a=b=c") rejects every scenario |
| TagFilter.PairRequirement | scenario.go:181-190 | a requirement `k=v` is met exactly when the tags map k to v |
| TagFilter.Select | scenario.go:244-247 | the kept scenarios are exactly the allowed ones, and no more than there were |
| TagFilter.SelectIdempotent | scenario.go:244-247 | filtering twice gives the same scenarios as filtering once |
| Metadata.StrField | scenario.go:203 | the `.(string)` assertion succeeds exactly when the key holds a string, and yields that string |
| Metadata.NonEmptyStr | scenario.go:203-206 | a non-empty string under the key, if any |
| Cancellation.ParseKeyFor | scenario.go:203-207 | a key names its pull request or branch unambiguously: reading it back gives the owner |
| Cancellation.OwnerOf | scenario.go:203-207 | a non-empty `pr_number` string wins over a non-empty `branch` string; with neither, nobody is named |
| Cancellation.CancelKey | scenario.go:201-208 | a key exists exactly when there is an application context and an owner, and it reads back as that owner |
| Cancellation.Registry.Register | scenario.go:209-212 | the key maps to the run's cancel function, and no other entry changes |
| Cancellation.Registry.Deregister | scenario.go:214-218 | the key is gone, and no other entry changes |
| Report.Verdict | scenario.go:401-406 | the outcome is cancelled if cancellation was seen, else error exactly when there are errors, else success |
| Report.SlackFor | scenario.go:408-463 | the Slack title starts with the file's base name and " - " |
| Report.SlackShowsStatus | scenario.go:408-463 | the colour (good, danger, warning) names the outcome, and the title ends with its word (success, failure, cancelled) |
| Report.AttributesSources | scenario.go:487-515 | an attribute exists exactly when it comes from the analysis object, a non-empty string entry other than `test_analysis`, or a set `snssqs`/`pubsub`; analysis fields override string entries, which override the deployment values |
| Report.AnalysisKeyNotCopied | scenario.go:502-505 | the `test_analysis` object itself never becomes an attribute |
| Report.CopyStrings | scenario.go:502-509 | the loop over the metadata adds exactly its non-empty string entries other than `test_analysis` |
| Report.CopyFields | scenario.go:511-515 | the loop over the analysis object adds all of its fields, overriding |
| Report.BuildAttributes | scenario.go:487-515 | the map built in place is the attribute map of AttributesSources |
| Report.RunId | scenario.go:495-501 | the run id is metadata `id` when it is a string, otherwise empty |
| Tracker.RedisKey | redis.go:75-77 | the key is `oops:run:` + run id + `:remaining` |
| Tracker.RedisKeyRoundTrip | redis.go:75-77 | the run id can be read back from its key |
| Tracker.RedisKeyInjective | redis.go:75-77 | distinct run ids never share a key |
| Tracker.SetOn | redis.go:80-88 | SETEX stores the total under the key and gives it 21600 seconds to live, overwriting; a failed command changes nothing and returns its error |
| Tracker.DecrOn | redis.go:90-114 | an absent counter gives -1 and no error and is not created; a present one is decremented, its new value returned and its expiry renewed; a failed EXISTS or DECR gives -1 and the error |
| Tracker.DeleteOn | redis.go:116-122 | DEL removes the counter and its expiry |
| Tracker.ElapseOn | redis.go:79-80 | keys whose time runs out vanish; the others keep their value and have `secs` less to live |
| Tracker.OperationsKeepConsistent | redis.go:80-122 | every key keeps a positive time to live through Set, Decr and Delete |
| Tracker.Countdown | redis.go:83-114 | after Set(id, n), k decrements leave n-k, and the next returns n-k-1 |
| Tracker.OverDecrementLooksAbsent | redis.go:90-114 | after Set(id, n), n decrements return n-1 … 0, and one more returns -1 with no error, exactly what an absent counter gives |
| Tracker.DecrAfterDelete | redis.go:98-122 | after Delete(id), Decr(id) returns -1 with no error |
| Tracker.DecrAfterExpiry | redis.go:80-104 | once the counter's time runs out, Decr returns -1 with no error |
| Tracker.OtherRunsUntouched | redis.go:75-122 | Set, Decr and Delete on one run leave every other run's counter and expiry unchanged |
| Tracker.RunTracker.Set | redis.go:83-88 | the store after Set is SetOn's |
| Tracker.RunTracker.Decr | redis.go:90-114 | the store and result after Decr are DecrOn's |
| Tracker.RunTracker.Delete | redis.go:116-122 | the store after Delete is DeleteOn's |
| Executor.HeadersOf | scenario.go:304-314 | every header is either sent or recorded as an error, never both |
| Executor.HeaderErrsOfStep | scenario.go:304-314 | every error of the header loop is a header error of that step |
| Executor.HeaderPositions | scenario.go:304-314 | the positions of the headers whose value can (or cannot) be worked out, in increasing order, all of them and only them |
| Executor.HeadersSentAtPositions | scenario.go:304-314 | the k-th header sent is the k-th one whose value can be worked out, with that value, in the order visited |
| Executor.HeadersErrsAtPositions | scenario.go:304-314 | the k-th error is that of the k-th header whose value cannot be worked out; a failing header leaves the others alone |
| Executor.LiteralHeadersPassThrough | scenario.go:304-314 | headers with plain values go out unchanged, in the order visited, and record nothing |
| Executor.ScriptHeader | scenario.go:304-314 | a script header goes out with the script's output in place of its value, or is left out with one recorded error when the script fails |
| Executor.Substituted | scenario.go:316-340 | each query, file or form value is replaced by its ParseValue result, keys and visiting order kept, whatever the error |
| Executor.LiteralValuesKept | scenario.go:316-340 | a plain value is sent unchanged |
| Executor.ApplyHeaders | scenario.go:304-314 | the header loop computes HeadersOf |
| Executor.SubstituteAll | scenario.go:316-335 | the value loop computes Substituted |
| Executor.RequestOf | scenario.go:302-341 | the request keeps the step's method and the parsed URL's base and path, is multipart exactly when the step has files, has a body exactly when it has a payload, and sends no more headers than the step lists |
| Executor.RequestValues | scenario.go:302-341 | the request carries the headers that HeadersOf sends, every query parameter, file and form value as ParseValue left it, and the payload's ParseValue result when there is a payload |
| Executor.BuildRequest | scenario.go:302-341 | the request built step by step is the step's request, with the header errors |
| Executor.AssertErrs | scenario.go:350-372 | at most two errors, one from the response and one from the assert script; AssertErrsCases and AssertScriptErrs say which |
| Executor.AssertErrsCases | scenario.go:350-372 | every error belongs to the step; a transport failure hides the status and schema checks; a wrong status is reported first and hides the schema check; a schema failure is reported only when the status matched and a schema is set |
| Executor.AssertScriptErrs | scenario.go:350-372 | at most one status or schema error, followed by at most one assert-script error; a failing assert script is recorded last, with its error and output, whatever the response was; an absent or succeeding script records nothing |
| Executor.Exchange | scenario.go:302-372 | the request built from the step and its headers is always sent |
| Executor.ExchangeErrs | scenario.go:302-372 | the header errors come first, then a transport failure, then exactly the assert errors (AssertErrs); a transport failure rules out status and schema errors; with no asserts, a successful exchange adds only the header errors |
| Executor.StepSpec | scenario.go:284-372 | a step that sends nothing records exactly one error; StepCases gives each case |
| Executor.StepCases | scenario.go:284-372 | a URL whose ParseValue fails gives exactly one UrlValueFailed and sends nothing; a URL that url.Parse rejects gives exactly one UrlParseFailed and sends nothing; otherwise the step is Exchange: its request is sent and its errors are the header, transport and assert errors ExchangeErrs orders; every error belongs to the step |
| Executor.Send | scenario.go:302-372 | building, sending and checking the request computes Exchange, whose errors ExchangeErrs describes |
| Executor.RunStep | scenario.go:284-372 | the step body computes StepSpec, whose cases StepCases states |
| Executor.BadUrlSkipsOnlyThatStep | scenario.go:275-300 | in a loop nobody cancels, a step whose URL cannot be worked out records one URL error of that step, sends nothing, and the loop goes on |
| Executor.TestContext.Poll | scenario.go:226-231 | each look at the context counts once and reports whether it is done at that look |
| Executor.Steps | scenario.go:275-373 | the step loop only appends: errors and requests recorded so far stay in place |
| Executor.StepTurn | scenario.go:276-283 | a stopped loop stays stopped and unchanged; each turn only appends |
| Executor.LiveStepTurn | scenario.go:275-373 | a live turn appends exactly the step's own errors and records its request, if any, takes one look and goes on |
| Executor.StoppedSawCancel | scenario.go:276-283 | a step loop that stopped did so because its last look found the context done |
| Executor.StepsAppendOnly | scenario.go:275-373 | running more steps keeps every earlier error and request in the same place |
| Executor.StepsStopped | scenario.go:276-283 | once cancellation stops the loop, later steps change nothing |
| Executor.CancelBeforeStep | scenario.go:276-283 | cancellation seen before step i appends "cancelled during run step i" and skips step i and every later step |
| Executor.StepsUncancelled | scenario.go:275-373 | a loop nobody cancels runs every step, looking at the context once before each |
| Executor.RunSteps | scenario.go:275-373 | the step loop with its context computes Steps |
| Executor.StepsAddStepErrors | scenario.go:275-373 | every error the step loop adds belongs to a step |
| Executor.StepsAfterErrors | scenario.go:259-275 | the errors recorded before the loop (the prepare script's) stay in front and do not change what the loop does |
| Executor.PrepareErrs | scenario.go:260-273 | at most one error, present exactly when a prepare script is set and fails |
| Executor.CheckErrs | scenario.go:382-395 | at most one error, a check failure, present exactly when a check script is set and fails |
| Executor.Phases | scenario.go:260-395 | the look count never goes back; PhasesOrder, CancelledSkipsCheck and UncancelledPhases state the order of the errors and the effect of cancellation |
| Executor.PhasesOrder | scenario.go:260-395 | the error list is the prepare errors, then the step errors, then nothing if cancellation stopped the steps, "cancelled before check step" if it was seen just after them, otherwise the check's errors; a failed prepare script does not stop the steps |
| Executor.CancelledSkipsCheck | scenario.go:374-395 | once cancellation has been seen, during the steps or just after them, no check failure is recorded |
| Executor.UncancelledPhases | scenario.go:260-395 | without cancellation, prepare, every step and the check all run, whatever fails, and their errors are recorded in that order |
| Executor.Reports | scenario.go:397-536 | a Slack note exists exactly when Slack is configured and a pub/sub report exactly when publishing is on; the errors and requests are passed on unchanged |
| Executor.CancelledMidRunReportsCancelled | scenario.go:374-483 | a scenario whose cancellation is seen during its steps or just after them reports "cancelled" to Slack and pub/sub, with the cancellation note, however many requests it sent |
| Executor.CancelledScenario | scenario.go:274-483 | a scenario that finds its context already cancelled sends nothing, ends its errors with the cancellation at step 0 (or before the check), and reports cancelled everywhere |
| Executor.UncancelledScenario | scenario.go:401-483 | without cancellation both reports say failure exactly when the error list is not empty, and a failed report carries the error list |
| Executor.ReportsAgree | scenario.go:401-483 | the pub/sub report says what Slack said unless cancellation came in between; a failed report carries a non-empty error list, a successful one comes with none |
| Executor.RunPhases | scenario.go:260-395 | prepare, the step loop and the check computed in place are Phases, whose order PhasesOrder states |
| Executor.NotFoundStep | scenario.go:284-352 | a GET asserting 200 that gets 404 records exactly one status mismatch and sends the request |
| Executor.OneStep | scenario.go:275-283 | an uncancelled loop of one step runs that step |
| Executor.NotFoundScenario | scenario.go:275-483 | a one-step GET scenario asserting 200 against a 404 records exactly one error, sends one request and reports failure |
| Executor.ScenarioRun | scenario.go:260-536 | the outcome is the file's, and the context is looked at at least once more; CancelledScenario, UncancelledScenario and ReportsAgree state its reports |
| Executor.RunScenario | scenario.go:260-536 | an allowed scenario runs its phases and its reports, as ScenarioRun says |
| Executor.ReportResults | scenario.go:397-536 | the reports computed in place are Reports' |
| Executor.Files | scenario.go:224-258 | at most one outcome per file; FilesRunAllAllowed, FilesAborted and OutcomesAreAllowed state which |
| Executor.FileStep | scenario.go:224-258 | an aborted loop stays as it is; a turn adds at most one outcome, and only for a file that loaded and passed the tag filter |
| Executor.FileTurnSkips | scenario.go:224-247 | cancellation seen before the file aborts the loop and adds nothing; an unreadable, undecodable or disallowed file adds nothing and the loop goes on |
| Executor.FileTurnRuns | scenario.go:249-258 | an allowed file not cancelled before it runs adds exactly its scenario's outcome, and the loop goes on |
| Executor.UncancelledFileTurn | scenario.go:224-258 | without cancellation one turn appends the file's name to the outcomes exactly when the file can be read, decoded and is allowed, and the loop goes on |
| Executor.FilesRunAllAllowed | scenario.go:224-258 | without cancellation the outcomes name exactly the files that can be read, decoded and are allowed, in list order, one outcome each |
| Executor.FilesAborted | scenario.go:226-257 | once cancellation ends the file loop, later files change nothing |
| Executor.FilesUncancelled | scenario.go:224-231 | only cancellation ends the file loop early |
| Executor.OutcomesAreAllowed | scenario.go:233-247 | every outcome comes from a listed file that could be read and decoded and that the tag filter allowed |
| Executor.VisitFile | scenario.go:224-258 | one turn of the file loop computes FileStep |
| Executor.RunFiles | scenario.go:224-538 | the file loop computes Files |
| Executor.DoScenario | scenario.go:197-540 | the registry loses the run's key, if it had one, and is otherwise unchanged; the outcomes are those of Files; the call returns "test cancelled" exactly when cancellation ended it |
| Executor.UnregisteredRunCompletes | scenario.go:197-231 | a run that registers no key is never cancelled and goes through every file |
| Coordinator.CombineFilesAndDir | main.go:68-95 | no path twice; every named file's absolute path is included whatever its suffix; walked paths only when they end in ".yaml"; nothing else |
| Coordinator.ExplicitPaths | main.go:70-73 | the named files' absolute paths |
| Coordinator.AddWalked | main.go:75-87 | the walked `.yaml` paths are added |
| Coordinator.ListSet | main.go:89-92 | the set is listed with each path exactly once |
| Coordinator.ProcessCmds | main.go:131-138 | one `process` message per file, in order, each carrying the batch id and its file |
| Coordinator.ProcessCmdsDistinct | main.go:130-138 | distinct files give distinct messages |
| Coordinator.Delivered | main.go:131-151 | only attempted messages are delivered, no more than were attempted |
| Coordinator.DeliveredExactly | main.go:147-151 | a message is delivered exactly when its own publish went through, whatever happened to the others |
| Coordinator.FanOut | main.go:130-152 | the publishing loop attempts ProcessCmds and delivers those whose publish succeeded |
| Coordinator.Start | main.go:116-152 | a `start` message attempts one `process` message per combined file, no file twice, all with the one new id, and continues past failed publishes |
| Coordinator.Process | main.go:153-158 | a `process` message runs the executor on exactly its one file, with no context, so it is never cancelled and publishes nothing |
| Coordinator.ProcessSQS | main.go:103-162 | a payload that does not decode returns its error and does nothing; `start` fans out; `process` runs one file; any other code does nothing; no error otherwise |
| Coordinator.ProcessReportsNothing | main.go:153-158 | a `process` message produces at most one outcome, for its file, with no Slack note and no pub/sub report |

## Left out

- The HTTP exchange is an input: the httpexpect client, the request it builds and sends, the response status, and the JSON schema check. The model assumes the client's chain stops checking once a check fails: a transport failure hides the status check, and a wrong status hides the schema check. The assert script always runs.
- `ResponseOut` is left out: writing the response body to a file (scenario.go:343-348) has no effect on the outcome.
- The file system and processes are inputs: `os.ReadFile`, YAML decoding, `WriteScript`, `head`, `exec.Command` and the child's output. An error from `WriteScript` for the prepare, check and assert scripts is ignored by the code. The model lets `head` report the failure instead.
- `os.TempDir`, `uuid`, `uniuri`, `time.Now` and the batch id are parameters.
- `filepath.Join` cleaning of `..` and repeated separators is not modelled; JoinPath only inserts one separator.
- `filepath.Walk` and `filepath.Abs` are inputs: the list of paths the walk visits and the function from a path to its absolute form. A walk error ends the walk, so the visited list simply ends there.
- The JSON decoding of the SQS message is an input (`Result<Cmd, string>`).
- SNS session setup, the subscriber loop, signal handling and the CLI (main.go:117-128, 164-244) are left out.
- pubsub.go is left out, and so is the `Publish` call of the pub/sub report. The report is the model's result.
- slack.go and `Notify` are left out. The attachment text, the footer and the timestamp are not modelled; only the colour and title are.
- The `%v` rendering of the error list and of analysis values is not modelled. The report's data carries the error list itself, and analysis values are kept in their printed form.
- Go visits the `env`, `headers`, `queryParams`, `files` and `forms` maps in a random order. The model takes each as a sequence of pairs, so one run's visiting order is an input. Wherever a row says "in the order visited", that is the input's order; the source itself promises none.
- Tracker.DecrOn: the counter is unbounded, while Redis counters and Go's `int` are 64-bit. A DECR below the smallest 64-bit value is a Redis error, which the model never produces.
- Mutexes (`appctx.mtx`, `testsMtx`) and concurrency are left out; the model is sequential. The EXISTS-then-DECR race between pods is not modelled.
- Logging and the `verbose` flag are left out.
- The Redis connection pool, environment parsing and the startup PING (redis.go:26-73) are left out. A failed Redis command is assumed to leave the server unchanged.
- `appctx` in main.go:97-100 lacks the registry and publisher fields that doScenario uses. The model gives doScenario an `App` class holding the registry and whether a publisher exists.
- Cancelling a registered run from outside is not part of the shown code. Its effect is the `cancelAt` input.
- Text.FirstLine: states only that the line is a prefix of the file, because what matters to RunScript is stated by Script.FirstLineShebang.
