/**
 * What the run and diff commands share: the outside world they consult
 * (environment, parsers, provider registry, temporary files, disk, the run
 * itself, upload outcomes), the flags common to both, and the errors that
 * end a command before it prints a result.
 */
module CommandWorld {
  import opened Base
  import opened Values
  import opened Foreign
  import opened ContextParser
  import opened Validation
  import opened UploadManager
  import opened UploadSetup
  import Runner
  import JsonOutput

  /**
   * Everything a command learns from outside. `tempOutput`/`tempStderr` are
   * the names os.CreateTemp returns (None when it fails); `statOk` tells
   * whether os.Stat finds a path; `put` whether opening a local file and
   * uploading it to a remote path succeed. The three orders are the
   * iteration orders of the maps ranged over: additional files when
   * checking they exist, additional files when looking for conflicts, and
   * all files when uploading.
   */
  datatype World = World(
    env: seq<string>,
    fs: Parsers,
    registry: Registry,
    configure: (Provider, map<string, Value>) -> Option<Provider>,
    tempOutput: Option<string>,
    tempStderr: Option<string>,
    disk: Runner.FileSystem,
    run: Runner.Outcome,
    statOk: string -> bool,
    statOrder: seq<string>,
    conflictOrder: seq<string>,
    uploadOrder: seq<string>,
    put: (string, string) -> bool)

  /** The context flags: JSON string, key=value pairs, file. */
  datatype ContextFlags = ContextFlags(json: string, kv: seq<string>, file: string)

  /** Flags both commands carry, after the pre-run hook: `timeout` parsed, in nanoseconds; `scoreSet` says --score was given. */
  datatype CommonFlags = CommonFlags(verbose: bool, dryRun: bool, timeout: int, score: int, scoreSet: bool)

  datatype CommandError =
    | InvalidFlags(flag: FlagError)
    | SetupFailed(setup: SetupError)
    | BadUploadFiles(spec: FileSpecError)
    | TempOutputFailed
    | TempStderrFailed
    | ExecFailed(exec: Runner.ExecError)
    | MissingUploadFile(path: string)
    | UploadError(upload: UploadFailure)
    | ContextFailed(build: BuildError)

  /** A command that got as far as its result: the runner settings, the uploads made, and the JSON record to output. */
  datatype Completed = Completed(config: Runner.Config, uploaded: seq<(string, string)>, result: JsonOutput.JsonResult)

  const ContextPrefix: string := "GHOST_CONTEXT"

  /** The result reports what the run produced: its command line, status, exit code and time, and the context built for it. */
  predicate ReportsRun(j: JsonOutput.JsonResult, run: Runner.RunResult, ctx: Value) {
    && j.command == run.command && j.status == run.status.Text() && j.exitCode == run.exitCode
    && j.executionTime == run.executionTime && j.context == ctx
  }

  /** BuildContext: the context builder under GHOST_CONTEXT. */
  function BuildContext(env: seq<string>, ctx: ContextFlags, fs: Parsers): (r: Result<Value, BuildError>)
    ensures r.Err? <==> || (ctx.file != "" && fs.file(ctx.file).None?)
                        || (ctx.json != "" && fs.json(ctx.json).None?)
                        || (|ctx.kv| > 0 && ParseKVs(ctx.kv, fs.floatSyntax).Err?)
  {
    BuildContextWithPrefix(env, ContextPrefix, ctx.json, ctx.kv, ctx.file, fs)
  }

  /** ValidateUploadFiles: the first file, in iteration order, that os.Stat does not find. */
  function FirstMissingFile(order: seq<string>, files: map<string, string>, statOk: string -> bool): (r: Option<string>)
    ensures r.Some? ==> r.value in files && r.value in order && !statOk(r.value)
    ensures r.None? <==> forall i :: 0 <= i < |order| && order[i] in files ==> statOk(order[i])
  {
    if |order| == 0 then None
    else if order[0] in files && !statOk(order[0]) then Some(order[0])
    else FirstMissingFile(order[1..], files, statOk)
  }

  /** The timeout reported in the result, in milliseconds: 0 when there is none. */
  function TimeoutMs(timeout: int): (ms: int)
    ensures ms >= 0
    ensures ms > 0 <==> timeout >= Millisecond
    ensures timeout > 0 ==> ms == Runner.Milliseconds(timeout)
  {
    if timeout > 0 then Runner.Milliseconds(timeout) else 0
  }

  /** A timeout shorter than a millisecond is applied to the run but left out of the result. */
  lemma TimeoutReported(inputPath: string, outputPath: string, stderrPath: string, expectedPath: string,
                        run: Runner.RunResult, timeout: int, scoreSet: bool, score: int, context: Value)
    ensures var r := JsonOutput.CreateJSONResult(inputPath, outputPath, stderrPath, expectedPath, run,
                                                 TimeoutMs(timeout), scoreSet, score, context);
            && (r.timeout.Some? <==> timeout >= Millisecond)
            && (r.timeout.Some? ==> r.timeout.value * Millisecond <= timeout < (r.timeout.value + 1) * Millisecond)
  {
  }
}
