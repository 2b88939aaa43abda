/**
 * The run command: execute `<command> [args...]` given after `--`, with
 * stdin, stdout and stderr redirected to the flag paths, or, with an upload
 * provider, stdout and stderr captured in temporary files that are then
 * uploaded under the flag paths as object names.
 */
module RunCommand {
  import opened Base
  import opened Strings
  import opened Values
  import opened Foreign
  import opened Validation
  import opened UploadSetup
  import opened CommandWorld
  import Runner
  import JsonOutput

  datatype RunFlags = RunFlags(
    input: string,
    output: string,
    stderr: string,
    common: CommonFlags,
    context: ContextFlags,
    upload: UploadConfig)

  /** The checks before anything runs: a command, then the `--` separator, then input, output and stderr. */
  function RunChecks(f: RunFlags, argCount: nat, dashIndex: int): (r: Option<FlagError>)
    ensures argCount == 0 ==> r == Some(NoCommand)
    ensures argCount > 0 && dashIndex == -1 ==> r == Some(NoSeparator)
    ensures r.None? <==> argCount > 0 && dashIndex != -1 && f.input != "" && f.output != "" && f.stderr != ""
    ensures r.Some? && r.value.MissingFlag? ==> argCount > 0 && dashIndex != -1
  {
    var s := ValidateCommandSeparator(argCount, dashIndex);
    if s.Some? then s else ValidateIOFlags(IOFlags(f.input, f.output, f.stderr, ""), false)
  }

  /** The runner settings: the first argument is the command, the rest its arguments; never a dry run. */
  function RunConfig(args: seq<string>, f: RunFlags, outputFile: string, stderrFile: string): (c: Runner.Config)
    requires |args| > 0
    ensures [c.command] + c.args == args
  {
    assert args == [args[0]] + args[1..];
    Runner.Config(args[0], args[1..], f.input, outputFile, stderrFile, f.common.verbose, f.common.timeout, false)
  }

  /** The recorded command line is the words after `--` joined by single spaces. */
  lemma RunCommandLine(args: seq<string>, f: RunFlags, outputFile: string, stderrFile: string)
    requires |args| > 0
    ensures Runner.FullCommand(RunConfig(args, f, outputFile, stderrFile)) == Join(args, " ")
  {
    var c := RunConfig(args, f, outputFile, stderrFile);
    assert [c.command] + c.args == args;
  }

  /**
   * With a provider, the captured stdout is uploaded under the output flag,
   * then stderr under the stderr flag; a failure to open or upload either
   * ends the command.
   */
  function RunUploads(f: RunFlags, w: World, hasProvider: bool, actualOut: string, actualErr: string)
    : (r: Result<seq<(string, string)>, CommandError>)
    ensures !hasProvider ==> r == Ok([])
    ensures hasProvider && r.Ok? ==> r.value == [(actualOut, f.output), (actualErr, f.stderr)]
    ensures hasProvider && r.Ok? <==> hasProvider && w.put(actualOut, f.output) && w.put(actualErr, f.stderr)
    ensures hasProvider && !w.put(actualOut, f.output) ==> r == Err(UploadError(UploadFailed(actualOut, f.output)))
  {
    if !hasProvider then Ok([])
    else if !w.put(actualOut, f.output) then Err(UploadError(UploadFailed(actualOut, f.output)))
    else if !w.put(actualErr, f.stderr) then Err(UploadError(UploadFailed(actualErr, f.stderr)))
    else Ok([(actualOut, f.output), (actualErr, f.stderr)])
  }

  /**
   * What the run result records besides the run's own facts: the paths the
   * command actually used (the temporary files when uploading), never an
   * expected file, the score rule, and the timeout only from a millisecond on.
   */
  predicate RecordsPaths(j: JsonOutput.JsonResult, c: Runner.Config, f: RunFlags) {
    && j.input == c.inputFile && j.output == c.outputFile && j.stderr == c.stderrFile && j.expected.None?
    && j.score == JsonOutput.ScoreField(f.common.scoreSet, f.common.score, j.exitCode)
    && (j.timeout.Some? <==> f.common.timeout >= Millisecond)
  }

  /** The run command's result, built by the older createJSONResult. */
  function RunResult(f: RunFlags, c: Runner.Config, run: Runner.RunResult, ctx: Value): (j: JsonOutput.JsonResult)
    ensures RecordsPaths(j, c, f)
    ensures ReportsRun(j, run, ctx)
  {
    JsonOutput.LegacyCreateJSONResult(c.inputFile, c.outputFile, c.stderrFile, run,
                                      TimeoutMs(f.common.timeout), f.common.scoreSet, f.common.score, ctx)
  }

  /** After the run: uploads, then the context, then the result. */
  function RunFinish(f: RunFlags, w: World, hasProvider: bool, c: Runner.Config, run: Runner.RunResult)
    : (r: Result<Completed, CommandError>)
    ensures r.Ok? ==> r.value.config == c && RecordsPaths(r.value.result, c, f) && r.value.result.command == run.command
    ensures r.Ok? && !hasProvider ==> r.value.uploaded == []
    ensures r.Ok? && hasProvider ==> r.value.uploaded == [(c.outputFile, f.output), (c.stderrFile, f.stderr)]
    ensures r.Err? <==> RunUploads(f, w, hasProvider, c.outputFile, c.stderrFile).Err? || BuildContext(w.env, f.context, w.fs).Err?
    ensures r.Ok? ==> BuildContext(w.env, f.context, w.fs).Ok?
                      && ReportsRun(r.value.result, run, BuildContext(w.env, f.context, w.fs).value)
  {
    var uploads := RunUploads(f, w, hasProvider, c.outputFile, c.stderrFile);
    if uploads.Err? then Err(uploads.error)
    else
      var ctx := BuildContext(w.env, f.context, w.fs);
      if ctx.Err? then Err(ContextFailed(ctx.error))
      else Ok(Completed(c, uploads.value, RunResult(f, c, run, ctx.value)))
  }

  /** The write paths (both temporary with a provider, the flags without), the settings, and the run. */
  function RunExec(f: RunFlags, args: seq<string>, w: World, hasProvider: bool): (r: Result<Completed, CommandError>)
    requires |args| > 0
    ensures hasProvider && w.tempOutput.None? ==> r == Err(TempOutputFailed)
    ensures r.Ok? ==> var c := r.value.config;
              && c == RunConfig(args, f, c.outputFile, c.stderrFile)
              && (hasProvider ==> Some(c.outputFile) == w.tempOutput && Some(c.stderrFile) == w.tempStderr)
              && (!hasProvider ==> c.outputFile == f.output && c.stderrFile == f.stderr)
              && RecordsPaths(r.value.result, c, f)
              && r.value.result.command == Runner.FullCommand(c)
    ensures r.Ok? && !hasProvider ==> r.value.uploaded == []
    ensures r.Ok? && hasProvider ==>
              && w.tempOutput.Some? && w.tempStderr.Some?
              && r.value.uploaded == [(w.tempOutput.value, f.output), (w.tempStderr.value, f.stderr)]
    ensures r.Ok? ==> var ran := Runner.Execute(r.value.config, w.disk, w.run);
              && ran.Ok? && BuildContext(w.env, f.context, w.fs).Ok?
              && ReportsRun(r.value.result, ran.value, BuildContext(w.env, f.context, w.fs).value)
  {
    if hasProvider && w.tempOutput.None? then Err(TempOutputFailed)
    else if hasProvider && w.tempStderr.None? then Err(TempStderrFailed)
    else
      var out := if hasProvider then w.tempOutput.value else f.output;
      var err := if hasProvider then w.tempStderr.value else f.stderr;
      var c := RunConfig(args, f, out, err);
      var run := Runner.Execute(c, w.disk, w.run);
      if run.Err? then Err(ExecFailed(run.error))
      else RunFinish(f, w, hasProvider, c, run.value)
  }

  /**
   * runCommand up to its output step. `args` are the words after the flags
   * and `dashIndex` where `--` stood (−1 when absent). Provider set-up always
   * configures the provider, with the older settings builder.
   */
  function Run(f: RunFlags, args: seq<string>, dashIndex: int, w: World): (r: Result<Completed, CommandError>)
    ensures RunChecks(f, |args|, dashIndex).Some? ==> r == Err(InvalidFlags(RunChecks(f, |args|, dashIndex).value))
    ensures r.Ok? ==> |args| > 0 && var c := r.value.config;
              && c.command == args[0] && c.args == args[1..] && c.inputFile == f.input
              && c.timeout == f.common.timeout && !c.dryRun
              && r.value.result.command == Join(args, " ")
              && RecordsPaths(r.value.result, c, f)
    ensures r.Ok? && f.upload.provider == "" ==>
              && r.value.uploaded == []
              && r.value.result.output == f.output && r.value.result.stderr == f.stderr
    ensures r.Ok? && f.upload.provider != "" ==>
              && w.tempOutput.Some? && w.tempStderr.Some?
              && r.value.result.output == w.tempOutput.value && r.value.result.stderr == w.tempStderr.value
              && r.value.uploaded == [(w.tempOutput.value, f.output), (w.tempStderr.value, f.stderr)]
    ensures r.Ok? ==> var ran := Runner.Execute(r.value.config, w.disk, w.run);
              && ran.Ok? && BuildContext(w.env, f.context, w.fs).Ok?
              && ReportsRun(r.value.result, ran.value, BuildContext(w.env, f.context, w.fs).value)
  {
    var v := RunChecks(f, |args|, dashIndex);
    if v.Some? then Err(InvalidFlags(v.value))
    else
      var setup := LegacySetupUploadProvider(f.upload, w.env, w.fs, w.registry, w.configure);
      if setup.Err? then Err(SetupFailed(setup.error))
      else
        var r := RunExec(f, args, w, setup.value.Some?);
        if r.Ok? then RunCommandLine(args, f, r.value.config.outputFile, r.value.config.stderrFile); r
        else r
  }
}
