/**
 * The diff command: compare the input with the expected file using diff,
 * with the same output, upload, context and result handling as a run.
 * Output and stderr flags may be written `local:remote`; with an upload
 * provider the local part is where diff writes (a temporary file when it is
 * empty) and the remote part is where the file is uploaded.
 */
module DiffCommand {
  import opened Base
  import opened Strings
  import opened Values
  import opened Foreign
  import opened Validation
  import opened UploadSetup
  import opened Paths
  import opened CommandWorld
  import Runner
  import JsonOutput

  datatype DiffFlags = DiffFlags(
    input: string,
    expected: string,
    output: string,
    stderr: string,
    diffFlags: string,
    common: CommonFlags,
    context: ContextFlags,
    upload: UploadConfig)

  /** diff's arguments: the --diff-flags words, then the input and the expected file. */
  function DiffArgs(diffFlags: string, input: string, expected: string): (args: seq<string>)
    ensures |args| >= 2 && args[|args| - 2] == input && args[|args| - 1] == expected
    ensures args[..|args| - 2] == Fields(diffFlags)
    ensures forall i :: 0 <= i < |args| - 2 ==> |args[i]| > 0 && NoSpace(args[i])
  {
    (if diffFlags != "" then Fields(diffFlags) else []) + [input, expected]
  }

  /** The paths shown to the user: the remote parts with a provider, the flags as given without. */
  function DisplayPaths(output: string, stderr: string, hasProvider: bool): (r: (string, string))
    ensures !hasProvider ==> r == (output, stderr)
    ensures hasProvider ==> r == (ParseOutputPath(output).1, ParseOutputPath(stderr).1)
  {
    var paths := ParseOutputPaths(output, stderr);
    if hasProvider then (paths.remoteOutput, paths.remoteStderr) else (output, stderr)
  }

  /**
   * Where diff writes one stream: the local part when there is one;
   * otherwise the flag itself without a provider, or a fresh temporary file
   * with one (None when it cannot be created).
   */
  function ActualPath(flag: string, local: string, hasProvider: bool, temp: Option<string>): (r: Option<string>)
    ensures local != "" ==> r == Some(local)
    ensures local == "" && !hasProvider ==> r == Some(flag)
    ensures local == "" && hasProvider ==> r == temp
  {
    if local != "" then Some(local)
    else if hasProvider then temp
    else Some(flag)
  }

  /** The runner settings: diff with stdin from /dev/null and the common flags' timeout. */
  function DiffConfig(args: seq<string>, outputFile: string, stderrFile: string, common: CommonFlags): Runner.Config {
    Runner.Config("diff", args, "/dev/null", outputFile, stderrFile, common.verbose, common.timeout, common.dryRun)
  }

  /** The --upload-files map; nil (empty) when the flag was not used. */
  function AdditionalFiles(upload: UploadConfig): Result<map<string, string>, FileSpecError> {
    if |upload.uploadFiles| > 0 then ParseUploadFiles(upload.uploadFiles) else Ok(map[])
  }

  /**
   * The uploads after the run: with a provider, the additional files must
   * exist (unless dry-running), then the two output files go to their
   * remote parts together with the additional files.
   */
  function DiffUploads(f: DiffFlags, w: World, hasProvider: bool, additional: map<string, string>,
                       paths: OutputPaths, actualOut: string, actualErr: string)
    : (r: Result<seq<(string, string)>, CommandError>)
    ensures !hasProvider ==> r == Ok([])
    ensures r.Ok? && f.common.dryRun ==> r.value == []
    ensures r.Ok? ==> forall i :: 0 <= i < |r.value| ==>
              r.value[i] in {(actualOut, paths.remoteOutput), (actualErr, paths.remoteStderr)}
              || (r.value[i].0 in additional && additional[r.value[i].0] == r.value[i].1)
  {
    if !hasProvider then Ok([])
    else
      var missing := if |f.upload.uploadFiles| > 0 && !f.common.dryRun
                     then FirstMissingFile(w.statOrder, additional, w.statOk) else None;
      if missing.Some? then Err(MissingUploadFile(missing.value))
      else
        var files := map[actualOut := paths.remoteOutput][actualErr := paths.remoteStderr];
        var (done, failure) := HandleUploads(true, files, additional, f.common.dryRun,
                                             w.conflictOrder, w.uploadOrder, w.put);
        if failure.Some? then Err(UploadError(failure.value)) else Ok(done)
  }

  /**
   * What the diff result records besides the run's own facts: the flags as
   * given (not the write paths; `expected` whenever it is set), the score
   * rule, and the timeout only when it is at least a millisecond.
   */
  predicate RecordsFlags(j: JsonOutput.JsonResult, f: DiffFlags) {
    && j.input == f.input && j.output == f.output && j.stderr == f.stderr
    && j.expected == (if f.expected == "" then None else Some(f.expected))
    && j.score == JsonOutput.ScoreField(f.common.scoreSet, f.common.score, j.exitCode)
    && (j.timeout.Some? <==> f.common.timeout >= Millisecond)
  }

  /** The diff command's result: the flags as given, whatever paths diff wrote to. */
  function DiffResult(f: DiffFlags, run: Runner.RunResult, ctx: Value): (j: JsonOutput.JsonResult)
    ensures RecordsFlags(j, f)
    ensures ReportsRun(j, run, ctx)
  {
    JsonOutput.CreateJSONResult(f.input, f.output, f.stderr, f.expected, run,
                                TimeoutMs(f.common.timeout), f.common.scoreSet, f.common.score, ctx)
  }

  /** The last steps, after the run: uploads, context, and the result recording the flags as given. */
  function DiffFinish(f: DiffFlags, w: World, hasProvider: bool, additional: map<string, string>,
                      paths: OutputPaths, config: Runner.Config, run: Runner.RunResult)
    : (r: Result<Completed, CommandError>)
    ensures r.Ok? ==> r.value.config == config
    ensures r.Ok? ==> RecordsFlags(r.value.result, f) && r.value.result.command == run.command
    ensures r.Ok? && !hasProvider ==> r.value.uploaded == []
    ensures r.Ok? && f.common.dryRun ==> r.value.uploaded == []
    ensures r.Err? <==> DiffUploads(f, w, hasProvider, additional, paths, config.outputFile, config.stderrFile).Err?
                        || BuildContext(w.env, f.context, w.fs).Err?
    ensures r.Ok? ==> BuildContext(w.env, f.context, w.fs).Ok?
                      && ReportsRun(r.value.result, run, BuildContext(w.env, f.context, w.fs).value)
  {
    var uploads := DiffUploads(f, w, hasProvider, additional, paths, config.outputFile, config.stderrFile);
    if uploads.Err? then Err(uploads.error)
    else
      var ctx := BuildContext(w.env, f.context, w.fs);
      if ctx.Err? then Err(ContextFailed(ctx.error))
      else
        Ok(Completed(config, uploads.value, DiffResult(f, run, ctx.value)))
  }

  /** The write paths, the runner settings, and the run. */
  function DiffRun(f: DiffFlags, w: World, hasProvider: bool, additional: map<string, string>)
    : (r: Result<Completed, CommandError>)
    ensures r.Ok? ==> var c := r.value.config;
              && c == DiffConfig(DiffArgs(f.diffFlags, f.input, f.expected), c.outputFile, c.stderrFile, f.common)
              && r.value.result.command == Runner.FullCommand(c)
              && Some(c.outputFile) == ActualPath(f.output, ParseOutputPath(f.output).0, hasProvider, w.tempOutput)
              && Some(c.stderrFile) == ActualPath(f.stderr, ParseOutputPath(f.stderr).0, hasProvider, w.tempStderr)
    ensures r.Ok? ==> RecordsFlags(r.value.result, f)
    ensures r.Ok? && !hasProvider ==> r.value.uploaded == []
    ensures r.Ok? && f.common.dryRun ==> r.value.uploaded == []
    ensures r.Ok? ==> var ran := Runner.Execute(r.value.config, w.disk, w.run);
              && ran.Ok? && BuildContext(w.env, f.context, w.fs).Ok?
              && ReportsRun(r.value.result, ran.value, BuildContext(w.env, f.context, w.fs).value)
  {
    var paths := ParseOutputPaths(f.output, f.stderr);
    var out := ActualPath(f.output, paths.localOutput, hasProvider, w.tempOutput);
    if out.None? then Err(TempOutputFailed)
    else
      var err := ActualPath(f.stderr, paths.localStderr, hasProvider, w.tempStderr);
      if err.None? then Err(TempStderrFailed)
      else
        var config := DiffConfig(DiffArgs(f.diffFlags, f.input, f.expected), out.value, err.value, f.common);
        var run := Runner.Execute(config, w.disk, w.run);
        if run.Err? then Err(ExecFailed(run.error))
        else DiffFinish(f, w, hasProvider, additional, paths, config, run.value)
  }

  /**
   * diffCommand up to its output step: validation (expected required)
   * before anything else, then provider set-up, the --upload-files list,
   * the write paths, the run, the uploads, the context, and the JSON
   * result, each failure ending the command.
   */
  function Diff(f: DiffFlags, w: World): (r: Result<Completed, CommandError>)
    ensures var v := ValidateIOFlags(IOFlags(f.input, f.output, f.stderr, f.expected), true);
            v.Some? ==> r == Err(InvalidFlags(v.value))
    ensures r.Ok? ==> var c := r.value.config;
              && c.command == "diff" && c.inputFile == "/dev/null"
              && c.args == DiffArgs(f.diffFlags, f.input, f.expected)
              && c.timeout == f.common.timeout && c.dryRun == f.common.dryRun && c.verbose == f.common.verbose
              && r.value.result.command == Runner.FullCommand(c)
    ensures r.Ok? ==> RecordsFlags(r.value.result, f) && r.value.result.expected == Some(f.expected)
    ensures r.Ok? && f.upload.provider == "" ==>
              && r.value.uploaded == []
              && Some(r.value.config.outputFile) == ActualPath(f.output, ParseOutputPath(f.output).0, false, None)
              && Some(r.value.config.stderrFile) == ActualPath(f.stderr, ParseOutputPath(f.stderr).0, false, None)
    ensures r.Ok? && f.common.dryRun ==> r.value.uploaded == []
    ensures r.Ok? ==> var ran := Runner.Execute(r.value.config, w.disk, w.run);
              && ran.Ok? && BuildContext(w.env, f.context, w.fs).Ok?
              && ReportsRun(r.value.result, ran.value, BuildContext(w.env, f.context, w.fs).value)
  {
    var v := ValidateIOFlags(IOFlags(f.input, f.output, f.stderr, f.expected), true);
    if v.Some? then Err(InvalidFlags(v.value))
    else
      var setup := SetupUploadProvider(f.upload, f.common.dryRun, w.env, w.fs, w.registry, w.configure);
      if setup.Err? then Err(SetupFailed(setup.error))
      else
        var additional := AdditionalFiles(f.upload);
        if additional.Err? then Err(BadUploadFiles(additional.error))
        else DiffRun(f, w, setup.value.Some?, additional.value)
  }

  /** The command line recorded in the result is diff, the --diff-flags words, the input and the expected file. */
  lemma DiffCommandLine(diffFlags: string, input: string, expected: string, outputFile: string, stderrFile: string,
                        common: CommonFlags)
    ensures Runner.FullCommand(DiffConfig(DiffArgs(diffFlags, input, expected), outputFile, stderrFile, common))
         == Join(["diff"] + Fields(diffFlags) + [input, expected], " ")
  {
    var args := DiffArgs(diffFlags, input, expected);
    assert args == args[..|args| - 2] + [input, expected];
    assert ["diff"] + args == ["diff"] + Fields(diffFlags) + [input, expected];
  }

  /**
   * A flag written `local:remote` with a non-blank, colon-free local part:
   * diff writes to the trimmed local part, with or without a provider, and
   * with a provider the trimmed remote part is what is shown and uploaded to.
   */
  lemma {:induction false} LocalRemoteFlag(local: string, remote: string, other: string, hasProvider: bool, temp: Option<string>)
    requires ':' !in local && TrimSpace(local) != ""
    ensures var flag := local + ":" + remote;
            && ActualPath(flag, ParseOutputPath(flag).0, hasProvider, temp) == Some(TrimSpace(local))
            && (hasProvider ==> DisplayPaths(flag, other, hasProvider).0 == TrimSpace(remote))
            && ParseOutputPaths(flag, other).remoteOutput == TrimSpace(remote)
  {
    ParseOutputPathOfJoin(local, remote);
  }

  /** Without a provider a flag with no colon is written to as given; with one, a temporary file is used instead. */
  lemma PlainFlag(flag: string, hasProvider: bool, temp: Option<string>)
    requires ':' !in flag
    ensures !hasProvider ==> ActualPath(flag, ParseOutputPath(flag).0, hasProvider, temp) == Some(flag)
    ensures hasProvider ==> ActualPath(flag, ParseOutputPath(flag).0, hasProvider, temp) == temp
  {
  }
}
