/**
 * The command runner: the audit command string, the order in which the
 * redirection files are set up, and how the run's error becomes a status
 * and an exit code. Opening and creating files, spawning the process and
 * the clock are inputs: a file-system oracle and an abstract run outcome.
 */
module Runner {
  import opened Base
  import opened Strings

  datatype Status = Success | Failed | Timeout {
    /** The status as it appears in the JSON result. */
    function Text(): string {
      match this
      case Success => "success"
      case Failed => "failed"
      case Timeout => "timeout"
    }
  }

  /**
   * What to run. `timeout` is in nanoseconds, 0 or less meaning none;
   * `dryRun` is set by the diff command although Execute never reads it.
   */
  datatype Config = Config(
    command: string,
    args: seq<string>,
    inputFile: string,
    outputFile: string,
    stderrFile: string,
    verbose: bool,
    timeout: int,
    dryRun: bool)

  /** `executionTime` is in milliseconds. */
  datatype RunResult = RunResult(command: string, status: Status, exitCode: int, executionTime: int)

  /** The file-system facts the setup depends on; `dir` is filepath.Dir. */
  datatype FileSystem = FileSystem(
    canOpen: string -> bool,
    canMkdirAll: string -> bool,
    canCreate: string -> bool,
    dir: string -> string)

  datatype CreateError = DirFailed(dir: string) | FileFailed(path: string)

  datatype ExecError =
    | InputOpenFailed(path: string)
    | OutputCreateFailed(cause: CreateError)
    | StderrCreateFailed(cause: CreateError)
    | StartFailed

  /** An exit code as the wait status stores it: one byte. */
  type ExitByte = x: int | 0 <= x < 256

  /** How the process ended: it exited with a code, or a signal killed it. */
  datatype WaitStatus = Exited(code: ExitByte) | Signaled

  /** cmd.Run's error: an exit error (with its wait status, when decodable) or anything else. */
  datatype RunError = ExitError(sys: Option<WaitStatus>) | OtherError

  /**
   * What happened when the command ran: Run's error (None for nil), whether
   * the deadline context had expired when it was checked, and the elapsed
   * wall-clock time in nanoseconds.
   */
  datatype Outcome = Outcome(err: Option<RunError>, deadlineExceeded: bool, elapsed: int)

  /** The command line recorded in the result: the command, then the arguments joined by spaces. */
  function FullCommand(config: Config): (s: string)
    ensures s == Join([config.command] + config.args, " ")
  {
    if |config.args| > 0 then
      assert ([config.command] + config.args)[1..] == config.args;
      config.command + " " + Join(config.args, " ")
    else config.command
  }

  /** The command string starts with the command and is exactly it when there are no arguments. */
  lemma FullCommandShape(config: Config)
    ensures |config.args| == 0 ==> FullCommand(config) == config.command
    ensures HasPrefix(FullCommand(config), config.command)
  {
    var s := FullCommand(config);
    if |config.args| > 0 {
      assert s == config.command + (" " + Join(config.args, " "));
      assert s[..|config.command|] == config.command;
    }
  }

  /** createFileWithDir: the parent directories first, then the file. */
  function CreateFileWithDir(path: string, fs: FileSystem): (e: Option<CreateError>)
    ensures e.None? <==> fs.canMkdirAll(fs.dir(path)) && fs.canCreate(path)
    ensures e.Some? && e.value.FileFailed? ==> fs.canMkdirAll(fs.dir(path)) && e.value.path == path
    ensures e.Some? && e.value.DirFailed? ==> e.value.dir == fs.dir(path)
  {
    if !fs.canMkdirAll(fs.dir(path)) then Some(DirFailed(fs.dir(path)))
    else if !fs.canCreate(path) then Some(FileFailed(path))
    else None
  }

  /** Duration.Milliseconds: nanoseconds to whole milliseconds, truncated toward zero. */
  function Milliseconds(ns: int): (ms: int)
    ensures ns >= 0 ==> ms >= 0 && ms * 1_000_000 <= ns < (ms + 1) * 1_000_000
    ensures ns < 0 ==> ms <= 0 && (ms - 1) * 1_000_000 < ns <= ms * 1_000_000
  {
    if ns >= 0 then ns / 1_000_000 else -((-ns) / 1_000_000)
  }

  /** WaitStatus.ExitStatus: the exit code, or −1 when the process did not exit normally. */
  function ExitStatus(ws: WaitStatus): (code: int)
    ensures -1 <= code < 256
    ensures code == -1 <==> ws.Signaled?
  {
    match ws
    case Exited(c) => c
    case Signaled => -1
  }

  /**
   * Turns the run's error into a status and exit code. A deadline only
   * exists when a positive timeout was set; its expiry is checked before the
   * error's type, because the kill that enforces it also shows up as an exit error.
   */
  function Classify(command: string, hasDeadline: bool, run: Outcome): (r: Result<RunResult, ExecError>)
    ensures r.Ok? ==> r.value.command == command && r.value.executionTime == Milliseconds(run.elapsed)
    ensures r.Ok? && r.value.status == Success <==> run.err.None?
    ensures r.Ok? && r.value.status == Timeout <==> run.err.Some? && hasDeadline && run.deadlineExceeded
    ensures r.Err? <==> run.err == Some(OtherError) && !(hasDeadline && run.deadlineExceeded)
    ensures r.Err? ==> r.error == StartFailed
    ensures r.Ok? ==> match r.value.status
                      case Success => r.value.exitCode == 0
                      case Timeout => r.value.exitCode == -1
                      case Failed => run.err.Some? && run.err.value.ExitError?
                                     && r.value.exitCode == (match run.err.value.sys
                                                             case Some(ws) => ExitStatus(ws)
                                                             case None => 1)
  {
    var ms := Milliseconds(run.elapsed);
    match run.err
    case None => Ok(RunResult(command, Success, 0, ms))
    case Some(e) =>
      if hasDeadline && run.deadlineExceeded then Ok(RunResult(command, Timeout, -1, ms))
      else match e
        case ExitError(sys) =>
          var code := match sys
            case Some(ws) => ExitStatus(ws)
            case None => 1;
          Ok(RunResult(command, Failed, code, ms))
        case OtherError => Err(StartFailed)
  }

  /**
   * Execute: open the input, create the output and stderr files (each with
   * its directories), then classify the run. The first setup failure is
   * returned and the command is not run.
   */
  function Execute(config: Config, fs: FileSystem, run: Outcome): (r: Result<RunResult, ExecError>)
    ensures !fs.canOpen(config.inputFile) ==> r == Err(InputOpenFailed(config.inputFile))
    ensures r.Err? && r.error.OutputCreateFailed? ==>
              fs.canOpen(config.inputFile) && Some(r.error.cause) == CreateFileWithDir(config.outputFile, fs)
    ensures r.Err? && r.error.StderrCreateFailed? ==>
              fs.canOpen(config.inputFile) && CreateFileWithDir(config.outputFile, fs).None?
              && Some(r.error.cause) == CreateFileWithDir(config.stderrFile, fs)
    ensures r.Ok? || r.error.StartFailed? ==>
              fs.canOpen(config.inputFile) && CreateFileWithDir(config.outputFile, fs).None?
              && CreateFileWithDir(config.stderrFile, fs).None?
    ensures r.Ok? ==> r.value.command == FullCommand(config)
    ensures fs.canOpen(config.inputFile) && CreateFileWithDir(config.outputFile, fs).None?
            && CreateFileWithDir(config.stderrFile, fs).None?
            ==> r == Classify(FullCommand(config), config.timeout > 0, run)
  {
    if !fs.canOpen(config.inputFile) then Err(InputOpenFailed(config.inputFile))
    else match CreateFileWithDir(config.outputFile, fs)
      case Some(e) => Err(OutputCreateFailed(e))
      case None =>
        match CreateFileWithDir(config.stderrFile, fs)
        case Some(e) => Err(StderrCreateFailed(e))
        case None => Classify(FullCommand(config), config.timeout > 0, run)
  }

  /** Without a positive timeout there is no deadline, so a run never times out. */
  lemma NoTimeoutWithoutDeadline(config: Config, fs: FileSystem, run: Outcome)
    requires config.timeout <= 0
    ensures Execute(config, fs, run).Ok? ==> Execute(config, fs, run).value.status != Timeout
  {
  }

  /** Once the files are set up, an exit error after an expired deadline is a timeout with exit code −1. */
  lemma DeadlineMasksExitError(config: Config, fs: FileSystem, sys: Option<WaitStatus>, elapsed: int)
    requires config.timeout > 0
    requires fs.canOpen(config.inputFile)
    requires CreateFileWithDir(config.outputFile, fs).None? && CreateFileWithDir(config.stderrFile, fs).None?
    ensures Execute(config, fs, Outcome(Some(ExitError(sys)), true, elapsed))
         == Ok(RunResult(FullCommand(config), Timeout, -1, Milliseconds(elapsed)))
  {
  }

  /** A plain non-zero exit reports that code; an undecodable wait status reports 1; a signal reports −1. */
  lemma ExitCodes(command: string, hasDeadline: bool, code: ExitByte, elapsed: int)
    ensures Classify(command, hasDeadline, Outcome(Some(ExitError(Some(Exited(code)))), false, elapsed)).value.exitCode == code
    ensures Classify(command, hasDeadline, Outcome(Some(ExitError(None)), false, elapsed)).value.exitCode == 1
    ensures Classify(command, hasDeadline, Outcome(Some(ExitError(Some(Signaled))), false, elapsed)).value.exitCode == -1
  {
  }
}
