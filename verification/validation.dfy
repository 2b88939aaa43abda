/**
 * Flag checks shared by the commands: the required I/O flags in their fixed
 * order, the `--` separator, and the `--timeout` duration.
 * time.ParseDuration is an input (nanoseconds, or None for a syntax error).
 */
module Validation {
  import opened Base

  /** The I/O flags; `expected` is only used by the diff command. */
  datatype IOFlags = IOFlags(input: string, output: string, stderr: string, expected: string)

  datatype FlagError =
    | MissingFlag(name: string)
    | NoCommand
    | NoSeparator
    | InvalidTimeout(text: string)
    | NonPositiveTimeout

  /** ValidateIOFlags: input, output, stderr, then (when required) expected; the first empty one is reported. */
  function ValidateIOFlags(flags: IOFlags, requireExpected: bool): (r: Option<FlagError>)
    ensures r.None? <==> flags.input != "" && flags.output != "" && flags.stderr != ""
                         && (requireExpected ==> flags.expected != "")
    ensures r.Some? ==> r.value.MissingFlag?
    ensures r == Some(MissingFlag("output")) ==> flags.input != ""
    ensures r == Some(MissingFlag("stderr")) ==> flags.input != "" && flags.output != ""
    ensures r == Some(MissingFlag("expected")) ==> requireExpected && flags.input != "" && flags.output != "" && flags.stderr != ""
  {
    if flags.input == "" then Some(MissingFlag("input"))
    else if flags.output == "" then Some(MissingFlag("output"))
    else if flags.stderr == "" then Some(MissingFlag("stderr"))
    else if requireExpected && flags.expected == "" then Some(MissingFlag("expected"))
    else None
  }

  /**
   * The reported flag is empty and every flag checked before it is set; a
   * set of flags the diff command accepts is accepted by the run command.
   */
  lemma ValidateIOFlagsFirstMissing(flags: IOFlags, requireExpected: bool)
    ensures var r := ValidateIOFlags(flags, requireExpected);
            && (r == Some(MissingFlag("input")) <==> flags.input == "")
            && (r == Some(MissingFlag("output")) <==> flags.input != "" && flags.output == "")
            && (r == Some(MissingFlag("stderr")) <==> flags.input != "" && flags.output != "" && flags.stderr == "")
    ensures ValidateIOFlags(flags, true).None? ==> ValidateIOFlags(flags, false).None?
  {
  }

  /** ValidateCommandSeparator: no command is reported before a missing `--` (dash index −1). */
  function ValidateCommandSeparator(argCount: nat, dashIndex: int): (r: Option<FlagError>)
    ensures argCount == 0 <==> r == Some(NoCommand)
    ensures r == Some(NoSeparator) <==> argCount > 0 && dashIndex == -1
    ensures r.None? <==> argCount > 0 && dashIndex != -1
  {
    if argCount == 0 then Some(NoCommand)
    else if dashIndex == -1 then Some(NoSeparator)
    else None
  }

  /** ParseTimeout / SetupTimeoutPreRun: "" means no timeout; otherwise a valid, strictly positive duration. */
  function ParseTimeout(text: string, parseDuration: string -> Option<int>): (r: Result<int, FlagError>)
    ensures text == "" ==> r == Ok(0)
    ensures text != "" && r.Ok? ==> r.value > 0 && parseDuration(text) == Some(r.value)
    ensures r.Err? <==> text != "" && (parseDuration(text).None? || parseDuration(text).value <= 0)
    ensures text != "" && parseDuration(text).None? ==> r == Err(InvalidTimeout(text))
  {
    if text == "" then Ok(0)
    else match parseDuration(text)
      case None => Err(InvalidTimeout(text))
      case Some(d) => if d <= 0 then Err(NonPositiveTimeout) else Ok(d)
  }

  /**
   * Whatever ParseDuration returns, an accepted timeout is never negative and
   * is zero only when no timeout was given: "0s" and "-5s" are refused.
   */
  lemma TimeoutSign(text: string, parseDuration: string -> Option<int>)
    ensures ParseTimeout(text, parseDuration).Ok? ==> ParseTimeout(text, parseDuration).value >= 0
    ensures ParseTimeout(text, parseDuration) == Ok(0) <==> text == ""
    ensures text != "" && parseDuration(text) == Some(0) ==> ParseTimeout(text, parseDuration) == Err(NonPositiveTimeout)
  {
  }

  /**
   * The run command's pre-run hook assigns the timeout only when the flag is
   * given, so an empty flag leaves the earlier value (zero at start-up) in place.
   */
  function RunPreRunTimeout(text: string, current: int, parseDuration: string -> Option<int>): (r: Result<int, FlagError>)
    ensures text == "" ==> r == Ok(current)
    ensures text != "" ==> r == ParseTimeout(text, parseDuration)
  {
    if text == "" then Ok(current)
    else match parseDuration(text)
      case None => Err(InvalidTimeout(text))
      case Some(d) => if d <= 0 then Err(NonPositiveTimeout) else Ok(d)
  }
}
