/**
 * The JSON result a command prints, the webhook settings each command keeps,
 * and the final step that optionally sends the result to the webhook before
 * printing it. Marshalling is an input (None for a marshalling error), as
 * are the endpoint's behaviour and the jitter draws Send consumes.
 */
module JsonOutput {
  import opened Base
  import opened Values
  import opened Retry
  import Runner
  import WebhookClient
  import WebhookSetup

  /** The printed record: `expected`, `timeout` and `score` are omitted when None. */
  datatype JsonResult = JsonResult(
    command: string,
    status: string,
    input: string,
    expected: Option<string>,
    output: string,
    stderr: string,
    exitCode: int,
    executionTime: int,
    timeout: Option<int>,
    score: Option<int>,
    context: Value,
    webhookSent: bool,
    webhookError: string)

  /** The score rule: reported only when given, and only a successful run keeps it. */
  function ScoreField(scoreSet: bool, score: int, exitCode: int): (s: Option<int>)
    ensures s.Some? <==> scoreSet
    ensures s.Some? && s.value != 0 ==> exitCode == 0 && s.value == score
    ensures scoreSet && exitCode == 0 ==> s == Some(score)
    ensures scoreSet && exitCode != 0 ==> s == Some(0)
  {
    if scoreSet then Some(if exitCode == 0 then score else 0) else None
  }

  /** The record both builders produce, with `expected` already decided. */
  function ResultRecord(input: string, expected: Option<string>, output: string, stderr: string,
                        result: Runner.RunResult, timeoutMs: int, scoreSet: bool, score: int, context: Value): JsonResult
  {
    JsonResult(result.command, result.status.Text(), input, expected, output, stderr,
               result.exitCode, result.executionTime,
               if timeoutMs > 0 then Some(timeoutMs) else None,
               ScoreField(scoreSet, score, result.exitCode), context, false, "")
  }

  /** CreateJSONResult: the run's facts copied, `expected` only for a non-empty path, the timeout only when positive. */
  function CreateJSONResult(inputPath: string, outputPath: string, stderrPath: string, expectedPath: string,
                            result: Runner.RunResult, timeoutMs: int, scoreSet: bool, score: int, context: Value)
    : (r: JsonResult)
    ensures r.command == result.command && r.status == result.status.Text()
    ensures r.exitCode == result.exitCode && r.executionTime == result.executionTime
    ensures r.input == inputPath && r.output == outputPath && r.stderr == stderrPath && r.context == context
    ensures r.expected.Some? <==> expectedPath != ""
    ensures r.expected.Some? ==> r.expected.value == expectedPath
    ensures r.timeout.Some? <==> timeoutMs > 0
    ensures r.timeout.Some? ==> r.timeout.value == timeoutMs
    ensures r.score == ScoreField(scoreSet, score, result.exitCode)
    ensures !r.webhookSent && r.webhookError == ""
  {
    ResultRecord(inputPath, if expectedPath != "" then Some(expectedPath) else None, outputPath, stderrPath,
                 result, timeoutMs, scoreSet, score, context)
  }

  /** The older createJSONResult, for the run command: never an `expected` field. */
  function LegacyCreateJSONResult(inputPath: string, outputPath: string, stderrPath: string,
                                  result: Runner.RunResult, timeoutMs: int, scoreSet: bool, score: int, context: Value)
    : (r: JsonResult)
    ensures r.expected.None?
    ensures r == CreateJSONResult(inputPath, outputPath, stderrPath, "", result, timeoutMs, scoreSet, score, context)
  {
    ResultRecord(inputPath, None, outputPath, stderrPath, result, timeoutMs, scoreSet, score, context)
  }

  /** The older createDiffJSONResult: `expected` is always present, even for an empty path. */
  function LegacyCreateDiffJSONResult(inputPath: string, expectedPath: string, outputPath: string, stderrPath: string,
                                      result: Runner.RunResult, timeoutMs: int, scoreSet: bool, score: int, context: Value)
    : (r: JsonResult)
    ensures r.expected == Some(expectedPath)
    ensures r.(expected := None)
         == CreateJSONResult(inputPath, outputPath, stderrPath, "", result, timeoutMs, scoreSet, score, context)
  {
    ResultRecord(inputPath, Some(expectedPath), outputPath, stderrPath, result, timeoutMs, scoreSet, score, context)
  }

  /** With a non-empty expected path the diff builders agree; with an empty one only the older one reports it. */
  lemma DiffBuildersAgree(inputPath: string, expectedPath: string, outputPath: string, stderrPath: string,
                          result: Runner.RunResult, timeoutMs: int, scoreSet: bool, score: int, context: Value)
    ensures var older := LegacyCreateDiffJSONResult(inputPath, expectedPath, outputPath, stderrPath, result, timeoutMs, scoreSet, score, context);
            var newer := CreateJSONResult(inputPath, outputPath, stderrPath, expectedPath, result, timeoutMs, scoreSet, score, context);
            (older == newer <==> expectedPath != "")
  {
  }

  /** Webhook settings for one command: the endpoint and its retry policy, or none. */
  type Target = Option<(WebhookClient.Config, RetryConfig)>

  /** The two package-level webhook settings, one per command. */
  datatype Globals = Globals(run: Target, diff: Target)

  const NoWebhooks: Globals := Globals(None, None)

  /**
   * ParseWebhookConfig: converts the flags and stores the outcome in the
   * slot of the command given, leaving the other slot alone; with no URL
   * the slot is cleared. A conversion error changes nothing.
   */
  function ParseWebhookConfig(g: Globals, flags: WebhookSetup.WebhookFlags, isRunCommand: bool,
                              parseDuration: string -> Option<int>): (r: Result<Globals, WebhookSetup.WebhookFlagError>)
    ensures r.Err? <==> WebhookSetup.ParseWebhookConfigToInternal(flags, parseDuration).Err?
    ensures r.Ok? && isRunCommand ==> r.value.diff == g.diff
    ensures r.Ok? && !isRunCommand ==> r.value.run == g.run
    ensures r.Ok? && flags.url == "" ==> r.value == if isRunCommand then g.(run := None) else g.(diff := None)
    ensures r.Ok? && flags.url != "" ==> (if isRunCommand then r.value.run else r.value.diff).Some?
    ensures r.Ok? && flags.url != "" ==>
              (if isRunCommand then r.value.run else r.value.diff)
              == WebhookSetup.ParseWebhookConfigToInternal(flags, parseDuration).value
  {
    var t :- WebhookSetup.ParseWebhookConfigToInternal(flags, parseDuration);
    if isRunCommand then Ok(g.(run := t)) else Ok(g.(diff := t))
  }

  /**
   * The older parseWebhookConfig and parseDiffWebhookConfig: the same
   * conversion, except that without a URL they return at once and leave the
   * earlier settings in place.
   */
  function LegacyParseWebhookConfig(g: Globals, flags: WebhookSetup.WebhookFlags, isRunCommand: bool,
                                    parseDuration: string -> Option<int>): (r: Result<Globals, WebhookSetup.WebhookFlagError>)
    ensures flags.url == "" ==> r == Ok(g)
    ensures r.Ok? && isRunCommand ==> r.value.diff == g.diff
    ensures r.Ok? && !isRunCommand ==> r.value.run == g.run
    ensures flags.url != "" ==> (r.Err? <==> WebhookSetup.ParseWebhookConfigToInternal(flags, parseDuration).Err?)
    ensures r.Ok? && flags.url != "" ==>
              (if isRunCommand then r.value.run else r.value.diff)
              == WebhookSetup.ParseWebhookConfigToInternal(flags, parseDuration).value
  {
    if flags.url == "" then Ok(g)
    else
      var t :- WebhookSetup.ParseWebhookConfigToInternal(flags, parseDuration);
      if isRunCommand then Ok(g.(run := t)) else Ok(g.(diff := t))
  }

  /** The two parsers agree except that only the newer one clears a slot when no URL is given. */
  lemma ParseWebhookConfigVersions(g: Globals, flags: WebhookSetup.WebhookFlags, isRunCommand: bool,
                                   parseDuration: string -> Option<int>)
    ensures flags.url != "" ==> (ParseWebhookConfig(g, flags, isRunCommand, parseDuration)
                                 == LegacyParseWebhookConfig(g, flags, isRunCommand, parseDuration))
    ensures flags.url == "" ==> (ParseWebhookConfig(g, flags, isRunCommand, parseDuration)
                                 == LegacyParseWebhookConfig(g, flags, isRunCommand, parseDuration)
                                 <==> (if isRunCommand then g.run else g.diff).None?)
  {
  }

  /** The settings a result is sent with: the diff command's when it has an `expected` field. */
  function TargetFor(result: JsonResult, g: Globals): Target {
    if result.expected.Some? then g.diff else g.run
  }

  /** What the command prints, and the webhook delivery made first, if any. */
  datatype Emitted = Emitted(result: JsonResult, delivery: Option<WebhookClient.SendReport>)

  /**
   * OutputJSONAndWebhook: when settings with a URL exist for the result's
   * command, send the result (with the webhook fields cleared) through a
   * client built by NewClient, then record the outcome in the result; a
   * failed delivery is reported in the result, never as the command's error.
   */
  function OutputJSONAndWebhook(result: JsonResult, g: Globals, verbose: bool,
                                marshal: JsonResult -> Option<string>,
                                trace: nat -> WebhookClient.Event, jitter: nat -> real,
                                errorText: WebhookClient.SendError -> string): (r: Emitted)
    ensures r.delivery.Some? <==> TargetFor(result, g).Some? && TargetFor(result, g).value.0.url != ""
    ensures r.delivery.None? ==> r.result == result
    ensures r.delivery.Some? ==>
              var (config, retry) := TargetFor(result, g).value;
              var payload := marshal(result.(webhookSent := false, webhookError := ""));
              && r.delivery.value == WebhookClient.Send(WebhookClient.NewClient(config, Some(retry), verbose), payload, trace, jitter)
              && (r.result.webhookSent <==> r.delivery.value.err.None?)
              && r.result.webhookError == (if r.delivery.value.err.Some? then errorText(r.delivery.value.err.value) else result.webhookError)
    ensures r.result.(webhookSent := result.webhookSent, webhookError := result.webhookError) == result
  {
    var target := TargetFor(result, g);
    if target.None? || target.value.0.url == "" then Emitted(result, None)
    else
      var (config, retry) := target.value;
      var client := WebhookClient.NewClient(config, Some(retry), verbose);
      var payload := result.(webhookSent := false, webhookError := "");
      var report := WebhookClient.Send(client, marshal(payload), trace, jitter);
      if report.err.Some? then Emitted(result.(webhookSent := false, webhookError := errorText(report.err.value)), Some(report))
      else Emitted(result.(webhookSent := true), Some(report))
  }

  /**
   * A result built for the run command (no expected path) goes to the run
   * command's webhook and one built for the diff command to the diff
   * command's; every request carries the result with the webhook fields cleared.
   */
  lemma ResultsReachTheirWebhook(inputPath: string, outputPath: string, stderrPath: string, expectedPath: string,
                                 run: Runner.RunResult, timeoutMs: int, scoreSet: bool, score: int, context: Value,
                                 g: Globals, verbose: bool, marshal: JsonResult -> Option<string>,
                                 trace: nat -> WebhookClient.Event, jitter: nat -> real,
                                 errorText: WebhookClient.SendError -> string)
    ensures var result := CreateJSONResult(inputPath, outputPath, stderrPath, expectedPath, run, timeoutMs, scoreSet, score, context);
            var r := OutputJSONAndWebhook(result, g, verbose, marshal, trace, jitter, errorText);
            && TargetFor(result, g) == (if expectedPath == "" then g.run else g.diff)
            && (r.delivery.Some? && marshal(result).Some? ==>
                  forall i :: 0 <= i < |r.delivery.value.requests| ==> r.delivery.value.requests[i].body == marshal(result).value)
  {
    var result := CreateJSONResult(inputPath, outputPath, stderrPath, expectedPath, run, timeoutMs, scoreSet, score, context);
    assert result.(webhookSent := false, webhookError := "") == result;
  }
}
