# ghost — a Dafny model of the command wrapper's decision logic

`ghost` runs a command (`ghost run -- <cmd> ...`) or a file comparison
(`ghost diff`). It redirects stdin, stdout and stderr to files and
classifies how the process ended. It can upload the captured files to an
object store (MinIO) and prints a JSON record of the run. That record can
also be sent to a webhook, with retries and exponential backoff.

This project models the decisions the wrapper makes, with every operating
system, network and SDK effect turned into an input:

- **Runner** (`executor.dfy`): the audit command string, the order in which
  the input, output and stderr files are set up, and how Run's error
  becomes a status and an exit code.
- **Webhook client** (`retry.dfy`, `webhook_client.dfy`):
  - the retryable statuses;
  - `calculateBackoff`, on reals, with the jitter draw as a parameter;
  - `NewClient` defaults and the request headers, including Go's
    canonicalisation of header names;
  - the `Send` retry loop, as a recursive function over a trace of
    per-attempt events.
- **Context parser** (`context_parser.dfy`, `values.dfy`, `strings.dfy`):
  - `key=value` type inference;
  - the environment scan under a prefix;
  - `MergeContexts`;
  - the env < file < JSON < key=value precedence.
- **Upload** (`upload_manager.dfy`, `minio.dfy`, `paths.dfy`,
  `upload_setup.dfy`):
  - the provider registry;
  - MinIO's settings validation and endpoint handling;
  - `local[:remote]` path parsing;
  - the upload-settings builders (current and older copy);
  - `--upload-files` parsing;
  - provider set-up;
  - the upload loop with its conflict and dry-run rules.
- **Commands** (`validation.dfy`, `config_map.dfy`, `webhook_setup.dfy`,
  `json_output.dfy`, `command_world.dfy`, `run_command.dfy`,
  `diff_command.dfy`):
  - flag validation and timeout parsing;
  - webhook flag handling;
  - the JSON result;
  - the webhook settings each command keeps and the final send-then-print step;
  - the run and diff commands, from validation to the result they print.

Conventions:

- Durations are `int` nanoseconds.
- A Go `any` is `Values.Value`.
- Environments are `seq<string>` of `NAME=VALUE` entries, in `os.Environ`
  order.
- Go's random map iteration orders are explicit `seq` parameters.

The outside world is passed in:

- **JSON, URL and duration parsing:** `Foreign.Parsers` is a record of
  total functions standing for `encoding/json`, `time.ParseDuration` and
  `strconv.ParseFloat`'s acceptance. `url.Parse` is a separate function
  parameter.
- **Temporary files, disk, process outcome and uploads:** for the
  commands these are `CommandWorld.World`.
- **Webhook endpoint:** its behaviour is a trace function from an attempt
  number to an event.

Two retry rules, as the code has them:

- Status 425 is not retryable: `internal/webhook/retry.go:31-43` lists
  only 408, 429, 500, 502, 503 and 504.
- Every transport error is retried: `internal/webhook/client.go` does not
  tell one transport error from another.

The snapshot is mid-refactor, and the records here carry every field any
function uses:

- `Runner.Config` has `dryRun`, which the diff command sets and `Execute`
  never reads.
- The JSON result has `status`, `timeout`, `context` and the webhook
  fields.
- `DiffCommand.Diff` stops before the final output step, because
  `cmd/diff.go:231` passes three arguments to a two-argument function.
  That step is modelled once, as `JsonOutput.OutputJSONAndWebhook`.
- `toLowerSnakeCase` and `parseUploadEnv` have two identical copies in
  package `cmd`, defined here once.

## Model

| member | source | states |
|---|---|---|
| Runner.FullCommand | internal/runner/executor.go:56-59 | the audit string is the command followed by its arguments, all joined by single spaces |
| Runner.FullCommandShape | internal/runner/executor.go:56-59 | the audit string starts with the command, and equals it exactly when there are no arguments |
| Runner.CreateFileWithDir | internal/runner/executor.go:42-52 | succeeds iff the parent directory can be made and then the file created; a directory failure is reported before a file failure |
| Runner.Milliseconds | internal/runner/executor.go:105 | whole milliseconds, truncated toward zero, bracketing the nanosecond duration |
| Runner.ExitStatus | internal/runner/executor.go:118-119 | a normal exit gives its code (0-255); a signal gives −1 and nothing else does |
| Runner.Classify | internal/runner/executor.go:108-133 | success with exit code 0 iff there was no error; timeout with −1 iff an error came after an expiry of a deadline that was set; otherwise an exit error is failed, with the wait-status code or 1; any other error is a start failure with no result |
| Runner.Execute | internal/runner/executor.go:54-134 | setup failures are reported in the order input-open, output-create, stderr-create; a fully set-up run's result is exactly Classify's classification of its outcome, with the deadline present iff the timeout is positive; the result carries the audit string |
| Runner.NoTimeoutWithoutDeadline | internal/runner/executor.go:66-72 | with timeout ≤ 0 no run is ever reported as a timeout |
| Runner.DeadlineMasksExitError | internal/runner/executor.go:111-115 | once the deadline has expired, an exit error is a timeout with exit code −1 |
| Runner.ExitCodes | internal/runner/executor.go:116-122 | an exit error reports its code; an undecodable wait status reports 1; a signal reports −1 |
| Retry.Capped | internal/webhook/retry.go:15-21 | the pre-jitter delay is the exponential InitialDelay·Multiplier^(attempt−1) or MaxDelay, whichever is smaller |
| Retry.Truncate | internal/webhook/retry.go:27 | converting a float to a duration drops the fraction toward zero |
| Retry.CalculateBackoff | internal/webhook/retry.go:10-28 | 0 for attempt ≤ 0; otherwise, for a jitter draw in [−1,1], within ±10% of the capped delay (after truncation) |
| Retry.JitterWithin | internal/webhook/retry.go:24-27 | moving a non-negative delay by r·10% with the draw r in [−1,1] stays within [0.9·d, 1.1·d] after truncation |
| Retry.BackoffBounded | internal/webhook/retry.go:10-28 | with non-negative settings no wait is negative and none exceeds 110% of MaxDelay |
| Retry.CappedGrowth | internal/webhook/retry.go:16 | below the cap, each retry's pre-jitter delay is Multiplier times the previous one |
| Retry.CappedMonotone | internal/webhook/retry.go:16-21 | with Multiplier ≥ 1 the pre-jitter delay never shrinks from one attempt to the next |
| Retry.BackoffSchedule | internal/webhook/retry.go:10-28 | with 100ms, ×2 and a 5s cap: attempt 0 waits 0, attempts 1-3 wait 100/200/400ms ±10%, and attempt 10 is capped at 5s ±10% |
| Retry.IsRetryableStatus | internal/webhook/retry.go:31-43 | the statuses worth another attempt; RetryableClassification classifies every status against it |
| Retry.RetryableClassification | internal/webhook/retry.go:31-43 | no 2xx is retried; among 4xx exactly 408 and 429 are; among 5xx exactly 500 and 502-504 are; 425 and 501 are not |
| WebhookClient.NewClient | internal/webhook/client.go:23-42 | each default applies on its own: an empty method becomes POST, a zero timeout 30s, a missing retry policy three retries from 1s doubling to 30s; every other setting is kept |
| WebhookClient.NewClientIdempotent | internal/webhook/client.go:23-42 | building a client from a client's own settings changes nothing |
| WebhookClient.NewClientDefaults | internal/webhook/config.go:24-31 | a bare configuration gets POST, 30s and three retries from 1s doubling up to 30s |
| WebhookClient.CanonicalKey | internal/webhook/client.go:113-123 | header names are canonicalised as Header.Set does: length is preserved |
| WebhookClient.CanonicalKeyIdempotent | internal/webhook/client.go:113-123 | canonicalising twice is canonicalising once, and only the case of letters changes |
| WebhookClient.CanonicalContentType | internal/webhook/client.go:113 | Content-Type is already canonical |
| WebhookClient.CanonicalAuthorization | internal/webhook/client.go:121 | Authorization is already canonical |
| WebhookClient.CanonicalApiKey | internal/webhook/client.go:123 | the api-key header is sent as X-Api-Key |
| WebhookClient.CanonicalLowerCase | internal/webhook/client.go:114-116 | a lower-case custom header name is folded to canonical form |
| WebhookClient.CanonicalNonToken | internal/webhook/client.go:114-116 | a name with a non-token character is kept as written |
| WebhookClient.SetAll | internal/webhook/client.go:114-116 | the custom headers set one by one in iteration order; SetAllKeys and SetAllLastWins give the names present and their values |
| WebhookClient.SetAllKeys | internal/webhook/client.go:114-116 | after the custom headers, a name is present iff it was before or some custom header has it; untouched names keep their value |
| WebhookClient.SetAllLastWins | internal/webhook/client.go:114-116 | among custom headers with the same canonical name, the last one's value is kept |
| WebhookClient.AuthHeader | internal/webhook/client.go:119-124 | the header each auth type sets: Authorization with "Bearer " and the token, X-Api-Key with the token, none for any other type; RequestHeadersContents places it after the custom headers |
| WebhookClient.RequestHeaders | internal/webhook/client.go:112-124 | the authentication header, when the auth type sets one, carries its value |
| WebhookClient.RequestHeadersContents | internal/webhook/client.go:112-124 | the request has exactly Content-Type, the custom headers' canonical names and the auth header; auth overrides a custom header, which overrides the content type |
| WebhookClient.RequestHeadersCustom | internal/webhook/client.go:114-116 | a custom header that is overridden neither later nor by auth reaches the request with its value |
| WebhookClient.AuthKeepsOthers | internal/webhook/client.go:119-124 | authentication changes no header other than its own |
| WebhookClient.Attempts | internal/webhook/client.go:58-101 | the loop makes at most the remaining attempts, each request with the same body and its own backoff; all but the last continued; the outcome is success, a rejection, a timeout during a wait or exhaustion, exactly as the last event says |
| WebhookClient.Send | internal/webhook/client.go:45-104 | a marshalling failure makes no request; otherwise the same body goes on every request; at most MaxRetries+1 requests; the first has no backoff |
| WebhookClient.SendBackoffs | internal/webhook/client.go:60-61 | request i > 0 waits calculateBackoff(i) first |
| WebhookClient.SendSucceeded | internal/webhook/client.go:79-85 | success means the last attempt got a 2xx after only retryable failures |
| WebhookClient.SendFirstSuccess | internal/webhook/client.go:79-85 | a 2xx on the first attempt is one request and no error |
| WebhookClient.SendRejected | internal/webhook/client.go:94-100 | a rejection stops at that attempt, naming its number and its non-2xx, non-retryable status |
| WebhookClient.SendExhausted | internal/webhook/client.go:103 | when every attempt fails in transport, MaxRetries+1 requests are made and the error names that count and the last failure |
| WebhookClient.AttemptsAllFail | internal/webhook/client.go:88-103 | from any point of the loop, repeated transport failures end in exhaustion with the last attempt's failure |
| WebhookClient.SendNoAttempts | internal/webhook/client.go:58 | a negative MaxRetries makes no request |
| WebhookClient.SendCancelled | internal/webhook/client.go:68-73 | a cancellation during a backoff wait returns at once, naming the attempt that was waiting |
| Strings.TrimSpace | internal/context/parser.go:19 | the result is the slice between leading and trailing white space, and neither starts nor ends with white space |
| Strings.TrimSpaceTrimmed | internal/context/parser.go:19-24 | trimming is idempotent |
| Strings.TrimSpaceKeeps | internal/context/parser.go:19-24 | trimming adds no character |
| Strings.TrimSpaceAround | cmd/helpers/paths.go:12-13 | white space around a word that neither starts nor ends with white space is exactly what trimming removes |
| Strings.SplitFirst | internal/context/parser.go:14-17 | the halves around the first separator, or nothing when there is none |
| Strings.SplitFirstOfJoin | internal/context/parser.go:14 | a separator-free left part joined to any right part splits back into both |
| Strings.Fields | cmd/diff.go:156-160 | the fields are non-empty and free of white space |
| Strings.FieldsConcat | cmd/diff.go:156-160 | together the fields hold exactly the non-space characters, in order |
| Strings.AsciiLowerIdempotent | internal/context/parser.go:95 | lower-casing is idempotent and leaves no upper-case ASCII letter |
| Values.Atoi | internal/context/parser.go:27-29 | accepts exactly an optional sign and at least one digit whose signed positional value fits in 64 bits (leading zeros, "+5" and "-0" included), and returns that value |
| Values.AtoiFormatInt | internal/context/parser.go:27-29 | every 64-bit integer survives rendering and re-parsing |
| Values.AtoiExamples | internal/context/parser.go:27-29 | "+5" and "-12" are accepted with the values strconv.Atoi gives them |
| Values.AtoiLeadingZeros | internal/context/parser.go:27-29 | "007" reads as 7 and "-0" as 0, as strconv.Atoi reads them |
| Values.AtoiRefuses | internal/context/parser.go:27-29 | "", a bare "-", "1a" and " 1" are refused |
| Values.ParseBool | internal/upload/minio.go:147-149 | true for exactly 1, t, T, TRUE, true and True; false for exactly their counterparts |
| ContextParser.Infer | internal/context/parser.go:26-43 | the inferred value is an integer, a float, a bool or a string |
| ContextParser.InferClassifies | internal/context/parser.go:26-43 | integer iff Atoi accepts; otherwise float iff ParseFloat does; otherwise bool iff exactly "true"/"false"; otherwise the text itself |
| ContextParser.InferFormatInt | internal/context/parser.go:26-29 | a rendered integer reads back as that integer, never as a bool or a float |
| ContextParser.InferExamples | internal/context/parser.go:26-43 | "1" is an integer, "true" is a bool, and "False" and "123abc" are strings |
| ContextParser.ParseKV | internal/context/parser.go:13-44 | an error without '='; a successful key is non-empty, trimmed and free of '=' |
| ContextParser.ParseKVOfPair | internal/context/parser.go:14-24 | a pair splits at the first '=' only, so the value keeps later '=' characters; the key and value are trimmed, and an empty key is refused |
| ContextParser.ParseKVs | internal/context/parser.go:170-179 | the key=value pairs parsed in order into one map; ParseKVsError, ParseKVsKeys and ParseKVsLastWins give its failure, its keys and its values |
| ContextParser.ParseKVsError | internal/context/parser.go:172-176 | the key=value batch fails with the first failing pair's error |
| ContextParser.ParseKVsKeys | internal/context/parser.go:170-180 | when all pairs parse, the map holds exactly the keys they name |
| ContextParser.ParseKVsLastWins | internal/context/parser.go:177 | the last pair naming a key gives its value |
| ContextParser.Getenv | internal/context/parser.go:79 | a non-empty value comes from an entry NAME=value; GetenvFirst and GetenvAbsent give the value exactly |
| ContextParser.GetenvFirst | internal/context/parser.go:79 | the first entry that sets the name decides: the value is the text after its `NAME=` |
| ContextParser.GetenvAbsent | internal/context/parser.go:79 | with no entry setting the name the value is empty |
| ContextParser.EnvEntryValue | internal/context/parser.go:91-98 | a prefixed entry gives the key without the prefix, lower-cased, and the value inferred from the trimmed text after the first '=', or nil when the key is blank |
| ContextParser.ScanEnv | internal/context/parser.go:87-101 | the prefixed entries laid over the accumulated map in environment order; ScanEnvKeys and ScanEnvLastWins give its keys and values |
| ContextParser.ScanEnvLastWins | internal/context/parser.go:90-101 | the last entry naming a key decides its value |
| ContextParser.ScanEnvKeys | internal/context/parser.go:90-101 | the scan adds exactly the keys some entry names, and leaves the other keys as they were |
| ContextParser.ParseEnvWithPrefix | internal/context/parser.go:75-107 | a found context is never empty |
| ContextParser.ParseEnvNothingFound | internal/context/parser.go:79-106 | nil exactly when the bare-prefix JSON gives no key and no entry carries the prefix |
| ContextParser.MergeContexts | internal/context/parser.go:111-135 | the merge of the sources; MergeAllMaps gives it for maps and nils, MergeScalarFirst and MergeScalarIgnored for a non-map source |
| ContextParser.MergeAllMaps | internal/context/parser.go:111-135 | when every source is a map or nil, the merge is their left-to-right union, later keys winning, and nil when empty |
| ContextParser.OverlayLastWins | internal/context/parser.go:120-121 | a key takes its value from the last map that has it |
| ContextParser.OverlayKeys | internal/context/parser.go:120-121 | the merged map has exactly the keys of the maps |
| ContextParser.MergeScalarFirst | internal/context/parser.go:122-127 | a non-map source is returned as it is when nothing has accumulated before it |
| ContextParser.MergeScalarIgnored | internal/context/parser.go:122-127 | once some key has accumulated, a later non-map source changes nothing |
| ContextParser.BuildFromSources | internal/context/parser.go:150-182 | fails iff the file, the JSON string or some pair fails; a file failure is reported before a JSON failure |
| ContextParser.BuildContextWithPrefix | internal/context/parser.go:143-183 | fails iff the file, the JSON string or some key=value pair is given and does not parse |
| ContextParser.MergeFourLookup | internal/context/parser.go:111-135 | merging four optional map sources, a key comes from the last source that holds it |
| ContextParser.BuildPrecedence | internal/context/parser.go:146-182 | with map-shaped sources a key comes from the key=value pairs, else the JSON string, else the file, else the environment |
| ConfigMap.AsConfigMap | cmd/helpers/upload.go:23-35 | a build error is passed on; nil becomes the empty map; any other non-object is refused; an object is kept |
| UploadManager.RegisterProvider | internal/upload/manager.go:14-16 | the name maps to the new factory; other names keep theirs; no other name appears |
| UploadManager.NewProvider | internal/upload/manager.go:19-25 | an unknown name is an error naming it; otherwise a fresh provider from the factory |
| UploadManager.MinioFactory | internal/upload/manager.go:29-31 | the built-in factory makes an unconfigured provider named "minio" |
| UploadManager.RegisterThenNew | internal/upload/manager.go:14-25 | after registering, the name yields its factory's provider and other names resolve as before |
| UploadManager.ReRegisterReplaces | internal/upload/manager.go:15 | registering a name twice keeps only the second factory |
| UploadManager.InitialProviders | internal/upload/manager.go:28-32 | at start-up only "minio" is known |
| Minio.GetString | internal/upload/minio.go:125-132 | a value only for a key holding a string; a non-string value counts as missing |
| Minio.GetStringWithDefault | internal/upload/minio.go:134-139 | the string value, else the default |
| Minio.GetBool | internal/upload/minio.go:141-153 | a bool as it is, a string through ParseBool, anything else the default |
| Minio.GetBoolExamples | internal/upload/minio.go:141-153 | "FALSE" and "t" parse; "no", a number and a missing key give the default |
| Minio.FirstMissing | internal/upload/minio.go:35-53 | none iff every required key holds a string; otherwise the first one in order that does not |
| Minio.SettingsPresent | internal/upload/minio.go:35-53 | the required-settings check passes exactly when endpoint, access key, secret key and bucket are all strings |
| Minio.ClientFor | internal/upload/minio.go:55-80 | the client options: the endpoint and `secure` flag from the endpoint handling, an invalid endpoint otherwise, the two keys, and the region defaulting to us-east-1 |
| Minio.Endpoint | internal/upload/minio.go:55-69 | an http(s) URL gives its host and secure = (scheme is https), and an empty host is an error; anything else is used as written with the `secure` setting, true by default |
| Minio.Configure | internal/upload/minio.go:33-100 | the first missing setting is reported with the provider unchanged; success iff all four settings are there, the endpoint is usable, the client is created and the bucket exists; an unusable endpoint, a client failure, a failed bucket check and a missing bucket are separate errors; once the client exists the provider keeps it, the bucket and the prefix |
| Minio.ConfigureReportsFirstMissing | internal/upload/minio.go:35-53 | endpoint, access_key, secret_key and bucket are checked in that order |
| Minio.ConfigureEndpoint | internal/upload/minio.go:55-73 | a configured client connects to the URL's host, or to the raw endpoint with the `secure` setting; the prefix defaults to "" |
| Minio.ObjectName | internal/upload/minio.go:108-112 | the remote path itself without a prefix, else the prefix joined to it |
| Minio.Upload | internal/upload/minio.go:103-122 | refused iff no client exists; otherwise the object is put under its name |
| Minio.UploadNeedsConfigure | internal/upload/minio.go:104-112 | a fresh provider refuses to upload; after a successful Configure without a prefix the object name is the remote path |
| Paths.ParseOutputPath | cmd/helpers/paths.go:8-22 | without a colon, local is "" and remote is the trimmed path; with one, both halves around the first colon, trimmed |
| Paths.ParseOutputPathOfJoin | cmd/helpers/paths.go:9-13 | a colon-free local part joined by ':' to any remote part parses back to both, trimmed, with the remote's colons kept |
| Paths.ParseOutputPaths | cmd/helpers/paths.go:33-43 | the output and stderr flags are parsed independently |
| Paths.NeedsTempFiles | cmd/helpers/paths.go:47-53 | whether the command writes to temporary files; NeedsTempFilesIff gives the exact condition |
| Paths.NeedsTempFilesIff | cmd/helpers/paths.go:47-53 | temporary files are needed iff a provider exists and either local part is empty; never without a provider |
| UploadSetup.BuildUploadConfig | cmd/helpers/upload.go:15-36 | fails with a build error exactly when the GHOST_UPLOAD_CONFIG context build fails |
| UploadSetup.UploadConfigPrecedence | cmd/helpers/upload.go:17-22 | a setting comes from the key=value pairs, else the JSON string, else the file, else the environment |
| UploadSetup.ToLowerSnakeCase | cmd/upload_helpers.go:115-127 | the same length; A-Z become a-z and every other character is kept (the copy at cmd/run.go:293-306 is identical) |
| UploadSetup.ToLowerSnakeCaseIsLower | cmd/run.go:293-306 | it is the ASCII lower-casing ParseEnvWithPrefix applies, and idempotent |
| UploadSetup.LegacyEnvEntry | cmd/upload_helpers.go:86-104 | an accepted entry is strictly longer than GHOST_UPLOAD_CONFIG_ and has a non-empty value after its first '=' |
| UploadSetup.LegacyEnvEntryAgrees | cmd/upload_helpers.go:98-104 | an entry the old scan accepts is read exactly as the current scan reads it |
| UploadSetup.ParseUploadEnv | cmd/run.go:249-290 | a found context is never empty (the copy at cmd/upload_helpers.go:69-112 is identical) |
| UploadSetup.ParseUploadEnvAgrees | cmd/upload_helpers.go:69-112 | without empty-valued entries the old scan equals the current environment scan |
| UploadSetup.LegacySkipsEmptyValue | cmd/upload_helpers.go:98 | an entry with nothing after '=' is recorded as "" by the current scan but skipped by the old one |
| UploadSetup.LegacyBuildUploadConfig | cmd/run.go:193-246 | fails with a build error exactly when the file, the JSON or a pair fails (the copy at cmd/upload_helpers.go:13-66 is identical) |
| UploadSetup.LegacyBuildAgrees | cmd/upload_helpers.go:13-66 | without empty-valued entries the old builder gives what the current one gives |
| UploadSetup.ParseUploadFile | cmd/helpers/upload.go:50-68 | a colon-free entry maps its trimmed path to itself; otherwise it splits at the first colon and trims both halves; an empty half is an error |
| UploadSetup.CollectFilesOk | cmd/helpers/upload.go:45-78 | the loop succeeds iff every entry parses and no local path repeats; the map then holds exactly the entries' local paths, each mapped to its remote |
| UploadSetup.ParseUploadFiles | cmd/helpers/upload.go:42-79 | the --upload-files map from local to remote path; ParseUploadFilesOk gives when it succeeds and what it holds |
| UploadSetup.ParseUploadFilesOk | cmd/helpers/upload.go:42-79 | empty entries are skipped; succeeds iff every other entry parses and no two share a local path; each local path then maps to its remote path, and nothing else is in the map |
| UploadSetup.SetupWith | cmd/helpers/upload.go:96-117 | no provider name: nothing; then a settings error, an unknown name and a Configure failure, in that order; a dry run never configures |
| UploadSetup.SetupUploadProvider | cmd/helpers/upload.go:95-118 | an empty provider name sets up nothing |
| UploadSetup.LegacySetupUploadProvider | cmd/upload_helpers.go:130-150 | an empty provider name sets up nothing |
| UploadSetup.SetupOrder | cmd/helpers/upload.go:100-115 | a settings error comes before the name lookup, an unknown name before Configure, and a dry run ignores Configure |
| UploadSetup.MinioSetupNeedsSettings | cmd/helpers/upload.go:111-115 | a "minio" set-up missing a required setting fails to configure, but a dry run sets it up |
| UploadSetup.FirstConflict | cmd/helpers/upload.go:133-136 | the first additional file, in iteration order, that is also a standard file; none iff there is no such file |
| UploadSetup.UploadAll | cmd/helpers/upload.go:154-168 | each recorded upload is a file of the map sent to its remote path; without a failure every file is uploaded; a failure names a file of the map |
| UploadSetup.HandleUploads | cmd/helpers/upload.go:123-170 | without a provider nothing happens; a conflict fails before any upload; a dry run uploads nothing; every upload sends a standard or additional file to its remote path |
| UploadSetup.HandleUploadsCovers | cmd/helpers/upload.go:128-168 | a conflict is reported iff the two maps share a local path; without failures every standard and additional file is uploaded |
| UploadSetup.LegacyHandleUploads | cmd/upload_helpers.go:153-175 | the older loop is the current one with no additional files and no dry run |
| Validation.ValidateIOFlags | cmd/helpers/command.go:20-34 | accepts iff input, output, stderr and (when required) expected are set; the first missing flag in that order is reported |
| Validation.ValidateIOFlagsFirstMissing | cmd/helpers/command.go:21-29 | the reported flag is empty and every flag before it is set; flags the diff command accepts are accepted by the run command |
| Validation.ValidateCommandSeparator | cmd/helpers/command.go:66-77 | no command is reported before a missing `--`; accepts iff there is a command and a dash index other than −1 |
| Validation.ParseTimeout | cmd/helpers/command.go:80-95 | "" gives 0; otherwise an unparsable text or a non-positive duration is an error, and an accepted one is the parsed, strictly positive value (the same as cmd/flag_helpers.go:33-48) |
| Validation.TimeoutSign | cmd/flag_helpers.go:33-48 | an accepted timeout is never negative, and is 0 only for ""; a text that parses to zero is refused |
| Validation.RunPreRunTimeout | cmd/run.go:343-353 | an empty flag keeps the earlier timeout; a given one is checked as ParseTimeout does |
| WebhookSetup.Override | cmd/helpers/webhook.go:39-56 | one conditional assignment: the key takes the flag value when there is one; nothing else changes |
| WebhookSetup.ApplyFlagsAt | cmd/helpers/webhook.go:38-56 | a key is present iff the map or a set flag has it; a set flag's value wins over the map |
| WebhookSetup.EnvOnlyBuild | cmd/helpers/webhook.go:18-31 | building from the environment alone gives the GHOST_WEBHOOK context, and never fails |
| WebhookSetup.BuildWebhookConfig | cmd/helpers/webhook.go:13-59 | always succeeds, giving the environment settings with the set flags laid over them |
| WebhookSetup.WebhookSettingPrecedence | cmd/helpers/webhook.go:38-56 | a key holds the set flag's value, else the environment's, else is absent (a flag at "", "none", "30s", 3 or "1s" is unset) |
| WebhookSetup.MethodFlagIgnored | cmd/webhook_helpers.go:12-149 | changing the method flag changes neither the settings nor the client conversion, and the merge passes it through; so the older copy, which has no method field, computes the same |
| WebhookSetup.ParseWebhookConfigToInternal | cmd/helpers/webhook.go:62-107 | nothing iff the URL is empty; an error iff a duration does not parse, with the timeout checked first; otherwise POST, the timeout (30s default), and retries from the flag, the delay (1s default), a 30s cap and ×2 |
| WebhookSetup.WebhookDefaults | cmd/helpers/webhook.go:91-104 | the method flag is ignored; default flags give the client NewClient builds from nothing, with the default retry policy |
| WebhookSetup.MergeWebhookConfigFromEnv | cmd/helpers/webhook.go:110-150 | a set flag is never changed; an unset one takes the environment's value only when it is a string (an int for retries); the method is kept |
| WebhookSetup.MergeWebhookIdempotent | cmd/helpers/webhook.go:117-147 | filling from the environment twice is filling once |
| JsonOutput.ScoreField | cmd/helpers/output.go:39-46 | a score only when given; a successful run reports the given score and a failed one 0 |
| JsonOutput.CreateJSONResult | cmd/helpers/output.go:17-49 | copies the run's facts, paths and context; expected iff its path is non-empty; timeout iff positive; the score rule; webhook fields cleared |
| JsonOutput.LegacyCreateJSONResult | cmd/common.go:16-43 | never an expected field, and otherwise the current builder |
| JsonOutput.LegacyCreateDiffJSONResult | cmd/common.go:46-74 | expected always present, even when empty, and otherwise the current builder |
| JsonOutput.DiffBuildersAgree | cmd/common.go:46-74 | the two diff builders agree exactly when the expected path is non-empty |
| JsonOutput.ParseWebhookConfig | cmd/helpers/output.go:79-96 | fails iff the conversion fails; writes only the named command's slot; an empty URL clears it, and with a URL the slot holds the converted settings |
| JsonOutput.LegacyParseWebhookConfig | cmd/common.go:96-141 | an empty URL leaves both slots as they were; otherwise it fails iff the conversion fails, only the named command's slot changes, and it holds the converted settings (parseDiffWebhookConfig at cmd/common.go:144-189 is the diff case) |
| JsonOutput.ParseWebhookConfigVersions | cmd/common.go:96-99 | with a URL the two versions agree; without one they agree iff the slot was already empty |
| JsonOutput.OutputJSONAndWebhook | cmd/helpers/output.go:99-141 | sends iff the result's command has settings with a URL; the payload has the webhook fields cleared; the result records success or the error text and is otherwise unchanged; a failed delivery is never the command's error |
| JsonOutput.TargetFor | cmd/helpers/output.go:104-111 | the diff command's settings for a result with an expected field, the run command's otherwise; ResultsReachTheirWebhook ties this to the result builders |
| JsonOutput.ResultsReachTheirWebhook | cmd/helpers/output.go:104-111 | a result with an expected path goes to the diff command's webhook and one without to the run command's; every request carries the marshalled result |
| CommandWorld.BuildContext | internal/context/parser.go:138-140 | the GHOST_CONTEXT build fails iff the file, the JSON or a pair fails |
| CommandWorld.FirstMissingFile | cmd/helpers/upload.go:82-92 | the first file, in iteration order, that Stat does not find; none iff every file is found |
| CommandWorld.TimeoutMs | cmd/run.go:173-176 | 0 without a timeout; positive iff the timeout is at least a millisecond; otherwise the truncated milliseconds |
| CommandWorld.TimeoutReported | cmd/diff.go:214-217 | a timeout shorter than a millisecond is applied but not reported; a reported one brackets the timeout |
| RunCommand.RunChecks | cmd/run.go:58-76 | no command first, then a missing `--`, then input, output and stderr; accepts iff all are present |
| RunCommand.RunConfig | cmd/run.go:78-79 | the command and its arguments are the words after `--`, in order |
| RunCommand.RunCommandLine | cmd/run.go:124-134 | the recorded command line is the words after `--` joined by single spaces |
| RunCommand.RunUploads | cmd/run.go:139-164 | without a provider nothing is uploaded; with one, stdout is uploaded under the output flag and then stderr under the stderr flag, and the first failure ends the command |
| RunCommand.RunResult | cmd/run.go:172-186 | the result reports the run's command line, status, exit code and time and the given context; it records the paths the command wrote to, no expected field, the score rule, and the timeout only from a millisecond on |
| RunCommand.RunFinish | cmd/run.go:139-186 | fails iff an upload or the context build fails; otherwise the uploads of the write paths, and a result reporting the run's status, exit code and time with the built context |
| RunCommand.RunExec | cmd/run.go:101-137 | with a provider both streams go to temporary files, and a failure to create the output one ends the command; without one the flags are used; the settings are the words after `--`; the result reports what Execute gave for those settings and the GHOST_CONTEXT context |
| RunCommand.Run | cmd/run.go:57-186 | a validation error comes first; the settings run args[0] with args[1..], never as a dry run; the result's status, exit code and time are Execute's for those settings and its context is the GHOST_CONTEXT build; without a provider it uploads nothing and records the flags; with one it records the temporary paths and uploads them under the flags |
| DiffCommand.DiffArgs | cmd/diff.go:152-163 | the --diff-flags fields, then the input, then the expected file |
| DiffCommand.DisplayPaths | cmd/diff.go:83-88 | the remote parts with a provider, the flags as given without |
| DiffCommand.ActualPath | cmd/diff.go:100-146 | the local part when non-empty; otherwise the flag itself without a provider, or a temporary file with one |
| DiffCommand.DiffUploads | cmd/diff.go:183-200 | nothing without a provider or in a dry run; every upload is an output file to its remote part or an additional file to its remote |
| DiffCommand.DiffResult | cmd/diff.go:213-228 | the result reports the run's command line, status, exit code and time and the given context; it records the flags as given, the expected path when set, the score rule and the timeout only from a millisecond on |
| DiffCommand.DiffFinish | cmd/diff.go:183-228 | fails iff the uploads or the context build fail; otherwise a result that records the flags and reports the run's status, exit code and time with the built context |
| DiffCommand.DiffRun | cmd/diff.go:95-181 | diff runs with its arguments and the actual output and stderr paths; the result records the flags and reports what Execute gave for those settings and the GHOST_CONTEXT context |
| DiffCommand.Diff | cmd/diff.go:52-228 | the I/O flags, expected included, are checked before anything else; diff runs with stdin from /dev/null and the common flags' settings; the result records the flags and the expected path, its status, exit code and time are Execute's for those settings and its context the GHOST_CONTEXT build; without a provider or in a dry run nothing is uploaded |
| DiffCommand.DiffCommandLine | cmd/diff.go:152-175 | the recorded command line is diff, the --diff-flags fields, the input and the expected file |
| DiffCommand.LocalRemoteFlag | cmd/diff.go:80-113 | for `local:remote`, diff writes to the trimmed local part with or without a provider, and with one the trimmed remote part is shown and uploaded to |
| DiffCommand.PlainFlag | cmd/diff.go:100-123 | a colon-free flag is written to as given without a provider, and replaced by a temporary file with one |

## Left out

- Process spawning, redirection, the verbose stderr tee, directory and file creation, temporary-file creation and removal: their outcomes are inputs (`Runner.FileSystem`, `Runner.Outcome`, `CommandWorld.World`).
- Wall-clock timing, `context.WithTimeout` and the race between `time.After` and `ctx.Done()`: the elapsed time and deadline expiry are inputs, and a cancellation is an event in the webhook trace.
- HTTP transport, the per-request client timeout and response draining: only the header map is built; each attempt's outcome comes from the trace.
- Retry.CalculateBackoff: computes on reals, not float64, with the `rand.Float64()*2-1` draw as a parameter; rounding of `math.Pow` is not modelled.
- JSON encoding and decoding, `time.ParseDuration`, `strconv.ParseFloat`, `url.Parse`, `filepath.Join` and `filepath.Dir` are uninterpreted functions. JSON numbers are floats, so an environment `retries` value from JSON never matches `.(int)`.
- Strings.AsciiLower: `strings.ToLower` is narrowed to ASCII letters; Unicode case mapping is not modelled.
- LegacyEnvEntryAgrees: holds in the model, where both scans lower-case ASCII letters only. In the Go code the old scan's toLowerSnakeCase maps only A-Z, while the current scan's strings.ToLower also folds non-ASCII capitals. `GHOST_UPLOAD_CONFIG_ÉTAT=x` gives the key "État" in the old scan and "état" in the current one, so the agreement is promised only for names without non-ASCII capitals.
- ParseUploadEnvAgrees: rests on LegacyEnvEntryAgrees, so in the Go code it too holds only for entry names without non-ASCII capitals.
- LegacyBuildAgrees: rests on ParseUploadEnvAgrees, so in the Go code it too holds only for entry names without non-ASCII capitals.
- MinIO client creation, `BucketExists` and `PutObject` are inputs (`Minio.Sdk`, an upload outcome).
- `os.Getenv`, `os.Environ` and `os.Stat` are inputs: the environment list and a Stat oracle.
- Printing: `OutputJSON`'s print, `PrintUploadInfo`, `PrintContextInfo`, the runner's pre- and post-execution summaries and the verbose `[WEBHOOK]` lines.
- `CreateTempFiles` in cmd/helpers/command.go is unused by the commands modelled.
- Cobra flag registration, `init` wiring and `ResetWebhookConfigs` (a test helper).
- The diff command's pre-run hook is not part of this model; the run command's is modelled by `Validation.RunPreRunTimeout` and `JsonOutput.LegacyParseWebhookConfig`.
- RunCommand.Run and DiffCommand.Diff: stop before the final output step, which is `JsonOutput.OutputJSONAndWebhook`.
- RunCommand.Run: with a provider set, the result records the temporary paths the command wrote to, not the flags.
- Go's random map iteration orders are explicit parameters, so every order is covered but none is chosen.
