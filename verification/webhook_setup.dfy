/**
 * Webhook settings on the command line: the settings map built from the
 * GHOST_WEBHOOK environment with the flags laid over it, the conversion of
 * the flags to client and retry settings, and the filling of flags left at
 * their defaults from the environment.
 *
 * A flag counts as unset while it holds its default: URL "", auth type
 * "none" (or ""), timeout "30s" (or ""), three retries, retry delay "1s"
 * (or ""). time.ParseDuration is an input.
 */
module WebhookSetup {
  import opened Base
  import opened Values
  import opened Foreign
  import opened ContextParser
  import opened ConfigMap
  import opened Retry
  import WebhookClient

  /** The webhook flags; the JSON, key=value and file sources are declared but not read by these helpers. */
  datatype WebhookFlags = WebhookFlags(
    url: string,
    httpMethod: string,
    authType: string,
    authToken: string,
    timeout: string,
    retries: int,
    retryDelay: string)

  const WebhookPrefix: string := "GHOST_WEBHOOK"

  predicate UrlUnset(f: WebhookFlags) { f.url == "" }
  predicate AuthTypeUnset(f: WebhookFlags) { f.authType == "" || f.authType == "none" }
  predicate AuthTokenUnset(f: WebhookFlags) { f.authToken == "" }
  predicate TimeoutUnset(f: WebhookFlags) { f.timeout == "" || f.timeout == "30s" }
  predicate RetriesUnset(f: WebhookFlags) { f.retries == 3 }
  predicate RetryDelayUnset(f: WebhookFlags) { f.retryDelay == "" || f.retryDelay == "1s" }

  /** The settings entry a flag contributes under `key`: its value, when the flag is set. */
  function FlagSetting(f: WebhookFlags, key: string): Option<Value> {
    match key
    case "url" => if UrlUnset(f) then None else Some(Str(f.url))
    case "auth_type" => if AuthTypeUnset(f) then None else Some(Str(f.authType))
    case "auth_token" => if AuthTokenUnset(f) then None else Some(Str(f.authToken))
    case "timeout" => if TimeoutUnset(f) then None else Some(Str(f.timeout))
    case "retries" => if RetriesUnset(f) then None else Some(Int(f.retries))
    case "retry_delay" => if RetryDelayUnset(f) then None else Some(Str(f.retryDelay))
    case _ => None
  }

  /** One conditional assignment: `key` takes `v` when there is one. */
  function Override(m: map<string, Value>, key: string, v: Option<Value>): (r: map<string, Value>)
    ensures forall k :: k in r <==> k in m || (k == key && v.Some?)
    ensures forall k :: k in r ==> r[k] == if k == key && v.Some? then v.value else m[k]
  {
    if v.Some? then m[key := v.value] else m
  }

  /** The overrides, one assignment per set flag, in source order; per key the flag wins over the map. */
  function ApplyFlags(m: map<string, Value>, f: WebhookFlags): (r: map<string, Value>)
  {
    var m1 := Override(m, "url", FlagSetting(f, "url"));
    var m2 := Override(m1, "auth_type", FlagSetting(f, "auth_type"));
    var m3 := Override(m2, "auth_token", FlagSetting(f, "auth_token"));
    var m4 := Override(m3, "timeout", FlagSetting(f, "timeout"));
    var m5 := Override(m4, "retries", FlagSetting(f, "retries"));
    Override(m5, "retry_delay", FlagSetting(f, "retry_delay"))
  }

  /** Per key the flag wins over the map, and the map keeps every key no flag sets. */
  lemma ApplyFlagsAt(m: map<string, Value>, f: WebhookFlags, k: string)
    ensures k in ApplyFlags(m, f) <==> k in m || FlagSetting(f, k).Some?
    ensures k in ApplyFlags(m, f) ==> ApplyFlags(m, f)[k] == if FlagSetting(f, k).Some? then FlagSetting(f, k).value else m[k]
  {
    var m1 := Override(m, "url", FlagSetting(f, "url"));
    var m2 := Override(m1, "auth_type", FlagSetting(f, "auth_type"));
    var m3 := Override(m2, "auth_token", FlagSetting(f, "auth_token"));
    var m4 := Override(m3, "timeout", FlagSetting(f, "timeout"));
    var m5 := Override(m4, "retries", FlagSetting(f, "retries"));
    assert ApplyFlags(m, f) == Override(m5, "retry_delay", FlagSetting(f, "retry_delay"));
    if k !in {"url", "auth_type", "auth_token", "timeout", "retries", "retry_delay"} {
      assert FlagSetting(f, k).None?;
      assert k in m5 <==> k in m;
      assert k in m5 ==> m5[k] == m[k];
    }
  }

  /** What the environment says under GHOST_WEBHOOK, empty when it says nothing. */
  function EnvSettings(env: seq<string>, fs: Parsers): map<string, Value> {
    ParseEnvWithPrefix(env, WebhookPrefix, fs).GetOr(map[])
  }

  /** A lone environment map merges into itself, as nil when absent. */
  lemma EnvOnlyBuild(env: seq<string>, fs: Parsers)
    ensures BuildContextWithPrefix(env, WebhookPrefix, "", [], "", fs) == Ok(Wrap(EnvSettings(env, fs)))
  {
    EnvOnlySources(ParseEnvWithPrefix(env, WebhookPrefix, fs), fs);
  }

  /**
   * BuildWebhookConfig: it always succeeds, and a key holds the flag's value
   * when that flag is set, else the environment's (the merge has no other source).
   */
  function BuildWebhookConfig(f: WebhookFlags, env: seq<string>, fs: Parsers): (r: Result<map<string, Value>, ConfigMapError>)
    ensures r == Ok(ApplyFlags(EnvSettings(env, fs), f))
  {
    EnvOnlyBuild(env, fs);
    match AsConfigMap(BuildContextWithPrefix(env, WebhookPrefix, "", [], "", fs))
    case Err(e) => Err(e)
    case Ok(m) => Ok(ApplyFlags(m, f))
  }

  /** A settings key holds the flag's value when that flag is set, else the environment's value, else nothing. */
  lemma {:induction false} WebhookSettingPrecedence(f: WebhookFlags, env: seq<string>, fs: Parsers, k: string)
    ensures var m := BuildWebhookConfig(f, env, fs).value;
            && (k in m <==> FlagSetting(f, k).Some? || k in EnvSettings(env, fs))
            && (FlagSetting(f, k).Some? ==> m[k] == FlagSetting(f, k).value)
            && (FlagSetting(f, k).None? && k in EnvSettings(env, fs) ==> m[k] == EnvSettings(env, fs)[k])
  {
    ApplyFlagsAt(EnvSettings(env, fs), f, k);
  }

  /**
   * The method flag plays no part: the older copy of these helpers, whose
   * flags have no method, computes the same settings, client and retry
   * settings, and filled flags.
   */
  lemma {:induction false} MethodFlagIgnored(f: WebhookFlags, httpMethod: string, env: seq<string>, fs: Parsers)
    ensures BuildWebhookConfig(f.(httpMethod := httpMethod), env, fs) == BuildWebhookConfig(f, env, fs)
    ensures ParseWebhookConfigToInternal(f.(httpMethod := httpMethod), fs.duration)
         == ParseWebhookConfigToInternal(f, fs.duration)
    ensures MergeWebhookConfigFromEnv(f.(httpMethod := httpMethod), env, fs).value
         == MergeWebhookConfigFromEnv(f, env, fs).value.(httpMethod := httpMethod)
  {
    BuildIgnoresMethod(f, httpMethod, env, fs);
    ParseIgnoresMethod(f, httpMethod, fs.duration);
    MergeIgnoresMethod(f, httpMethod, env, fs);
  }

  lemma {:induction false} BuildIgnoresMethod(f: WebhookFlags, httpMethod: string, env: seq<string>, fs: Parsers)
    ensures BuildWebhookConfig(f.(httpMethod := httpMethod), env, fs) == BuildWebhookConfig(f, env, fs)
  {
    ApplyFlagsIgnoresMethod(EnvSettings(env, fs), f, httpMethod);
  }

  lemma ParseIgnoresMethod(f: WebhookFlags, httpMethod: string, parseDuration: string -> Option<int>)
    ensures ParseWebhookConfigToInternal(f.(httpMethod := httpMethod), parseDuration)
         == ParseWebhookConfigToInternal(f, parseDuration)
  {
    var g := f.(httpMethod := httpMethod);
    assert g.url == f.url && g.timeout == f.timeout && g.retryDelay == f.retryDelay;
    assert g.retries == f.retries && g.authType == f.authType && g.authToken == f.authToken;
  }

  lemma MergeIgnoresMethod(f: WebhookFlags, httpMethod: string, env: seq<string>, fs: Parsers)
    ensures MergeWebhookConfigFromEnv(f.(httpMethod := httpMethod), env, fs).value
         == MergeWebhookConfigFromEnv(f, env, fs).value.(httpMethod := httpMethod)
  {
    MergeIsFill(f.(httpMethod := httpMethod), env, fs);
    MergeIsFill(f, env, fs);
  }

  lemma ApplyFlagsIgnoresMethod(m: map<string, Value>, f: WebhookFlags, httpMethod: string)
    ensures ApplyFlags(m, f.(httpMethod := httpMethod)) == ApplyFlags(m, f)
  {
    var g := f.(httpMethod := httpMethod);
    assert FlagSetting(g, "url") == FlagSetting(f, "url");
    assert FlagSetting(g, "auth_type") == FlagSetting(f, "auth_type");
    assert FlagSetting(g, "auth_token") == FlagSetting(f, "auth_token");
    assert FlagSetting(g, "timeout") == FlagSetting(f, "timeout");
    assert FlagSetting(g, "retries") == FlagSetting(f, "retries");
    assert FlagSetting(g, "retry_delay") == FlagSetting(f, "retry_delay");
  }

  datatype WebhookFlagError = InvalidTimeout(text: string) | InvalidRetryDelay(text: string)

  /** A duration flag: empty means the default; otherwise ParseDuration's value. */
  function DurationOr(text: string, default: int, parseDuration: string -> Option<int>): Option<int> {
    if text == "" then Some(default) else parseDuration(text)
  }

  /**
   * ParseWebhookConfigToInternal: no webhook without a URL; otherwise the
   * timeout is parsed before the retry delay, and the client always POSTs
   * with a 30s backoff cap and doubling, whatever the method flag says.
   */
  function ParseWebhookConfigToInternal(f: WebhookFlags, parseDuration: string -> Option<int>)
    : (r: Result<Option<(WebhookClient.Config, RetryConfig)>, WebhookFlagError>)
    ensures r == Ok(None) <==> UrlUnset(f)
    ensures r.Err? <==> !UrlUnset(f) && (DurationOr(f.timeout, 30 * Second, parseDuration).None?
                                         || DurationOr(f.retryDelay, Second, parseDuration).None?)
    ensures r.Err? && r.error.InvalidRetryDelay? ==> DurationOr(f.timeout, 30 * Second, parseDuration).Some?
    ensures r.Ok? && r.value.Some? ==>
              var (c, rc) := r.value.value;
              && c == WebhookClient.Config(f.url, "POST", [], DurationOr(f.timeout, 30 * Second, parseDuration).value,
                                           f.authType, f.authToken)
              && rc == RetryConfig(f.retries, DurationOr(f.retryDelay, Second, parseDuration).value, 30 * Second, 2.0)
  {
    if f.url == "" then Ok(None)
    else
      var timeout :- if f.timeout == "" then Ok(30 * Second)
                     else if parseDuration(f.timeout).None? then Err(InvalidTimeout(f.timeout))
                     else Ok(parseDuration(f.timeout).value);
      var delay :- if f.retryDelay == "" then Ok(Second)
                   else if parseDuration(f.retryDelay).None? then Err(InvalidRetryDelay(f.retryDelay))
                   else Ok(parseDuration(f.retryDelay).value);
      Ok(Some((WebhookClient.Config(f.url, "POST", [], timeout, f.authType, f.authToken),
               RetryConfig(f.retries, delay, 30 * Second, 2.0))))
  }

  /**
   * The method flag is ignored; flags at their defaults (with "30s" and "1s"
   * parsing as such) give the client NewClient would build from nothing, with
   * the default retry policy.
   */
  lemma WebhookDefaults(f: WebhookFlags, parseDuration: string -> Option<int>, verbose: bool)
    requires !UrlUnset(f) && TimeoutUnset(f) && RetriesUnset(f) && RetryDelayUnset(f)
    requires parseDuration("30s") == Some(30 * Second) && parseDuration("1s") == Some(Second)
    ensures ParseWebhookConfigToInternal(f.(httpMethod := ""), parseDuration) == ParseWebhookConfigToInternal(f, parseDuration)
    ensures var r := ParseWebhookConfigToInternal(f, parseDuration);
            && r.Ok? && r.value.Some?
            && r.value.value.1 == DefaultRetryConfig
            && WebhookClient.NewClient(r.value.value.0, Some(r.value.value.1), verbose)
               == WebhookClient.NewClient(WebhookClient.Config(f.url, "", [], 0, f.authType, f.authToken), None, verbose)
  {
  }

  /** The string under `key`, if the settings hold one (`.(string)`). */
  function EnvString(m: map<string, Value>, key: string): Option<string> {
    if key in m && m[key].Str? then Some(m[key].s) else None
  }

  /** The int under `key`, if the settings hold one (`.(int)`); JSON numbers are floats and do not match. */
  function EnvInt(m: map<string, Value>, key: string): Option<int> {
    if key in m && m[key].Int? then Some(m[key].i) else None
  }

  /** The field assignments of MergeWebhookConfigFromEnv, from the settings map it reads. */
  function FillUnset(f: WebhookFlags, m: map<string, Value>): WebhookFlags {
    WebhookFlags(
      url := if UrlUnset(f) then EnvString(m, "url").GetOr(f.url) else f.url,
      httpMethod := f.httpMethod,
      authType := if AuthTypeUnset(f) then EnvString(m, "auth_type").GetOr(f.authType) else f.authType,
      authToken := if AuthTokenUnset(f) then EnvString(m, "auth_token").GetOr(f.authToken) else f.authToken,
      timeout := if TimeoutUnset(f) then EnvString(m, "timeout").GetOr(f.timeout) else f.timeout,
      retries := if RetriesUnset(f) then EnvInt(m, "retries").GetOr(f.retries) else f.retries,
      retryDelay := if RetryDelayUnset(f) then EnvString(m, "retry_delay").GetOr(f.retryDelay) else f.retryDelay)
  }

  /** A key no flag sets reads the same with the flags laid over the map. */
  lemma UnsetKeyUntouched(f: WebhookFlags, e: map<string, Value>, key: string)
    requires FlagSetting(f, key).None?
    ensures EnvString(ApplyFlags(e, f), key) == EnvString(e, key)
    ensures EnvInt(ApplyFlags(e, f), key) == EnvInt(e, key)
  {
    ApplyFlagsAt(e, f, key);
  }

  /** The flags laid over the map sit under exactly the keys of set flags, which FillUnset does not read. */
  lemma {:induction false} FillUnsetIgnoresFlags(f: WebhookFlags, e: map<string, Value>)
    ensures FillUnset(f, ApplyFlags(e, f)) == FillUnset(f, e)
  {
    var m := ApplyFlags(e, f);
    if UrlUnset(f) { UnsetKeyUntouched(f, e, "url"); }
    if AuthTypeUnset(f) { UnsetKeyUntouched(f, e, "auth_type"); }
    if AuthTokenUnset(f) { UnsetKeyUntouched(f, e, "auth_token"); }
    if TimeoutUnset(f) { UnsetKeyUntouched(f, e, "timeout"); }
    if RetriesUnset(f) { UnsetKeyUntouched(f, e, "retries"); }
    if RetryDelayUnset(f) { UnsetKeyUntouched(f, e, "retry_delay"); }
  }

  /**
   * MergeWebhookConfigFromEnv: a set flag is never changed; an unset one
   * takes the environment's value when it has the right type. The map it
   * reads has the set flags laid over it, which are exactly the entries it
   * never reads, so the outcome depends on the environment alone.
   */
  function MergeWebhookConfigFromEnv(f: WebhookFlags, env: seq<string>, fs: Parsers): (r: Result<WebhookFlags, ConfigMapError>)
    ensures r.Ok?
    ensures var e := EnvSettings(env, fs);
            && r.value.url == (if UrlUnset(f) then EnvString(e, "url").GetOr(f.url) else f.url)
            && r.value.authType == (if AuthTypeUnset(f) then EnvString(e, "auth_type").GetOr(f.authType) else f.authType)
            && r.value.authToken == (if AuthTokenUnset(f) then EnvString(e, "auth_token").GetOr(f.authToken) else f.authToken)
            && r.value.timeout == (if TimeoutUnset(f) then EnvString(e, "timeout").GetOr(f.timeout) else f.timeout)
            && r.value.retries == (if RetriesUnset(f) then EnvInt(e, "retries").GetOr(f.retries) else f.retries)
            && r.value.retryDelay == (if RetryDelayUnset(f) then EnvString(e, "retry_delay").GetOr(f.retryDelay) else f.retryDelay)
            && r.value.httpMethod == f.httpMethod
  {
    FillUnsetIgnoresFlags(f, EnvSettings(env, fs));
    match BuildWebhookConfig(f, env, fs)
    case Err(e) => Err(e)
    case Ok(m) => Ok(FillUnset(f, m))
  }

  /** The merged flags are FillUnset applied to the environment's settings. */
  lemma MergeIsFill(f: WebhookFlags, env: seq<string>, fs: Parsers)
    ensures MergeWebhookConfigFromEnv(f, env, fs).value == FillUnset(f, EnvSettings(env, fs))
  {
    FillUnsetIgnoresFlags(f, EnvSettings(env, fs));
  }

  /** A flag filled from the settings is either still unset, taking the same value again, or set. */
  lemma FillUnsetIdempotent(f: WebhookFlags, m: map<string, Value>)
    ensures FillUnset(FillUnset(f, m), m) == FillUnset(f, m)
  {
  }

  /** Filling from the environment a second time changes nothing. */
  lemma MergeWebhookIdempotent(f: WebhookFlags, env: seq<string>, fs: Parsers)
    ensures var once := MergeWebhookConfigFromEnv(f, env, fs).value;
            MergeWebhookConfigFromEnv(once, env, fs).value == once
  {
    var once := MergeWebhookConfigFromEnv(f, env, fs).value;
    MergeIsFill(f, env, fs);
    MergeIsFill(once, env, fs);
    FillUnsetIdempotent(f, EnvSettings(env, fs));
  }
}
