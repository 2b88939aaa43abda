/**
 * The webhook client: defaults applied by NewClient, the request headers
 * sendRequest assembles, and Send's attempt loop.
 *
 * Send is a function of an event trace indexed by attempt number: what the
 * endpoint (or the transport) answered to that attempt, or that the overall
 * deadline or a cancellation fired during the backoff wait before it.
 * Jitter draws are indexed the same way.
 */
module WebhookClient {
  import opened Base
  import opened Strings
  import opened Foreign
  import opened Retry

  /** Endpoint settings; `headers` lists the custom headers in the order the map is iterated. */
  datatype Config = Config(
    url: string,
    httpMethod: string,
    headers: seq<(string, string)>,
    timeout: int,
    authType: string,
    authToken: string)

  datatype Client = Client(config: Config, retry: RetryConfig, verbose: bool)

  /** The HTTP client's own per-request timeout. */
  const RequestTimeout: int := 10 * Second

  /** NewClient: POST when no method is given, 30s when no timeout is, the default retry policy when none is. */
  function NewClient(config: Config, retry: Option<RetryConfig>, verbose: bool): (c: Client)
    ensures c.config.httpMethod != "" && c.config.timeout != 0
    ensures config.httpMethod != "" ==> c.config.httpMethod == config.httpMethod
    ensures config.timeout != 0 ==> c.config.timeout == config.timeout
    ensures retry.Some? ==> c.retry == retry.value
    ensures config.httpMethod == "" ==> c.config.httpMethod == "POST"
    ensures config.timeout == 0 ==> c.config.timeout == 30 * Second
    ensures retry.None? ==> c.retry == RetryConfig(3, Second, 30 * Second, 2.0)
    ensures c.config.(httpMethod := config.httpMethod, timeout := config.timeout) == config
    ensures c.verbose == verbose
  {
    var verb := if config.httpMethod == "" then "POST" else config.httpMethod;
    var timeout := if config.timeout == 0 then 30 * Second else config.timeout;
    Client(config.(httpMethod := verb, timeout := timeout), retry.GetOr(DefaultRetryConfig), verbose)
  }

  /** Applying the defaults to a client's own settings changes nothing. */
  lemma NewClientIdempotent(config: Config, retry: Option<RetryConfig>, verbose: bool)
    ensures var c := NewClient(config, retry, verbose);
            NewClient(c.config, Some(c.retry), c.verbose) == c
  {
  }

  /** A bare configuration gets POST, 30 seconds and three retries from 1s doubling to 30s. */
  lemma NewClientDefaults(url: string, headers: seq<(string, string)>, authType: string, authToken: string, verbose: bool)
    ensures NewClient(Config(url, "", headers, 0, authType, authToken), None, verbose)
         == Client(Config(url, "POST", headers, 30 * Second, authType, authToken),
                   RetryConfig(3, Second, 30 * Second, 2.0), verbose)
  {
  }

  // ---------------------------------------------------------------- headers

  /** A byte allowed in a header field name (an RFC 7230 token character). */
  predicate IsTokenChar(c: char) {
    || ('a' <= c <= 'z') || ('A' <= c <= 'Z') || ('0' <= c <= '9')
    || c in {'!', '#', '$', '%', '&', '\'', '*', '+', '-', '.', '^', '_', '`', '|', '~'}
  }

  function UpperAscii(c: char): (r: char)
    ensures 'a' <= c <= 'z' ==> 'A' <= r <= 'Z' && c as int - r as int == 32
    ensures !('a' <= c <= 'z') ==> r == c
  {
    if 'a' <= c <= 'z' then (c as int - 'a' as int + 'A' as int) as char else c
  }

  /** Upper-cases the first letter and every letter after a '-', lower-cases the rest. */
  function CaseFold(k: string, upper: bool): (r: string)
    ensures |r| == |k|
    ensures forall i :: 0 <= i < |k| ==>
              r[i] == if (if i == 0 then upper else k[i - 1] == '-') then UpperAscii(k[i]) else LowerAscii(k[i])
  {
    if |k| == 0 then ""
    else [if upper then UpperAscii(k[0]) else LowerAscii(k[0])] + CaseFold(k[1..], k[0] == '-')
  }

  /** Every character of `k` from position `i` on is a token character. */
  predicate TokensFrom(k: string, i: nat)
    decreases |k| - i
  {
    i >= |k| || (IsTokenChar(k[i]) && TokensFrom(k, i + 1))
  }

  lemma {:induction false} TokensFromAll(k: string, i: nat)
    requires i <= |k|
    ensures TokensFrom(k, i) <==> forall j :: i <= j < |k| ==> IsTokenChar(k[j])
    decreases |k| - i
  {
    if i < |k| {
      TokensFromAll(k, i + 1);
    }
  }

  /**
   * textproto.CanonicalMIMEHeaderKey, which Header.Set applies to every key:
   * a key made of token characters is case-folded, any other key is kept as it is.
   */
  function CanonicalKey(k: string): (r: string)
    ensures |r| == |k|
  {
    if TokensFrom(k, 0) then CaseFold(k, true) else k
  }

  /** Case-folding a key again changes nothing, keeps its token characters, and changes only letter case. */
  lemma CaseFoldIdempotent(k: string, upper: bool)
    ensures CaseFold(CaseFold(k, upper), upper) == CaseFold(k, upper)
    ensures forall i :: 0 <= i < |k| ==> (IsTokenChar(CaseFold(k, upper)[i]) <==> IsTokenChar(k[i]))
    ensures AsciiLower(CaseFold(k, upper)) == AsciiLower(k)
  {
    CaseFoldTwice(k, upper);
    CaseFoldTokens(k, upper);
    CaseFoldLower(k, upper);
  }

  /** One rune folded either way: '-' stays '-', token runes stay token runes, the lower-case form is kept. */
  lemma FoldChar(c: char, up: bool)
    ensures var d := if up then UpperAscii(c) else LowerAscii(c);
            && (d == '-' <==> c == '-') && (IsTokenChar(d) <==> IsTokenChar(c)) && LowerAscii(d) == LowerAscii(c)
            && (if up then UpperAscii(d) else LowerAscii(d)) == d
  {
  }

  lemma CaseFoldTwice(k: string, upper: bool)
    ensures CaseFold(CaseFold(k, upper), upper) == CaseFold(k, upper)
  {
    var r := CaseFold(k, upper);
    var rr := CaseFold(r, upper);
    forall i | 0 <= i < |k|
      ensures rr[i] == r[i]
    {
      FoldChar(k[i], if i == 0 then upper else k[i - 1] == '-');
      if i > 0 {
        FoldChar(k[i - 1], if i == 1 then upper else k[i - 2] == '-');
      }
    }
  }

  lemma CaseFoldTokens(k: string, upper: bool)
    ensures forall i :: 0 <= i < |k| ==> (IsTokenChar(CaseFold(k, upper)[i]) <==> IsTokenChar(k[i]))
  {
    forall i | 0 <= i < |k|
      ensures IsTokenChar(CaseFold(k, upper)[i]) <==> IsTokenChar(k[i])
    {
      FoldChar(k[i], if i == 0 then upper else k[i - 1] == '-');
    }
  }

  lemma CaseFoldLower(k: string, upper: bool)
    ensures AsciiLower(CaseFold(k, upper)) == AsciiLower(k)
  {
    var r := CaseFold(k, upper);
    forall i | 0 <= i < |k|
      ensures AsciiLower(r)[i] == AsciiLower(k)[i]
    {
      FoldChar(k[i], if i == 0 then upper else k[i - 1] == '-');
    }
  }

  /** Canonicalising twice is canonicalising once, and it only changes the case of ASCII letters. */
  lemma {:induction false} CanonicalKeyIdempotent(k: string)
    ensures CanonicalKey(CanonicalKey(k)) == CanonicalKey(k)
    ensures AsciiLower(CanonicalKey(k)) == AsciiLower(k)
  {
    CaseFoldIdempotent(k, true);
    TokensFromAll(k, 0);
    TokensFromAll(CaseFold(k, true), 0);
  }

  /** The fixed header names: Content-Type and Authorization are already canonical, X-API-Key is not. */
  lemma CanonicalContentType()
    ensures CanonicalKey("Content-Type") == "Content-Type"
  {
    ContentTypeFolds();
    ContentTypeTokens();
  }

  lemma {:induction false} ContentTypeFolds()
    ensures CaseFold("Content-Type", true) == "Content-Type"
  {
    FoldLiteral("Content-Type", "Content-Type");
  }

  lemma ContentTypeTokens()
    ensures TokensFrom("Content-Type", 0)
  {
  }

  lemma CanonicalAuthorization()
    ensures CanonicalKey("Authorization") == "Authorization"
  {
    AuthorizationFolds();
    AuthorizationTokens();
  }

  lemma AuthorizationFolds()
    ensures CaseFold("Authorization", true) == "Authorization"
  {
    FoldLiteral("Authorization", "Authorization");
  }

  lemma AuthorizationTokens()
    ensures TokensFrom("Authorization", 0)
  {
  }

  lemma CanonicalApiKey()
    ensures CanonicalKey("X-API-Key") == "X-Api-Key"
  {
    assert TokensFrom("X-API-Key", 0);
    FoldLiteral("X-API-Key", "X-Api-Key");
  }

  /** Lower-case names are folded too. */
  lemma CanonicalLowerCase()
    ensures CanonicalKey("content-type") == "Content-Type"
  {
    assert TokensFrom("content-type", 0);
    FoldLiteral("content-type", "Content-Type");
  }

  /** A name with a space is not a token and is kept as it is. */
  lemma CanonicalNonToken()
    ensures CanonicalKey("x api") == "x api"
  {
    assert !IsTokenChar("x api"[1]);
    assert !TokensFrom("x api", 1);
  }

  lemma {:induction false} FoldLiteral(k: string, r: string)
    requires |k| == |r| && FoldsFrom(k, r, 0, true)
    ensures CaseFold(k, true) == r
  {
    FoldExample(k, r, 0, true);
    assert k[0..] == k;
    assert r[0..] == r;
  }

  /** `r` from position `i` on is `k` case-folded, a letter at `i` being upper-cased iff `upper`. */
  predicate FoldsFrom(k: string, r: string, i: nat, upper: bool)
    decreases |k| - i
  {
    i >= |k| || (i < |r| && r[i] == (if upper then UpperAscii(k[i]) else LowerAscii(k[i]))
                 && FoldsFrom(k, r, i + 1, k[i] == '-'))
  }

  lemma {:induction false} FoldExample(k: string, r: string, i: nat, upper: bool)
    requires |k| == |r| && i <= |k| && FoldsFrom(k, r, i, upper)
    ensures CaseFold(k[i..], upper) == r[i..]
    decreases |k| - i
  {
    if i < |k| {
      FoldExample(k, r, i + 1, k[i] == '-');
      assert k[i..][1..] == k[i + 1..];
      assert r[i..] == [r[i]] + r[i + 1..];
    }
  }

  /** Header.Set: the canonical key now maps to exactly this value. */
  function SetHeader(h: map<string, string>, k: string, v: string): map<string, string> {
    h[CanonicalKey(k) := v]
  }

  /** Sets the custom headers one by one, in iteration order. */
  function SetAll(h: map<string, string>, hs: seq<(string, string)>): map<string, string>
    decreases |hs|
  {
    if |hs| == 0 then h else SetHeader(SetAll(h, hs[..|hs| - 1]), hs[|hs| - 1].0, hs[|hs| - 1].1)
  }

  predicate NamesHeader(hs: seq<(string, string)>, k: string) {
    exists i :: 0 <= i < |hs| && CanonicalKey(hs[i].0) == k
  }

  lemma {:induction false} SetAllKeys(h: map<string, string>, hs: seq<(string, string)>, k: string)
    ensures k in SetAll(h, hs) <==> k in h || NamesHeader(hs, k)
    ensures !NamesHeader(hs, k) && k in h ==> SetAll(h, hs)[k] == h[k]
    decreases |hs|
  {
    if |hs| > 0 {
      var init := hs[..|hs| - 1];
      SetAllKeys(h, init, k);
      assert forall i :: 0 <= i < |init| ==> init[i] == hs[i];
      if NamesHeader(init, k) {
        var i :| 0 <= i < |init| && CanonicalKey(init[i].0) == k;
        assert CanonicalKey(hs[i].0) == k;
      }
    }
  }

  lemma {:induction false} SetAllLastWins(h: map<string, string>, hs: seq<(string, string)>, i: nat)
    requires i < |hs|
    requires forall j :: i < j < |hs| ==> CanonicalKey(hs[j].0) != CanonicalKey(hs[i].0)
    ensures CanonicalKey(hs[i].0) in SetAll(h, hs) && SetAll(h, hs)[CanonicalKey(hs[i].0)] == hs[i].1
    decreases |hs|
  {
    if i < |hs| - 1 {
      var init := hs[..|hs| - 1];
      assert init[i] == hs[i];
      SetAllLastWins(h, init, i);
    }
  }

  /** The header set by the authentication type, if any: (canonical name, value). */
  function AuthHeader(cfg: Config): Option<(string, string)> {
    if cfg.authType == "bearer" then Some(("Authorization", "Bearer " + cfg.authToken))
    else if cfg.authType == "api-key" then Some(("X-Api-Key", cfg.authToken))
    else None
  }

  /**
   * sendRequest's headers: Content-Type, then the custom headers, then
   * authentication. Header.Set canonicalises every name; the fixed names are
   * set here in their canonical forms (CanonicalContentType,
   * CanonicalAuthorization and CanonicalApiKey show that is what Set makes of them).
   */
  function RequestHeaders(cfg: Config): (h: map<string, string>)
    ensures AuthHeader(cfg).Some? ==> AuthHeader(cfg).value.0 in h && h[AuthHeader(cfg).value.0] == AuthHeader(cfg).value.1
  {
    var custom := SetAll(map["Content-Type" := "application/json"], cfg.headers);
    match AuthHeader(cfg)
    case Some((name, value)) => custom[name := value]
    case None => custom
  }

  /**
   * The request carries exactly Content-Type, the custom headers' canonical
   * names and the authentication header; authentication overrides a custom
   * header of the same name, a custom header overrides the JSON content type,
   * and among custom headers the last of a name wins.
   */
  lemma RequestHeadersContents(cfg: Config, k: string)
    ensures k in RequestHeaders(cfg)
        <==> k == "Content-Type" || NamesHeader(cfg.headers, k) || (AuthHeader(cfg).Some? && AuthHeader(cfg).value.0 == k)
    ensures k == "Content-Type" && !NamesHeader(cfg.headers, k)
            ==> RequestHeaders(cfg)[k] == "application/json"
    ensures AuthHeader(cfg).Some? && AuthHeader(cfg).value.0 == k ==> RequestHeaders(cfg)[k] == AuthHeader(cfg).value.1
  {
    SetAllKeys(map["Content-Type" := "application/json"], cfg.headers, k);
  }

  /** A custom header not overridden later, nor by authentication, reaches the request. */
  lemma RequestHeadersCustom(cfg: Config, i: nat)
    requires i < |cfg.headers|
    requires forall j :: i < j < |cfg.headers| ==> CanonicalKey(cfg.headers[j].0) != CanonicalKey(cfg.headers[i].0)
    requires AuthHeader(cfg).Some? ==> AuthHeader(cfg).value.0 != CanonicalKey(cfg.headers[i].0)
    ensures CanonicalKey(cfg.headers[i].0) in RequestHeaders(cfg)
    ensures RequestHeaders(cfg)[CanonicalKey(cfg.headers[i].0)] == cfg.headers[i].1
  {
    SetAllLastWins(map["Content-Type" := "application/json"], cfg.headers, i);
    AuthKeepsOthers(cfg, CanonicalKey(cfg.headers[i].0));
  }

  /** Authentication touches no header but its own. */
  lemma AuthKeepsOthers(cfg: Config, key: string)
    requires key in SetAll(map["Content-Type" := "application/json"], cfg.headers)
    requires AuthHeader(cfg).Some? ==> AuthHeader(cfg).value.0 != key
    ensures key in RequestHeaders(cfg)
    ensures RequestHeaders(cfg)[key] == SetAll(map["Content-Type" := "application/json"], cfg.headers)[key]
  {
  }

  // ---------------------------------------------------------------- Send

  /**
   * What happened to one attempt: the endpoint answered with a status; the
   * request failed in transport (sendRequest's status 0, which includes an
   * invalid method or URL); or the deadline or a cancellation fired during
   * the backoff wait before the attempt.
   */
  datatype Event = Response(status: int) | TransportError | Cancelled

  /** The record of a failed attempt ("attempt N failed ..."), numbered from 1. */
  datatype Failure = Failure(attempt: nat, event: Event)

  datatype SendError =
    | MarshalFailed
    | TimedOut(attempt: nat)
    | Rejected(failure: Failure)
    | Exhausted(attempts: int, last: Option<Failure>)

  /** One HTTP request: the body sent and the backoff waited before it. */
  datatype Request = Request(body: string, backoff: int)

  /** Requests made, in order, and the error returned (None for success). */
  datatype SendReport = SendReport(requests: seq<Request>, err: Option<SendError>)

  /** What the request of attempt `a` saw; there is no wait before attempt 0, so a cancellation then fails the request. */
  function Observed(trace: nat -> Event, a: nat): Event {
    if trace(a).Cancelled? then TransportError else trace(a)
  }

  predicate IsSuccess(e: Event) {
    e.Response? && 200 <= e.status < 300
  }

  /** A non-zero status that is neither success nor retryable ends the loop. */
  predicate IsFatal(e: Event) {
    e.Response? && !IsSuccess(e) && e.status > 0 && !IsRetryableStatus(e.status)
  }

  /** Attempt `a` was made and its outcome sends the loop on to the next attempt. */
  predicate Continues(trace: nat -> Event, a: nat) {
    (a == 0 || !trace(a).Cancelled?) && !IsSuccess(Observed(trace, a)) && !IsFatal(Observed(trace, a))
  }

  /** One past the last attempt number the loop may use, when starting from attempt `a`. */
  function Limit(c: Client, a: nat): nat {
    if a > c.retry.maxRetries then a else c.retry.maxRetries + 1
  }

  function Backoff(c: Client, jitter: nat -> real, a: nat): int {
    if a == 0 then 0 else CalculateBackoff(a, c.retry, jitter(a))
  }

  /**
   * What the loop from attempt `a` on (with `last` the failure recorded so
   * far) may report: its requests are attempts a, a+1, ... with the same body
   * and each its own backoff; every one but the last continued; and the last
   * one (or the wait after it) decides the outcome.
   */
  predicate LoopReport(c: Client, body: string, trace: nat -> Event, jitter: nat -> real, a: nat, last: Option<Failure>,
                       r: SendReport)
  {
    var n := |r.requests|;
    && a + n <= Limit(c, a)
    && (forall i :: 0 <= i < n ==> r.requests[i] == Request(body, Backoff(c, jitter, a + i)))
    && (forall j :: a <= j < a + n - 1 ==> Continues(trace, j))
    && (r.err.None? ==> n > 0 && (a + n - 1 == 0 || !trace(a + n - 1).Cancelled?)
                        && IsSuccess(Observed(trace, a + n - 1)))
    && (r.err.Some? && r.err.value.Rejected? ==>
          n > 0 && (a + n - 1 == 0 || !trace(a + n - 1).Cancelled?)
          && IsFatal(Observed(trace, a + n - 1))
          && r.err.value.failure == Failure(a + n, Observed(trace, a + n - 1)))
    && (r.err.Some? && r.err.value.TimedOut? ==>
          r.err.value.attempt == a + n && a + n > 0 && trace(a + n).Cancelled?
          && a + n <= c.retry.maxRetries
          && (n > 0 ==> Continues(trace, a + n - 1)))
    && (r.err.Some? && r.err.value.Exhausted? ==>
          r.err.value.attempts == c.retry.maxRetries + 1
          && a + n == Limit(c, a)
          && (n > 0 ==> Continues(trace, a + n - 1)
                        && r.err.value.last == Some(Failure(a + n, Observed(trace, a + n - 1))))
          && (n == 0 ==> r.err.value.last == last))
    && r.err != Some(MarshalFailed)
  }

  /** The loop from attempt `a` on, `last` being the failure recorded so far. */
  function Attempts(c: Client, body: string, trace: nat -> Event, jitter: nat -> real, a: nat, last: Option<Failure>)
    : (r: SendReport)
    ensures LoopReport(c, body, trace, jitter, a, last, r)
    decreases c.retry.maxRetries + 1 - a
  {
    if a > c.retry.maxRetries then SendReport([], Some(Exhausted(c.retry.maxRetries + 1, last)))
    else if a > 0 && trace(a).Cancelled? then SendReport([], Some(TimedOut(a)))
    else
      var req := Request(body, Backoff(c, jitter, a));
      var event := Observed(trace, a);
      if IsSuccess(event) then SendReport([req], None)
      else
        var failure := Failure(a + 1, event);
        if event.Response? && event.status > 0 && !IsRetryableStatus(event.status) then
          SendReport([req], Some(Rejected(failure)))
        else
          var rest := Attempts(c, body, trace, jitter, a + 1, Some(failure));
          LoopReportStep(c, body, trace, jitter, a, last, rest);
          SendReport([req] + rest.requests, rest.err)
  }

  /** A continuing attempt followed by the rest of the loop is a report of the loop from that attempt. */
  lemma LoopReportStep(c: Client, body: string, trace: nat -> Event, jitter: nat -> real, a: nat, last: Option<Failure>,
                       rest: SendReport)
    requires a <= c.retry.maxRetries && Continues(trace, a)
    requires LoopReport(c, body, trace, jitter, a + 1, Some(Failure(a + 1, Observed(trace, a))), rest)
    ensures LoopReport(c, body, trace, jitter, a, last,
                       SendReport([Request(body, Backoff(c, jitter, a))] + rest.requests, rest.err))
  {
    var requests := [Request(body, Backoff(c, jitter, a))] + rest.requests;
    assert forall i :: 1 <= i < |requests| ==> requests[i] == rest.requests[i - 1];
    assert Limit(c, a + 1) == Limit(c, a);
  }

  /**
   * Send: marshal the payload once (None is a marshalling error), then run
   * the attempt loop from attempt 0 with no failure recorded.
   */
  function Send(c: Client, payload: Option<string>, trace: nat -> Event, jitter: nat -> real): (r: SendReport)
    ensures payload.None? <==> r == SendReport([], Some(MarshalFailed))
    ensures payload.Some? ==> forall i :: 0 <= i < |r.requests| ==> r.requests[i].body == payload.value
    ensures |r.requests| <= if c.retry.maxRetries < 0 then 0 else c.retry.maxRetries + 1
    ensures |r.requests| > 0 ==> r.requests[0].backoff == 0
  {
    match payload
    case None => SendReport([], Some(MarshalFailed))
    case Some(body) => Attempts(c, body, trace, jitter, 0, None)
  }

  /** Only the attempts after the first wait, each for calculateBackoff of its own number. */
  lemma SendBackoffs(c: Client, body: string, trace: nat -> Event, jitter: nat -> real)
    ensures var r := Send(c, Some(body), trace, jitter);
            forall i :: 0 < i < |r.requests| ==> r.requests[i].backoff == CalculateBackoff(i, c.retry, jitter(i))
  {
  }

  /** Success means the last attempt got a 2xx and every attempt before it failed retryably. */
  lemma SendSucceeded(c: Client, body: string, trace: nat -> Event, jitter: nat -> real)
    requires Send(c, Some(body), trace, jitter).err.None?
    ensures var n := |Send(c, Some(body), trace, jitter).requests|;
            && n > 0 && IsSuccess(Observed(trace, n - 1))
            && forall i :: 0 <= i < n - 1 ==> Continues(trace, i)
  {
  }

  /** A first 2xx response ends the loop at once: one request, no error. */
  lemma SendFirstSuccess(c: Client, body: string, trace: nat -> Event, jitter: nat -> real)
    requires c.retry.maxRetries >= 0 && IsSuccess(trace(0))
    ensures Send(c, Some(body), trace, jitter) == SendReport([Request(body, 0)], None)
  {
  }

  /** A non-retryable status stops after that attempt, naming the attempt and the status. */
  lemma SendRejected(c: Client, body: string, trace: nat -> Event, jitter: nat -> real)
    requires Send(c, Some(body), trace, jitter).err.Some?
    requires Send(c, Some(body), trace, jitter).err.value.Rejected?
    ensures var r := Send(c, Some(body), trace, jitter);
            var n := |r.requests|;
            && r.err.value.failure.attempt == n
            && r.err.value.failure.event.Response?
            && !IsRetryableStatus(r.err.value.failure.event.status)
            && !(200 <= r.err.value.failure.event.status < 300)
  {
  }

  /**
   * When every attempt fails in transport and nothing is cancelled, all
   * MaxRetries+1 attempts are made and the error names that count and the
   * last failure.
   */
  lemma {:induction false} AttemptsAllFail(c: Client, body: string, trace: nat -> Event, jitter: nat -> real, a: nat, last: Option<Failure>)
    requires 0 < a <= c.retry.maxRetries + 1 || (a == 0 && c.retry.maxRetries >= 0 && last.None?)
    requires a > 0 ==> last == Some(Failure(a, TransportError))
    requires forall i :: 0 <= i ==> trace(i) == TransportError
    ensures Attempts(c, body, trace, jitter, a, last).err
         == Some(Exhausted(c.retry.maxRetries + 1, Some(Failure(c.retry.maxRetries + 1, TransportError))))
    decreases c.retry.maxRetries + 1 - a
  {
    if a <= c.retry.maxRetries {
      AttemptsAllFail(c, body, trace, jitter, a + 1, Some(Failure(a + 1, TransportError)));
    }
  }

  lemma SendExhausted(c: Client, body: string, trace: nat -> Event, jitter: nat -> real)
    requires c.retry.maxRetries >= 0
    requires forall i :: 0 <= i ==> trace(i) == TransportError
    ensures Send(c, Some(body), trace, jitter).err
         == Some(Exhausted(c.retry.maxRetries + 1, Some(Failure(c.retry.maxRetries + 1, TransportError))))
    ensures |Send(c, Some(body), trace, jitter).requests| == c.retry.maxRetries + 1
  {
    AttemptsAllFail(c, body, trace, jitter, 0, None);
  }

  /** A negative MaxRetries makes no attempt at all. */
  lemma SendNoAttempts(c: Client, body: string, trace: nat -> Event, jitter: nat -> real)
    requires c.retry.maxRetries < 0
    ensures Send(c, Some(body), trace, jitter) == SendReport([], Some(Exhausted(c.retry.maxRetries + 1, None)))
  {
  }

  /** A cancellation during a backoff wait returns at once, with the number of the attempt that was waiting. */
  lemma SendCancelled(c: Client, body: string, trace: nat -> Event, jitter: nat -> real)
    requires Send(c, Some(body), trace, jitter).err.Some?
    requires Send(c, Some(body), trace, jitter).err.value.TimedOut?
    ensures var r := Send(c, Some(body), trace, jitter);
            && r.err.value.attempt == |r.requests|
            && r.err.value.attempt > 0
            && trace(r.err.value.attempt).Cancelled?
  {
  }
}
