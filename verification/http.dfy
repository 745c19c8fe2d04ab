/** The retrying JSON transport of packages/sdk/src/http.ts.

    Each attempt's fetch is an abstract `Outcome` supplied by the oracle
    `Host.fetch`, indexed by attempt number (1, 2, ...). The oracles also
    give `Math.random()` per attempt, `Date.now()` per attempt, `Number(text)`
    and `Date.parse(text)` (both `None` when the result is not finite) and
    `JSON.parse` (`None` when it throws). Sleeping is recorded as the list
    of delays, not performed. */
module Http {
  import opened Base
  import opened Errors

  /** What one `fetchImpl` call ends in. `body` is the response text
      (`None` when reading it fails with a TypeError). */
  datatype Outcome =
    | Response(status: int, retryAfter: Option<string>, body: Option<string>)
    | FetchTypeError(message: string)   // connection-level failure
    | FetchAborted(timeout: bool)       // the per-attempt timeout or the caller's signal fired
    | FetchThrew(message: string)       // any other exception from fetchImpl

  datatype Host = Host(
    fetch: nat -> Outcome,
    random: nat -> real,
    clock: nat -> int,
    toNumber: string -> Option<real>,
    dateParse: string -> Option<int>,
    parse: string -> Option<Json>)

  /** `Math.random()` lies in [0, 1). */
  ghost predicate RandomInRange(h: Host)
  {
    forall a: nat :: 0.0 <= h.random(a) < 1.0
  }

  datatype HttpOptions = HttpOptions(
    baseUrl: string,
    apiKey: string,
    userAgent: Option<string>,
    timeoutMs: real,
    maxRetries: int)

  /** `resp.ok`. */
  predicate IsOk(status: int)
  {
    200 <= status <= 299
  }

  /** `isRetriableStatus`: request timeout, too many requests, or a server error. */
  function IsRetriableStatus(status: int): (r: bool)
    ensures r ==> !IsOk(status) && status != 401 && status != 403
    ensures r <==> status in {408, 429} || (500 <= status && status < 600)
  {
    status == 408 || status == 429 || (status >= 500 && status <= 599)
  }

  /** `parseRetryAfterMs` (section 10.2.3 of RFC 9110 allows delay-seconds
      or an HTTP-date; the source accepts any finite JavaScript number as
      seconds). The result is never negative. */
  function ParseRetryAfterMs(header: Option<string>, toNumber: string -> Option<real>,
                             dateParse: string -> Option<int>, now: int): (r: Option<real>)
    ensures r.Some? ==> r.value >= 0.0
    ensures header.None? || header == Some("") ==> r.None?
    ensures header.Some? && header.value != "" && toNumber(header.value).Some? ==>
              r == Some(Max(0.0, toNumber(header.value).value * 1000.0))
    ensures header.Some? && header.value != "" && toNumber(header.value).None? ==>
              if dateParse(header.value).Some? then r == Some(Max(0.0, (dateParse(header.value).value - now) as real))
              else r.None?
  {
    match header
    case None => None
    case Some(h) =>
      if h == "" then None
      else match toNumber(h)
        case Some(seconds) => Some(Max(0.0, seconds * 1000.0))
        case None =>
          match dateParse(h)
          case Some(date) => Some(Max(0.0, (date - now) as real))
          case None => None
  }

  function Max(a: real, b: real): real
  {
    if a >= b then a else b
  }

  function Pow2(k: nat): (r: nat)
    ensures r >= 1
  {
    if k == 0 then 1 else 2 * Pow2(k - 1)
  }

  lemma {:induction false} Pow2Monotone(j: nat, k: nat)
    requires j <= k
    ensures Pow2(j) <= Pow2(k)
  {
    if j < k {
      Pow2Monotone(j, k - 1);
    }
  }

  /** The deterministic part of `backoffMs(attempt)`: 250 ms doubled per
      attempt after the first, capped at 5000 ms. */
  function BackoffBase(attempt: int): (r: int)
    ensures 250 <= r <= 5000
  {
    var k := if attempt - 1 > 0 then attempt - 1 else 0;
    if 250 * Pow2(k) < 5000 then 250 * Pow2(k) else 5000
  }

  /** The backoff never shrinks as the attempt number grows. */
  lemma {:induction false} BackoffMonotone(a: int, b: int)
    requires a <= b
    ensures BackoffBase(a) <= BackoffBase(b)
  {
    var ka := if a - 1 > 0 then a - 1 else 0;
    var kb := if b - 1 > 0 then b - 1 else 0;
    Pow2Monotone(ka, kb);
  }

  /** `backoffMs(attempt)` with `Math.random()` = `random`: the base plus up
      to 20% jitter. */
  function BackoffMs(attempt: int, random: real): (r: real)
    requires 0.0 <= random < 1.0
    ensures BackoffBase(attempt) as real <= r < 1.2 * (BackoffBase(attempt) as real)
  {
    var e := BackoffBase(attempt) as real;
    e + Jitter(random, e)
  }

  /** `Math.random() * 0.2 * exp`: below a fifth of `exp`. */
  function Jitter(random: real, e: real): (r: real)
    requires 0.0 <= random < 1.0 && e > 0.0
    ensures 0.0 <= r < 0.2 * e
  {
    var x := 0.2 * e;
    assert x - random * x == (1.0 - random) * x;
    assert (1.0 - random) * x > 0.0;
    random * x
  }

  /** Characters removed by `replace(/\/+$/, '')` and `replace(/^\/+/, '')`. */
  function TrimTrailingSlashes(s: string): (r: string)
    ensures |r| <= |s| && r == s[..|r|] && (r == [] || r[|r| - 1] != '/')
    ensures forall k :: |r| <= k < |s| ==> s[k] == '/'
  {
    if s != [] && s[|s| - 1] == '/' then TrimTrailingSlashes(s[..|s| - 1]) else s
  }

  function TrimLeadingSlashes(s: string): (r: string)
    ensures |r| <= |s| && r == s[|s| - |r|..] && (r == [] || r[0] != '/')
    ensures forall k :: 0 <= k < |s| - |r| ==> s[k] == '/'
  {
    if s != [] && s[0] == '/' then TrimLeadingSlashes(s[1..]) else s
  }

  /** `b` is `baseUrl` less all its trailing slashes and `p` is `path` less
      all its leading slashes. */
  ghost predicate UrlParts(baseUrl: string, path: string, b: string, p: string)
  {
    && |b| <= |baseUrl| && b == baseUrl[..|b|] && (b == [] || b[|b| - 1] != '/')
    && (forall k :: |b| <= k < |baseUrl| ==> baseUrl[k] == '/')
    && |p| <= |path| && p == path[|path| - |p|..] && (p == [] || p[0] != '/')
    && (forall k :: 0 <= k < |path| - |p| ==> path[k] == '/')
  }

  /** The request URL of httpJson: `new URL(path without leading slashes,
      base without trailing slashes + '/')`. A relative-path reference
      resolved against a base whose path ends in `/` is appended to it
      (section 5.2.3 of RFC 3986), so the URL is the trimmed base, one `/`,
      and the trimmed path. */
  function JoinUrl(baseUrl: string, path: string): (r: string)
    ensures exists b, p :: UrlParts(baseUrl, path, b, p) && r == b + "/" + p
  {
    var b, p := TrimTrailingSlashes(baseUrl), TrimLeadingSlashes(path);
    assert UrlParts(baseUrl, path, b, p);
    b + "/" + p
  }

  /** The headers httpJson sends: JSON content type, the bearer credential,
      the user agent when it is a non-empty string, then the caller's extra
      headers, which override. */
  function RequestHeaders(apiKey: string, userAgent: Option<string>, extra: map<string, string>): (h: map<string, string>)
    ensures forall k :: k in extra ==> k in h && h[k] == extra[k]
    ensures "authorization" !in extra ==> "authorization" in h && h["authorization"] == "Bearer " + apiKey
    ensures "content-type" !in extra ==> "content-type" in h && h["content-type"] == "application/json"
    ensures "user-agent" !in extra ==> ("user-agent" in h <==> userAgent.Some? && userAgent.value != "")
    ensures "user-agent" !in extra && userAgent.Some? && userAgent.value != "" ==> h["user-agent"] == userAgent.value
    ensures h.Keys == {"content-type", "authorization"} + (if userAgent.Some? && userAgent.value != "" then {"user-agent"} else {}) + extra.Keys
  {
    var base := map["content-type" := "application/json", "authorization" := "Bearer " + apiKey];
    var withAgent := if userAgent.Some? && userAgent.value != "" then base["user-agent" := userAgent.value] else base;
    withAgent + extra
  }

  /** `Math.max(1, maxRetries + 1)`, the loop's bound. */
  function MaxAttempts(maxRetries: int): (n: nat)
    ensures n >= 1 && n >= maxRetries + 1
  {
    if maxRetries + 1 > 1 then maxRetries + 1 else 1
  }

  /** Which guard decides whether a retriable failure sleeps and continues.
      `AsWritten` is the source's `attempt <= maxRetries + 1`; `Corrected`
      continues only when another attempt remains. */
  datatype Guard = AsWritten | Corrected

  predicate MayRetry(g: Guard, attempt: nat, maxRetries: int)
  {
    match g
    case AsWritten => attempt <= maxRetries + 1
    case Corrected => attempt < MaxAttempts(maxRetries)
  }

  /** What httpJson produced: its result, how many times it called fetch,
      and the delays it slept, in order. */
  datatype Trace = Trace(result: Result<Json, Thrown>, calls: nat, sleeps: seq<real>)

  function Prepend(calls: nat, sleeps: seq<real>, t: Trace): Trace
  {
    Trace(t.result, calls + t.calls, sleeps + t.sleeps)
  }

  const NetworkMessage := "Network error while calling API."
  const ExhaustedError := Neo(NewError(Network, "Exhausted retries.", NoOptions))
  const MissingKeyError := Neo(NewError(Auth, "Missing API key", NoOptions))

  function AuthFailure(status: int): Thrown
  {
    Neo(NewError(Auth, "Authentication failed (check NEO_APIKEY).", ErrorOptions(None, Some(status), None)))
  }

  function RateLimitFailure(retryAfterMs: Option<real>, body: Option<string>): Thrown
  {
    var e := NewRateLimitError("Rate limited by API.", Some(429), None, retryAfterMs);
    Neo(e.(body := if body.Some? then Some(JStr(body.value)) else None))
  }

  /** `safeReadJson`: the parsed body, or nothing. When `resp.json()` fails
      the body stream has already been consumed, so the fallback
      `resp.text()` rejects too and `safeReadText` yields `undefined`. */
  function SafeReadJson(body: Option<string>, parse: string -> Option<Json>): Option<Json>
  {
    if body.Some? then parse(body.value) else None
  }

  function ApiFailure(status: int, body: Option<Json>): Thrown
  {
    Neo(NewApiError("API request failed with status " + IntToString(status) + ".", Some(status), body, None))
  }

  function NetworkFailure(cause: Thrown): Thrown
  {
    Neo(NewError(Network, NetworkMessage, ErrorOptions(None, None, Some(cause))))
  }

  /** The delay slept after a retriable outcome of attempt `a`. */
  function RetryDelay(o: Outcome, a: nat, h: Host): real
    requires RandomInRange(h)
  {
    if o.Response? && o.status == 429 then
      ParseRetryAfterMs(o.retryAfter, h.toNumber, h.dateParse, h.clock(a)).GetOr(BackoffMs(a, h.random(a)))
    else BackoffMs(a, h.random(a))
  }

  /** Whether an outcome is one the loop retries when the guard allows it:
      a 429, another retriable status, a network TypeError, or a 2xx whose
      body could not be read (the read's TypeError). */
  predicate Retriable(o: Outcome)
  {
    || o.FetchTypeError?
    || (o.Response? && o.status != 401 && o.status != 403 && IsRetriableStatus(o.status))
    || (o.Response? && IsOk(o.status) && o.body.None?)
  }

  /** The TypeError `resp.json()` throws when the body stream cannot be read.
      Its message comes from the runtime's fetch implementation, which is not
      part of this model; one fixed text stands for it. */
  const BodyReadError := TypeErr("body read failed")

  /** The error one outcome raises when it is not retried (or cannot be). */
  function Failure(o: Outcome, a: nat, h: Host): Thrown
    requires RandomInRange(h)
  {
    match o
    case FetchAborted(t) => Abort(t)
    case FetchTypeError(m) => NetworkFailure(TypeErr(m))
    case FetchThrew(m) => NetworkFailure(Plain(m))
    case Response(s, ra, body) =>
      if s == 401 || s == 403 then AuthFailure(s)
      else if s == 429 then RateLimitFailure(ParseRetryAfterMs(ra, h.toNumber, h.dateParse, h.clock(a)), body)
      else if !IsOk(s) then ApiFailure(s, SafeReadJson(body, h.parse))
      else if body.None? then NetworkFailure(BodyReadError)
      else NetworkFailure(SyntaxErr(body.value))
  }

  /** The attempts loop from attempt `a` on. */
  function Attempts(opts: HttpOptions, h: Host, g: Guard, a: nat): Trace
    requires RandomInRange(h)
    requires a >= 1
    decreases MaxAttempts(opts.maxRetries) + 1 - a
  {
    if a > MaxAttempts(opts.maxRetries) then Trace(Err(ExhaustedError), 0, [])
    else
      var o := h.fetch(a);
      if o.Response? && IsOk(o.status) && o.body.Some? && h.parse(o.body.value).Some? then
        Trace(Ok(h.parse(o.body.value).value), 1, [])
      else if Retriable(o) && MayRetry(g, a, opts.maxRetries) then
        Prepend(1, [RetryDelay(o, a, h)], Attempts(opts, h, g, a + 1))
      else
        Trace(Err(Failure(o, a, h)), 1, [])
  }

  /** httpJson from the credential check on. */
  function Run(opts: HttpOptions, h: Host, g: Guard): Trace
    requires RandomInRange(h)
  {
    if opts.apiKey == "" then Trace(Err(MissingKeyError), 0, [])
    else Attempts(opts, h, g, 1)
  }

  /** `httpJson`: the attempt loop as written, proved equal to `Run` with
      the source's guard. */
  /** One pass of httpJson's loop body on attempt `attempt`: either it ends
      the call with `result`, or it sleeps `delay` and continues. */
  method AttemptOnce(opts: HttpOptions, h: Host, attempt: nat) returns (done: bool, result: Result<Json, Thrown>, delay: real)
    requires RandomInRange(h)
    requires 1 <= attempt <= MaxAttempts(opts.maxRetries)
    ensures done ==> Attempts(opts, h, AsWritten, attempt) == Trace(result, 1, [])
    ensures !done ==> Attempts(opts, h, AsWritten, attempt) == Prepend(1, [delay], Attempts(opts, h, AsWritten, attempt + 1))
  {
    done, result, delay := true, Err(ExhaustedError), 0.0;
    var o := h.fetch(attempt);
    match o {
      case FetchAborted(timeout) =>
        result := Err(Abort(timeout));
      case FetchThrew(m) =>
        result := Err(NetworkFailure(Plain(m)));
      case FetchTypeError(m) =>
        if attempt <= opts.maxRetries + 1 {
          done, delay := false, BackoffMs(attempt, h.random(attempt));
        } else {
          result := Err(NetworkFailure(TypeErr(m)));
        }
      case Response(status, retryAfter, body) =>
        if status == 401 || status == 403 {
          result := Err(AuthFailure(status));
        } else if status == 429 {
          var retryAfterMs := ParseRetryAfterMs(retryAfter, h.toNumber, h.dateParse, h.clock(attempt));
          if attempt <= opts.maxRetries + 1 {
            done, delay := false, retryAfterMs.GetOr(BackoffMs(attempt, h.random(attempt)));
          } else {
            result := Err(RateLimitFailure(retryAfterMs, body));
          }
        } else if !IsOk(status) {
          var errBody := SafeReadJson(body, h.parse);
          if IsRetriableStatus(status) && attempt <= opts.maxRetries + 1 {
            done, delay := false, BackoffMs(attempt, h.random(attempt));
          } else {
            result := Err(ApiFailure(status, errBody));
          }
        } else if body.None? {
          // `resp.json()` failed to read the body: a TypeError, retried
          // like a connection-level failure.
          if attempt <= opts.maxRetries + 1 {
            done, delay := false, BackoffMs(attempt, h.random(attempt));
          } else {
            result := Err(NetworkFailure(BodyReadError));
          }
        } else {
          // `resp.json()` read the body: it parses, or it is a SyntaxError.
          match h.parse(body.value) {
            case Some(json) =>
              result := Ok(json);
            case None =>
              result := Err(NetworkFailure(SyntaxErr(body.value)));
          }
        }
    }
  }

  /** `httpJson`: the attempt loop as written, proved equal to `Run` with
      the source's guard. */
  method HttpJson(opts: HttpOptions, h: Host) returns (result: Result<Json, Thrown>, calls: nat, sleeps: seq<real>)
    requires RandomInRange(h)
    ensures Trace(result, calls, sleeps) == Run(opts, h, AsWritten)
    ensures calls <= MaxAttempts(opts.maxRetries)
    ensures opts.apiKey == "" ==> calls == 0 && result == Err(MissingKeyError)
  {
    calls, sleeps := 0, [];
    if opts.apiKey == "" {
      result := Err(MissingKeyError);
      return;
    }
    var attempt: nat := 1;
    while attempt <= MaxAttempts(opts.maxRetries)
      invariant 1 <= attempt <= MaxAttempts(opts.maxRetries) + 1
      invariant calls == attempt - 1
      invariant Run(opts, h, AsWritten) == Prepend(calls, sleeps, Attempts(opts, h, AsWritten, attempt))
    {
      var done, r, delay := AttemptOnce(opts, h, attempt);
      calls := calls + 1;
      if done {
        result := r;
        return;
      }
      ghost var rest := Attempts(opts, h, AsWritten, attempt + 1);
      assert sleeps + ([delay] + rest.sleeps) == (sleeps + [delay]) + rest.sleeps;
      sleeps := sleeps + [delay];
      attempt := attempt + 1;
    }
    result := Err(ExhaustedError);
  }

  /** Fetch is called at most `max(1, maxRetries + 1)` times, whichever guard. */
  lemma {:induction false} AttemptsBound(opts: HttpOptions, h: Host, g: Guard, a: nat)
    requires RandomInRange(h) && a >= 1
    ensures a <= MaxAttempts(opts.maxRetries) + 1 ==> Attempts(opts, h, g, a).calls <= MaxAttempts(opts.maxRetries) + 1 - a
    ensures |Attempts(opts, h, g, a).sleeps| <= Attempts(opts, h, g, a).calls
    decreases MaxAttempts(opts.maxRetries) + 1 - a
  {
    if a <= MaxAttempts(opts.maxRetries) {
      AttemptsBound(opts, h, g, a + 1);
    }
  }

  /** Every delay slept follows the policy: the k-th sleep of the run from
      attempt `a` follows a retriable outcome of attempt a + k, and is the
      parsed `Retry-After` on a 429 when there is one, `backoffMs(a + k)`
      otherwise. */
  lemma {:induction false} SleepsFollowPolicy(opts: HttpOptions, h: Host, g: Guard, a: nat, k: nat)
    requires RandomInRange(h) && a >= 1
    requires k < |Attempts(opts, h, g, a).sleeps|
    ensures Retriable(h.fetch(a + k))
    ensures Attempts(opts, h, g, a).sleeps[k] == RetryDelay(h.fetch(a + k), a + k, h)
    decreases k
  {
    var o := h.fetch(a);
    assert Retriable(o) && MayRetry(g, a, opts.maxRetries);
    if k > 0 {
      SleepsFollowPolicy(opts, h, g, a + 1, k - 1);
      assert a + 1 + (k - 1) == a + k;
    }
  }

  /** Outcomes that never trigger a retry: they end the call on the attempt
      they occur in, whichever guard. */
  lemma {:induction false} ImmediateFailures(opts: HttpOptions, h: Host, g: Guard, a: nat)
    requires RandomInRange(h) && 1 <= a <= MaxAttempts(opts.maxRetries)
    ensures h.fetch(a).FetchAborted? ==>
              Attempts(opts, h, g, a) == Trace(Err(Abort(h.fetch(a).timeout)), 1, [])
    ensures h.fetch(a).Response? && h.fetch(a).status in {401, 403} ==>
              Attempts(opts, h, g, a) == Trace(Err(AuthFailure(h.fetch(a).status)), 1, [])
    ensures h.fetch(a).Response? && !IsOk(h.fetch(a).status) && !IsRetriableStatus(h.fetch(a).status)
              && h.fetch(a).status !in {401, 403} ==>
              Attempts(opts, h, g, a) == Trace(Err(ApiFailure(h.fetch(a).status, SafeReadJson(h.fetch(a).body, h.parse))), 1, [])
  {
  }

  /** Persistent retriable failures on every attempt. */
  predicate AllRetriable(h: Host, from: nat, to: nat)
  {
    forall a :: from <= a <= to ==> Retriable(h.fetch(a))
  }

  /** With the source's guard and `maxRetries >= 0`, a run of retriable
      failures sleeps after every attempt, the last one included, and ends
      in the generic "Exhausted retries." network error: the rate-limit and
      API errors never reach the caller. */
  lemma {:induction false} PersistentFailureExhausts(opts: HttpOptions, h: Host, a: nat)
    requires RandomInRange(h) && opts.maxRetries >= 0
    requires 1 <= a <= MaxAttempts(opts.maxRetries) + 1
    requires AllRetriable(h, a, MaxAttempts(opts.maxRetries))
    ensures Attempts(opts, h, AsWritten, a).result == Err(ExhaustedError)
    ensures Attempts(opts, h, AsWritten, a).calls == MaxAttempts(opts.maxRetries) + 1 - a
    ensures |Attempts(opts, h, AsWritten, a).sleeps| == MaxAttempts(opts.maxRetries) + 1 - a
    decreases MaxAttempts(opts.maxRetries) + 1 - a
  {
    if a <= MaxAttempts(opts.maxRetries) {
      var o := h.fetch(a);
      assert Retriable(o);
      PersistentFailureExhausts(opts, h, a + 1);
    }
  }

  /** With the corrected guard the same run surfaces the last attempt's own
      error (a rate-limit error carrying `Retry-After`, an API error with
      status and body, or a network error with its cause), and does not
      sleep after the last attempt. */
  lemma {:induction false} CorrectedSurfacesLastFailure(opts: HttpOptions, h: Host, a: nat)
    requires RandomInRange(h)
    requires 1 <= a <= MaxAttempts(opts.maxRetries)
    requires AllRetriable(h, a, MaxAttempts(opts.maxRetries))
    ensures var n := MaxAttempts(opts.maxRetries);
      Attempts(opts, h, Corrected, a) == Trace(Err(Failure(h.fetch(n), n, h)), n + 1 - a, Attempts(opts, h, Corrected, a).sleeps)
    ensures |Attempts(opts, h, Corrected, a).sleeps| == MaxAttempts(opts.maxRetries) - a
    ensures Attempts(opts, h, Corrected, a).result != Err(ExhaustedError)
    decreases MaxAttempts(opts.maxRetries) + 1 - a
  {
    var o := h.fetch(a);
    assert Retriable(o);
    if a < MaxAttempts(opts.maxRetries) {
      CorrectedSurfacesLastFailure(opts, h, a + 1);
    } else {
      assert Failure(o, a, h).Neo? ==> Failure(o, a, h).err.message != "Exhausted retries.";
    }
  }

  /** With a negative `maxRetries` the source's guard is false on the only
      attempt, so there the error does surface. */
  lemma {:induction false} NegativeRetriesSurface(opts: HttpOptions, h: Host)
    requires RandomInRange(h) && opts.apiKey != "" && opts.maxRetries < 0
    requires Retriable(h.fetch(1))
    ensures Run(opts, h, AsWritten) == Trace(Err(Failure(h.fetch(1), 1, h)), 1, [])
  {
  }

  /** The retry test: 500, 500, then a JSON 200 with `maxRetries = 3` makes
      exactly three calls and returns the parsed body. */
  lemma {:induction false} RetryThenSucceed(opts: HttpOptions, h: Host, text: string, json: Json)
    requires RandomInRange(h) && opts.apiKey != "" && opts.maxRetries == 3
    requires h.fetch(1).Response? && h.fetch(1).status == 500
    requires h.fetch(2).Response? && h.fetch(2).status == 500
    requires h.fetch(3) == Response(200, None, Some(text)) && h.parse(text) == Some(json)
    ensures Run(opts, h, AsWritten).result == Ok(json)
    ensures Run(opts, h, AsWritten).calls == 3
    ensures |Run(opts, h, AsWritten).sleeps| == 2
  {
    assert MaxAttempts(opts.maxRetries) == 4;
    assert Retriable(h.fetch(1)) && Retriable(h.fetch(2));
    assert Attempts(opts, h, AsWritten, 3) == Trace(Ok(json), 1, []);
    assert Attempts(opts, h, AsWritten, 2) == Prepend(1, [RetryDelay(h.fetch(2), 2, h)], Attempts(opts, h, AsWritten, 3));
    assert Attempts(opts, h, AsWritten, 1) == Prepend(1, [RetryDelay(h.fetch(1), 1, h)], Attempts(opts, h, AsWritten, 2));
  }
}
