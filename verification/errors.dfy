/** The SDK's error taxonomy (packages/sdk/src/errors.ts) as one tagged value.
    The five classes NeoError, NeoAuthError, NeoRateLimitError,
    NeoNetworkError and NeoAPIError become the five `Kind`s of `NeoError`;
    optional fields are `Option`s that are `Some` exactly when the class's
    constructor set them. `Thrown` is everything the SDK lets escape. */
module Errors {
  import opened Base

  datatype Kind = General | Auth | RateLimited | Network | Api

  /** One exception as it propagates out of SDK code. */
  datatype Thrown =
    | Neo(err: NeoError)          // an instance of one of the five SDK classes
    | Abort(timeout: bool)        // DOMException AbortError (false) or TimeoutError (true), never wrapped
    | TypeErr(message: string)    // a TypeError, e.g. fetch's connection-level failure
    | SyntaxErr(text: string)     // JSON.parse rejected `text`
    | SchemaErr                   // a zod schema rejected its input (ZodError)
    | Plain(message: string)      // any other Error

  /** An instance of the SDK's error hierarchy. `body` is set by NeoAPIError's
      constructor, and on rate-limit errors by httpJson, which attaches the
      response text to the error after constructing it. */
  datatype NeoError = NeoError(
    kind: Kind,
    message: string,
    code: Option<string>,
    status: Option<int>,
    cause: Option<Thrown>,
    retryAfterMs: Option<real>,
    body: Option<Json>)

  /** The constructor options of NeoError, NeoAuthError and NeoNetworkError. */
  datatype ErrorOptions = ErrorOptions(code: Option<string>, status: Option<int>, cause: Option<Thrown>)

  const NoOptions := ErrorOptions(None, None, None)

  /** What every constructed error satisfies: the fixed codes of the
      rate-limit and API classes, and the class-specific fields only on
      their classes. */
  predicate WellFormed(e: NeoError)
  {
    && (e.kind == RateLimited ==> e.code == Some("rate_limited"))
    && (e.kind == Api ==> e.code == Some("api_error"))
    && (e.retryAfterMs.Some? ==> e.kind == RateLimited)
    && (e.body.Some? ==> e.kind == Api || e.kind == RateLimited)
  }

  /** `new NeoError(message, opts)`, and the same constructor inherited by
      NeoAuthError and NeoNetworkError, which add no field and no code. */
  function NewError(kind: Kind, message: string, opts: ErrorOptions): (e: NeoError)
    requires kind == General || kind == Auth || kind == Network
    ensures WellFormed(e)
    ensures e.kind == kind && e.message == message
    ensures e.code == opts.code && e.status == opts.status && e.cause == opts.cause
    ensures e.retryAfterMs.None? && e.body.None?
  {
    NeoError(kind, message, opts.code, opts.status, opts.cause, None, None)
  }

  /** `new NeoRateLimitError(message, {status, cause, retryAfterMs})`. */
  function NewRateLimitError(message: string, status: Option<int>, cause: Option<Thrown>, retryAfterMs: Option<real>): (e: NeoError)
    ensures WellFormed(e)
    ensures e.kind == RateLimited && e.message == message
    ensures e.code == Some("rate_limited")
    ensures e.status == status && e.cause == cause && e.retryAfterMs == retryAfterMs && e.body.None?
  {
    NeoError(RateLimited, message, Some("rate_limited"), status, cause, retryAfterMs, None)
  }

  /** `new NeoAPIError(message, {status, body, cause})`. */
  function NewApiError(message: string, status: Option<int>, body: Option<Json>, cause: Option<Thrown>): (e: NeoError)
    ensures WellFormed(e)
    ensures e.kind == Api && e.message == message
    ensures e.code == Some("api_error")
    ensures e.status == status && e.body == body && e.cause == cause && e.retryAfterMs.None?
  {
    NeoError(Api, message, Some("api_error"), status, cause, None, body)
  }

  /** The `name` property each class overrides. */
  function Name(k: Kind): (n: string)
    ensures KindOfName(n) == Some(k)
  {
    match k
    case General => "NeoError"
    case Auth => "NeoAuthError"
    case RateLimited => "NeoRateLimitError"
    case Network => "NeoNetworkError"
    case Api => "NeoAPIError"
  }

  /** Recovers the class from its `name`. */
  function KindOfName(n: string): Option<Kind>
  {
    if n == "NeoError" then Some(General)
    else if n == "NeoAuthError" then Some(Auth)
    else if n == "NeoRateLimitError" then Some(RateLimited)
    else if n == "NeoNetworkError" then Some(Network)
    else if n == "NeoAPIError" then Some(Api)
    else None
  }

  /** The five names are distinct, so an error's class can be told from its name. */
  lemma {:induction false} NamesDistinct(k1: Kind, k2: Kind)
    ensures Name(k1) == Name(k2) <==> k1 == k2
  {
    if Name(k1) == Name(k2) {
      assert KindOfName(Name(k1)) == Some(k1);
    }
  }
}
