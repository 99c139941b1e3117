/**
 * Requests as the helpers build them, and the result mapping of the unary
 * `doGetRequest` / `doPostRequest` helpers.  The network exchange and Gson's
 * `fromJson` are abstract inputs; the functions say what the call returns.
 */
module Http {
  import opened Common
  import opened Streaming

  datatype HttpMethod = Get | Post

  /** One `append(name, value)` in a `headers { ... }` block. */
  datatype Header = Header(name: string, value: string)

  datatype PartContent = TextContent(text: string) | BytesContent(bytes: seq<bv8>)

  /** One part of a multipart/form-data body: its form name, content and part headers. */
  datatype Part = Part(name: string, content: PartContent, headers: seq<Header>)

  datatype Body =
    | NoBody
    | TextBody(text: string)
      /** `setBody(requestBody)` with a nullable `Any?`, given by its text form. */
    | AnyBody(value: Option<string>)
    | MultipartBody(parts: seq<Part>)

  /**
   * A request: method, URL, the caller's headers in the map's iteration order,
   * the content type set through `contentType(...)` (if any) and the body.
   */
  datatype Request = Request(verb: HttpMethod, url: string, headers: seq<Header>, contentType: Option<string>, body: Body)

  /** What the exchange produced: the response body as text, or a throwable. */
  datatype Fetch = BodyText(text: string) | FetchFailed(error: Throwable)

  /** Gson's `fromJson`: a value, `null` (as for an empty body), or a throwable. */
  datatype Decoded<T> = Parsed(value: Option<T>) | ParseFailed(error: Throwable)

  /** The reified type argument `T`: `String` itself, or a type Gson decodes. */
  datatype Target<T> = StringTarget | GsonTarget(fromJson: string -> Decoded<T>)

  /** A non-null result: the raw body (when `T` is `String`) or a decoded value. */
  datatype Reply<T> = RawBody(text: string) | Value(value: T)

  /** What the caller's `onError` did: returned a value, or threw. */
  datatype Handled<T> = Handled(value: Option<Reply<T>>) | HandlerThrew(error: Throwable)

  /** How a unary call ends: with a nullable result, or with a throwable escaping it. */
  datatype UnaryResult<T> = Returned(value: Option<Reply<T>>) | Raised(error: Throwable)

  /** A built request together with what the call gave back. */
  datatype Exchange<T> = Exchange(request: Request, result: UnaryResult<T>)

  /**
   * The `runCatching { ... }` body: a `String` target returns the body text
   * without decoding; any other target goes through Gson.  `Raised` here is
   * the throwable that ends the body.
   */
  function Attempt<T>(fetch: Fetch, target: Target<T>): UnaryResult<T>
  {
    match fetch
    case FetchFailed(t) => Raised(t)
    case BodyText(text) =>
      match target
      case StringTarget => Returned(Some(RawBody(text)))
      case GsonTarget(fromJson) =>
        match fromJson(text)
        case ParseFailed(t) => Raised(t)
        case Parsed(v) => Returned(if v.Some? then Some(Value(v.value)) else None)
  }

  /**
   * `runCatching { ... }.onFailure { onError(it) }.getOrNull()`: on failure
   * `onError` runs and its value is dropped; only a throwable it raises escapes.
   */
  function Evaluate<T>(fetch: Fetch, target: Target<T>, onError: Throwable -> Handled<T>): UnaryResult<T>
  {
    match Attempt(fetch, target)
    case Returned(v) => Returned(v)
    case Raised(t) =>
      match onError(t)
      case Handled(_) => Returned(None)
      case HandlerThrew(e) => Raised(e)
  }

  /** The default `onError = { null }`. */
  function ReturnNull<T>(t: Throwable): Handled<T>
  {
    Handled(None)
  }

  /** With a `String` target the body comes back unchanged, whatever `onError` is. */
  lemma StringTargetReturnsBody<T>(text: string, onError: Throwable -> Handled<T>)
    ensures Evaluate(BodyText(text), StringTarget, onError) == Returned(Some(RawBody(text)))
  {}

  /** A failed call whose `onError` returns normally yields `null`, whatever `onError` returned. */
  lemma FailureYieldsNull<T>(fetch: Fetch, target: Target<T>, onError: Throwable -> Handled<T>)
    requires Attempt(fetch, target).Raised?
    requires onError(Attempt(fetch, target).error).Handled?
    ensures Evaluate(fetch, target, onError) == Returned(None)
  {}

  /** Two `onError` handlers that both return normally give the same result. */
  lemma OnErrorValueDiscarded<T>(fetch: Fetch, target: Target<T>, h1: Throwable -> Handled<T>, h2: Throwable -> Handled<T>)
    requires forall t :: h1(t).Handled? && h2(t).Handled?
    ensures Evaluate(fetch, target, h1) == Evaluate(fetch, target, h2)
  {}

  /** A non-null result only ever comes from a successful exchange. */
  lemma ResultNeedsBody<T>(fetch: Fetch, target: Target<T>, onError: Throwable -> Handled<T>)
    ensures Evaluate(fetch, target, onError).Returned? && Evaluate(fetch, target, onError).value.Some? ==> fetch.BodyText?
    ensures Evaluate(fetch, target, ReturnNull).Returned?
  {}
}
