/**
 * `HttpRequest` of KtorNetLib (KtorNetLib/.../ktornetlib/client/HttpRequest.kt):
 * the unary helpers and the SSE helper.  They share the callback protocol and
 * the unary result mapping with NetLib's copy; they differ in how requests
 * are built.
 */
module KtorNetLibHttp {
  import opened Common
  import opened Streaming
  import opened Http

  const Json := "application/json"

  function DoGetRequest<T>(url: string, header: seq<Header>, fetch: Fetch, target: Target<T>, onError: Throwable -> Handled<T>)
    : (r: Exchange<T>)
    ensures r.request.verb == Get && r.request.url == url && r.request.headers == header
    ensures r.request.contentType == None && r.request.body == NoBody
    ensures r.result.Returned? && r.result.value.Some? ==> fetch.BodyText?
  {
    Exchange(Request(Get, url, header, None, NoBody), Evaluate(fetch, target, onError))
  }

  /** The `contentType` parameter is accepted but never applied to the request. */
  function DoPostRequest<T>(url: string, header: seq<Header>, contentType: Option<string>, requestBody: string,
                            fetch: Fetch, target: Target<T>, onError: Throwable -> Handled<T>)
    : (r: Exchange<T>)
    ensures r.request.verb == Post && r.request.url == url && r.request.headers == header
    ensures r.request.contentType == None && r.request.body == TextBody(requestBody)
    ensures r.result.Returned? && r.result.value.Some? ==> fetch.BodyText?
  {
    Exchange(Request(Post, url, header, None, TextBody(requestBody)), Evaluate(fetch, target, onError))
  }

  /** Two calls that differ only in `contentType` build the same request and give the same result. */
  lemma PostIgnoresContentType<T>(url: string, header: seq<Header>, c1: Option<string>, c2: Option<string>, requestBody: string,
                                  fetch: Fetch, target: Target<T>, onError: Throwable -> Handled<T>)
    ensures DoPostRequest(url, header, c1, requestBody, fetch, target, onError)
         == DoPostRequest(url, header, c2, requestBody, fetch, target, onError)
  {}

  /** SSE POST: the content type is always JSON, and every event is reported, "[DONE]" included. */
  method DoPostSseRequest(url: string, header: seq<Header>, requestBody: Option<string>,
                          events: seq<Option<string>>, ending: Ending, faults: Faults)
    returns (request: Request, out: Outcome)
    ensures request == Request(Post, url, header, Some(Json), AnyBody(requestBody))
    ensures out == StreamTrace(events, KeepEvery, ending, faults, ReportAll)
  {
    request := Request(Post, url, header, Some(Json), AnyBody(requestBody));
    out := Pump(events, KeepEvery, ending, faults, ReportAll);
  }
}
