/**
 * `HttpRequest` of NetLib (NetLib/.../client/KtorHttpRequest.kt): the unary
 * helpers, the SSE and multipart SSE helpers, and the raw line stream helper.
 */
module NetLibHttp {
  import opened Common
  import opened Streaming
  import opened Http

  const DoneSentinel := "[DONE]"

  /** The multipart helper skips an event whose data equals "[DONE]" (a null data does not). */
  function NotDone(data: Option<string>): bool
  {
    data != Some(DoneSentinel)
  }

  /** `buffer?.isNotEmpty() == true`: a line that was read and is not empty. */
  function NonEmptyLine(line: Option<string>): bool
  {
    line.Some? && |line.value| > 0
  }

  /** The image file read by `File(imageFilePath).readBytes()`: its name and bytes, or the throwable. */
  datatype ImageFile = Image(name: string, bytes: seq<bv8>) | Unreadable(error: Throwable)

  function DoGetRequest<T>(url: string, header: seq<Header>, fetch: Fetch, target: Target<T>, onError: Throwable -> Handled<T>)
    : (r: Exchange<T>)
    ensures r.request.verb == Get && r.request.url == url && r.request.headers == header
    ensures r.request.contentType == None && r.request.body == NoBody
    ensures r.result.Returned? && r.result.value.Some? ==> fetch.BodyText?
  {
    Exchange(Request(Get, url, header, None, NoBody), Evaluate(fetch, target, onError))
  }

  /** `contentType?.let { contentType(ContentType.parse(it)) }`: the caller's content type is applied. */
  function DoPostRequest<T>(url: string, header: seq<Header>, contentType: Option<string>, requestBody: string,
                            fetch: Fetch, target: Target<T>, onError: Throwable -> Handled<T>)
    : (r: Exchange<T>)
    ensures r.request.verb == Post && r.request.url == url && r.request.headers == header
    ensures r.request.contentType == contentType && r.request.body == TextBody(requestBody)
    ensures r.result.Returned? && r.result.value.Some? ==> fetch.BodyText?
  {
    Exchange(Request(Post, url, header, contentType, TextBody(requestBody)), Evaluate(fetch, target, onError))
  }

  /** SSE POST: every received event is reported; the caller's content type is applied. */
  method DoPostSseRequest(url: string, header: seq<Header>, requestBody: Option<string>, contentType: Option<string>,
                          events: seq<Option<string>>, ending: Ending, faults: Faults)
    returns (request: Request, out: Outcome)
    ensures request == Request(Post, url, header, contentType, AnyBody(requestBody))
    ensures out == StreamTrace(events, KeepEvery, ending, faults, ReportAll)
  {
    request := Request(Post, url, header, contentType, AnyBody(requestBody));
    out := Pump(events, KeepEvery, ending, faults, ReportAll);
  }

  /** The two-part form: the JSON text part and the JPEG image part. */
  function MultipartForm(textBody: string, name: string, bytes: seq<bv8>): seq<Part>
  {
    [ Part("data", TextContent(textBody), [Header("Content-Type", "application/json")]),
      Part("image", BytesContent(bytes),
           [ Header("Content-Type", "image/jpeg"),
             Header("Content-Disposition", "form-data; name=\"image\"; filename=" + name) ]) ]
  }

  /**
   * Multipart SSE POST.  Reading the image throws inside `runCatching` before
   * any request is made; otherwise events whose data is "[DONE]" are skipped.
   */
  method DoPostSseMultiformRequest(url: string, header: seq<Header>, textBody: string, image: ImageFile,
                                   contentType: Option<string>, events: seq<Option<string>>, ending: Ending, faults: Faults)
    returns (request: Option<Request>, out: Outcome)
    ensures image.Unreadable? ==> request == None && out == StreamTrace([], NotDone, Failed(image.error), faults, ReportAll)
    ensures image.Image? ==>
      request == Some(Request(Post, url, header, contentType, MultipartBody(MultipartForm(textBody, image.name, image.bytes))))
    ensures image.Image? ==> out == StreamTrace(events, NotDone, ending, faults, ReportAll)
  {
    match image
    case Unreadable(t) =>
      request := None;
      out := Pump([], NotDone, Failed(t), faults, ReportAll);
    case Image(name, bytes) =>
      request := Some(Request(Post, url, header, contentType, MultipartBody(MultipartForm(textBody, name, bytes))));
      out := Pump(events, NotDone, ending, faults, ReportAll);
  }

  /**
   * Raw streaming POST: `lines` are the results of `readUTF8Line()` (null for
   * none) until the channel is closed for read; non-empty lines are reported,
   * and a `CancellationException` is not reported.
   */
  method DoPostStreamRequest(url: string, header: seq<Header>, requestBody: Option<string>, contentType: Option<string>,
                             lines: seq<Option<string>>, ending: Ending, faults: Faults)
    returns (request: Request, out: Outcome)
    ensures request == Request(Post, url, [Header("Content-Type", "application/json")] + header, contentType, AnyBody(requestBody))
    ensures out == StreamTrace(lines, NonEmptyLine, ending, faults, SilenceCancellation)
  {
    request := Request(Post, url, [Header("Content-Type", "application/json")] + header, contentType, AnyBody(requestBody));
    out := Pump(lines, NonEmptyLine, ending, faults, SilenceCancellation);
  }

  // ---------------------------------------------------------------------------
  // Properties of the multipart helper

  /** Multipart, normal end: the events other than "[DONE]", in order, then `FINISH`. */
  lemma MultipartClosed(events: seq<Option<string>>)
    ensures StreamTrace(events, NotDone, Closed, map[], ReportAll)
         == Outcome(Successes(Filter(events, NotDone)) + [FinishCall], None)
    ensures forall d :: d in Filter(events, NotDone) <==> d in events && d != Some(DoneSentinel)
  {
    TraceWithoutFaults(events, NotDone, Closed, ReportAll);
    forall d ensures d in Filter(events, NotDone) <==> d in events && d != Some(DoneSentinel) {
      FilterMembers(events, NotDone, d);
    }
  }

  /** Whatever throws, no `SUCCESS` carries "[DONE]", and every `SUCCESS` carries a received event. */
  lemma MultipartNeverReportsDone(events: seq<Option<string>>, ending: Ending, faults: Faults)
    ensures var calls := StreamTrace(events, NotDone, ending, faults, ReportAll).calls;
      forall i :: 0 <= i < |calls| && calls[i].status == SUCCESS ==>
        calls[i].payload != Some(DoneSentinel) && calls[i].payload in events
  {
    SuccessPayloadsKept(events, NotDone, ending, faults, ReportAll);
  }

  // ---------------------------------------------------------------------------
  // Properties of the raw stream helper

  /** Closed for read: one `SUCCESS` per non-empty line, in order, then one `FINISH` with "". */
  lemma StreamClosed(lines: seq<Option<string>>)
    ensures StreamTrace(lines, NonEmptyLine, Closed, map[], SilenceCancellation)
         == Outcome(Successes(Filter(lines, NonEmptyLine)) + [FinishCall], None)
    ensures forall l :: l in Filter(lines, NonEmptyLine) <==> l in lines && l.Some? && l.value != ""
  {
    TraceWithoutFaults(lines, NonEmptyLine, Closed, SilenceCancellation);
    forall l ensures l in Filter(lines, NonEmptyLine) <==> l in lines && l.Some? && l.value != "" {
      FilterMembers(lines, NonEmptyLine, l);
    }
  }

  /**
   * A `CancellationException` adds no callback; any other throwable adds one
   * `ERROR` with its message, whether or not its cause is an `EOFException`.
   */
  lemma StreamFailed(lines: seq<Option<string>>, t: Throwable)
    ensures StreamTrace(lines, NonEmptyLine, Failed(t), map[], SilenceCancellation)
         == Outcome(Successes(Filter(lines, NonEmptyLine)) + (if t.isCancellation then [] else [ErrorCall(t)]), None)
    ensures StreamTrace(lines, NonEmptyLine, Failed(t), map[], SilenceCancellation)
         == StreamTrace(lines, NonEmptyLine, Failed(t.(causeIsEof := !t.causeIsEof)), map[], SilenceCancellation)
  {
    TraceWithoutFaults(lines, NonEmptyLine, Failed(t), SilenceCancellation);
    TraceWithoutFaults(lines, NonEmptyLine, Failed(t.(causeIsEof := !t.causeIsEof)), SilenceCancellation);
  }

  /** Whatever throws, every `SUCCESS` carries a non-empty line that was read. */
  lemma StreamReportsOnlyLines(lines: seq<Option<string>>, ending: Ending, faults: Faults)
    ensures var calls := StreamTrace(lines, NonEmptyLine, ending, faults, SilenceCancellation).calls;
      forall i :: 0 <= i < |calls| && calls[i].status == SUCCESS ==>
        calls[i].payload in lines && calls[i].payload.Some? && calls[i].payload.value != ""
  {
    SuccessPayloadsKept(lines, NonEmptyLine, ending, faults, SilenceCancellation);
  }
}
