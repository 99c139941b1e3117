# BingUtil networking and logging core, in Dafny

This project models the parts of the BingUtil Android libraries that have
sequential logic of their own, and proves properties of them:

- **Streaming HTTP helpers** of `NetLib` and `KtorNetLib`. These are `doPostSSERequest`, `doPostSSEMultiformRequest` and `doPostStreamRequest`. Each one is modelled as the sequence of `onResponse(status, payload)` calls it makes.
  - Inputs: the received event data or lines, how the stream ended (closed, or failed with a throwable, cancellations included), and which callback calls throw.
  - All three run the same loop, `Streaming.Pump`. It is proved equal to the trace specification `Streaming.StreamTrace`.
  - The helpers differ in what they keep (every event, events other than `"[DONE]"`, non-empty lines) and in whether a cancellation is reported.
- **Unary helpers** `doGetRequest` / `doPostRequest`: the request they build, and the `runCatching { ... }.onFailure { onError(it) }.getOrNull()` result mapping.
  - The network exchange and Gson's `fromJson` are abstract inputs.
- **`RequestStatus`**: the sealed class with its three objects and predicates.
- **`KtorWebSocketRequest`**: a class holding the two maps `webSocketJobs` and `webSocketSessions`.
  - Each launched task is split into steps that the environment calls: handshake, then read loop.
  - `disconnectSession` and `closeAllSessions` update the maps in place.
- **`KtorWebSocketServer`**: the `/ws` handler, and the `server` field managed by `startServer` / `stopServer`.
  - The handler adds the connection to `sessions`, sends the welcome text, runs the echo-and-emit loop, and removes the connection in `finally`.
  - Running engines are tracked explicitly, which shows what `stopServer` can and cannot stop.
- **`Logger`**: a class with the tags, the three flags and the lines handed to `android.util.Log`.
  - `print` is modelled with its decoration lines and its chunking loop, which cuts a message into pieces of at most 3800 characters.
  - Also modelled: `log`, `init`, and the `v`/`d`/`i`/`w`/`e`/`json` entry points.

Files: `common.dfy` (`Option`), `streaming.dfy`, `http.dfy`, `netlib_http.dfy`,
`ktornetlib_http.dfy`, `frames.dfy`, `ws_client.dfy`, `ws_server.dfy`, `logger.dfy`.

A few modelling choices apply throughout:
- A callback that throws is described by a map from call number to throwable.
- `null` is `None`.
- Kotlin's `it.message.toString()` turns a null message into the text "null" (`Streaming.MessageText`).

## Model

| member | source | states |
|---|---|---|
| Streaming.StatusPredicatesPartition | NetLib/src/main/java/com/bing/netlib/client/KtorHttpRequest.kt:297-313 | For each of `SUCCESS`, `ERROR` and `FINISH`, exactly one of `isSuccess`/`isError`/`isFinish` holds, and it is the one that names the object. |
| Streaming.FirstFault | NetLib/src/main/java/com/bing/netlib/client/KtorHttpRequest.kt:151-174 | The first callback invocation, at or after a given one, that throws. No invocation before it throws, and it does throw unless no invocation throws at all. |
| Streaming.Pump | NetLib/src/main/java/com/bing/netlib/client/KtorHttpRequest.kt:151-174 | The shared streaming loop. Each kept item is reported as `SUCCESS`, in order. A normal end adds `FINISH` with `""`, and `onFailure` adds `ERROR` unless the policy silences the throwable. The body stops at the first callback that throws. The outcome is exactly the trace specified by `StreamTrace`. |
| Streaming.RunCatchingTrace | NetLib/src/main/java/com/bing/netlib/client/KtorHttpRequest.kt:151-174 | Whichever callbacks throw, the calls made are a prefix of the planned calls, possibly followed by one `ERROR`. A throwable escapes the call only from that `ERROR` callback. |
| Streaming.TraceWithoutFaults | NetLib/src/main/java/com/bing/netlib/client/KtorHttpRequest.kt:165-174 | When no callback throws, every kept item is reported as `SUCCESS`, then exactly the terminal call for how the stream ended. |
| Streaming.TerminalExclusive | NetLib/src/main/java/com/bing/netlib/client/KtorHttpRequest.kt:165-174 | When no callback throws, `FINISH` occurs if and only if the stream closed normally, and `ERROR` if and only if it failed and the failure is reported. So the two never both occur, and every call except the last is `SUCCESS`. |
| Streaming.SuccessPayloadsKept | NetLib/src/main/java/com/bing/netlib/client/KtorHttpRequest.kt:165-168 | Whichever callbacks throw, every `SUCCESS` payload is an item that was received and that the filter keeps. |
| Streaming.FinishThenError | NetLib/src/main/java/com/bing/netlib/client/KtorHttpRequest.kt:169-174 | When the `FINISH` callback throws, an `ERROR` follows the `FINISH` unless the policy silences the throwable. The trace then ends with both terminal statuses. |
| Streaming.SseClosed | NetLib/src/main/java/com/bing/netlib/client/KtorHttpRequest.kt:165-169 | When no callback throws, SSE, normal end: one `SUCCESS` per event with its data, in arrival order, then exactly one `FINISH` with `""`. |
| Streaming.SseFailed | NetLib/src/main/java/com/bing/netlib/client/KtorHttpRequest.kt:172-174 | When no callback throws, SSE, any failure, cancellation included: the events received before it, then exactly one `ERROR` carrying `message.toString()`, and no `FINISH`. |
| Streaming.FilterAppend | NetLib/src/main/java/com/bing/netlib/client/KtorHttpRequest.kt:222-226 | The filter keeps arrival order: filtering a concatenation filters each part. |
| Streaming.FilterMembers | NetLib/src/main/java/com/bing/netlib/client/KtorHttpRequest.kt:222-226 | An item survives the filter if and only if it was received and the keep condition holds. |
| Streaming.FilterKeepAll | NetLib/src/main/java/com/bing/netlib/client/KtorHttpRequest.kt:165-166 | A filter that keeps everything is the identity. This is the case of the SSE helpers. |
| Http.StringTargetReturnsBody | KtorNetLib/src/main/java/com/senseauto/ktornetlib/client/HttpRequest.kt:72-73 | With a `String` target, the raw body is returned unchanged, without decoding, whatever `onError` is. |
| Http.FailureYieldsNull | KtorNetLib/src/main/java/com/senseauto/ktornetlib/client/HttpRequest.kt:78-81 | On failure, the result is `null` whenever `onError` returns normally. |
| Http.OnErrorValueDiscarded | NetLib/src/main/java/com/bing/netlib/client/KtorHttpRequest.kt:87-90 | Two `onError` handlers that both return normally give the same result: the value `onError` returns is discarded. |
| Http.ResultNeedsBody | NetLib/src/main/java/com/bing/netlib/client/KtorHttpRequest.kt:71-90 | A non-null result only comes from a successful exchange. With the default `onError`, the call always returns. |
| NetLibHttp.DoGetRequest | NetLib/src/main/java/com/bing/netlib/client/KtorHttpRequest.kt:65-91 | The GET request carries the caller's URL and headers, with no content type and no body. A non-null result needs a successful exchange. |
| NetLibHttp.DoPostRequest | NetLib/src/main/java/com/bing/netlib/client/KtorHttpRequest.kt:103-133 | The POST request carries the caller's headers, the caller's content type (which is applied) and the text body. A non-null result needs a successful exchange. |
| NetLibHttp.DoPostSseRequest | NetLib/src/main/java/com/bing/netlib/client/KtorHttpRequest.kt:144-175 | The request applies the caller's content type, and the callback trace is the shared streaming trace, with every event kept and every failure reported. |
| NetLibHttp.DoPostSseMultiformRequest | NetLib/src/main/java/com/bing/netlib/client/KtorHttpRequest.kt:186-235 | An unreadable image fails inside `runCatching` before any request is made: the trace is a single `ERROR`. Otherwise the request is the two-part form, and events whose data is `"[DONE]"` are skipped. |
| NetLibHttp.DoPostStreamRequest | NetLib/src/main/java/com/bing/netlib/client/KtorHttpRequest.kt:248-293 | A JSON content-type header is placed before the caller's headers. Non-empty lines are kept, and a cancellation is not reported. |
| NetLibHttp.MultipartClosed | NetLib/src/main/java/com/bing/netlib/client/KtorHttpRequest.kt:222-229 | When no callback throws, multipart, normal end: the events other than `"[DONE]"`, in order, then `FINISH`. An event survives if and only if it is not `"[DONE]"`. |
| NetLibHttp.MultipartNeverReportsDone | NetLib/src/main/java/com/bing/netlib/client/KtorHttpRequest.kt:222-226 | Whichever callbacks throw, no `SUCCESS` carries `"[DONE]"`, and every `SUCCESS` carries a received event. |
| NetLibHttp.StreamClosed | NetLib/src/main/java/com/bing/netlib/client/KtorHttpRequest.kt:273-281 | When no callback throws, raw stream closed for read: one `SUCCESS` per non-empty line, with that exact line, in order, then exactly one `FINISH` with `""`. Empty and null reads produce nothing. |
| NetLibHttp.StreamFailed | NetLib/src/main/java/com/bing/netlib/client/KtorHttpRequest.kt:283-290 | When no callback throws, a `CancellationException` adds no callback. Any other failure adds one `ERROR` with its message. The `EOFException` branch reports the same `ERROR` as the general one, so the trace does not depend on the cause. |
| NetLibHttp.StreamReportsOnlyLines | NetLib/src/main/java/com/bing/netlib/client/KtorHttpRequest.kt:273-280 | Whichever callbacks throw, every `SUCCESS` carries a non-empty line that was read. |
| KtorNetLibHttp.DoGetRequest | KtorNetLib/src/main/java/com/senseauto/ktornetlib/client/HttpRequest.kt:56-82 | The GET request carries the caller's URL and headers, with no content type and no body. A non-null result needs a successful exchange. |
| KtorNetLibHttp.DoPostRequest | KtorNetLib/src/main/java/com/senseauto/ktornetlib/client/HttpRequest.kt:94-123 | The POST request carries the caller's headers and the text body, and never a content type. A non-null result needs a successful exchange. |
| KtorNetLibHttp.PostIgnoresContentType | KtorNetLib/src/main/java/com/senseauto/ktornetlib/client/HttpRequest.kt:97-110 | Two calls that differ only in `contentType` build the same request and give the same result. |
| KtorNetLibHttp.DoPostSseRequest | KtorNetLib/src/main/java/com/senseauto/ktornetlib/client/HttpRequest.kt:134-164 | The content type is always `application/json`. Every event, `"[DONE]"` included, is reported through the shared streaming trace. |
| Frames.TextsAppend | KtorNetLib/src/main/java/com/bing/ktornetlib/client/KtorWebSocketRequest.kt:43-54 | Receiving frames `a` then `b` delivers the texts of `a`, then those of `b`. |
| Frames.TextsMembers | KtorNetLib/src/main/java/com/bing/ktornetlib/client/KtorWebSocketRequest.kt:43-54 | A text is delivered if and only if a text frame carrying it arrived. |
| Frames.TextsCount | KtorNetLib/src/main/java/com/bing/ktornetlib/client/KtorWebSocketRequest.kt:43-54 | No more texts are delivered than frames arrived, and none without a text frame. |
| WebSocketClient.SessionIdRoundTrip | KtorNetLib/src/main/java/com/bing/ktornetlib/client/KtorWebSocketRequest.kt:41 | The session-id message is `{"session_id":"` + id + `"}`, and the id can be read back from between that fixed prefix and suffix. |
| WebSocketClient.KtorWebSocketRequest.constructor | KtorNetLib/src/main/java/com/bing/ktornetlib/client/KtorWebSocketRequest.kt:23-27 | Both maps start empty, the client is open, and nothing has been sent or received. |
| WebSocketClient.KtorWebSocketRequest.BuildNewConnection | KtorNetLib/src/main/java/com/bing/ktornetlib/client/KtorWebSocketRequest.kt:30-61 | The job is recorded under the fresh id before that id is returned. No session entry exists yet, and nothing else changes. |
| WebSocketClient.KtorWebSocketRequest.Handshake | KtorNetLib/src/main/java/com/bing/ktornetlib/client/KtorWebSocketRequest.kt:34-41 | On success, the session is stored and the session-id text is the first frame sent. On failure, no session entry is made and only the job entry exists. |
| WebSocketClient.KtorWebSocketRequest.ReadFrames | KtorNetLib/src/main/java/com/bing/ktornetlib/client/KtorWebSocketRequest.kt:43-57 | Text frames go to `onResponse` in arrival order and non-text frames never do. The loop ends, whether by a close or by a caught exception, without touching either map. |
| WebSocketClient.KtorWebSocketRequest.DisconnectSession | KtorNetLib/src/main/java/com/bing/ktornetlib/client/KtorWebSocketRequest.kt:66-77 | A live session gets a normal-closure frame, and only that entry is removed. The job of the id is cancelled but stays in the map. An unknown id leaves both maps unchanged. |
| WebSocketClient.KtorWebSocketRequest.CloseAllSessions | KtorNetLib/src/main/java/com/bing/ktornetlib/client/KtorWebSocketRequest.kt:82-86 | `webSocketSessions` is emptied without close frames. Every job is cancelled but kept, and the client is closed. |
| WebSocketServer.FrameEffectsEmitted | NetLib/src/main/java/com/bing/netlib/server/KtorWebSocketServer.kt:56-69 | Over one connection's frame loop, exactly the texts of the text frames are emitted, in order. |
| WebSocketServer.FrameEffectsEchoed | NetLib/src/main/java/com/bing/netlib/server/KtorWebSocketServer.kt:58-63 | Each text frame is echoed as `"echo: " + text`, in order, to its own connection and to no other. |
| WebSocketServer.FrameEffectsPaired | NetLib/src/main/java/com/bing/netlib/server/KtorWebSocketServer.kt:62-63 | The effects alternate: each echo comes immediately before the emit of the same text. |
| WebSocketServer.ServedDropsLastEmit | NetLib/src/main/java/com/bing/netlib/server/KtorWebSocketServer.kt:62-73 | An emit cancelled while `messageFlow` waits for its collectors takes away exactly the final `Emit`. Every other effect of the loop is kept. |
| WebSocketServer.ServedEchoed | NetLib/src/main/java/com/bing/netlib/server/KtorWebSocketServer.kt:62-73 | Even when the last emit is cancelled, every text frame has been echoed, in order, to its own connection only. |
| WebSocketServer.ServedEmitted | NetLib/src/main/java/com/bing/netlib/server/KtorWebSocketServer.kt:63-73 | `messageFlow` receives every text in order, except the text whose emit was cancelled. |
| WebSocketServer.RemoveAppended | NetLib/src/main/java/com/bing/netlib/server/KtorWebSocketServer.kt:76-78 | Removing a connection that was appended to a list not holding it restores the list. |
| WebSocketServer.KtorWebSocketServer.constructor | NetLib/src/main/java/com/bing/netlib/server/KtorWebSocketServer.kt:31-33 | `server` is null, no sessions or effects exist, and no engine has been created or started. |
| WebSocketServer.KtorWebSocketServer.StartServer | NetLib/src/main/java/com/bing/netlib/server/KtorWebSocketServer.kt:37-84 | `stopServer` runs first when `server` is non-null. An engine with the fixed settings (127.0.0.1, port 28230, `/ws`, 10 s ping, 20 s timeout) is created, and it binds only when no listener holds the port. `server` keeps its old value. |
| WebSocketServer.KtorWebSocketServer.StopServer | NetLib/src/main/java/com/bing/netlib/server/KtorWebSocketServer.kt:89-93 | Nothing happens when `server` is null. Otherwise the call `stop(1000, 2000)` on that engine is recorded with both arguments; that engine is never the running one. `server` is never reset. |
| WebSocketServer.KtorWebSocketServer.ListenerReturns | NetLib/src/main/java/com/bing/netlib/server/KtorWebSocketServer.kt:82 | Only once the running engine has stopped does `start(wait = true)` return, and its engine is then assigned to `server`. |
| WebSocketServer.KtorWebSocketServer.ServeFrames | NetLib/src/main/java/com/bing/netlib/server/KtorWebSocketServer.kt:56-69 | The frame loop appends the echo-then-emit effects of its text frames, in order. When the emit of the last text frame is cancelled after its echo was sent, that one `Emit` is missing. `messageFlow` receives exactly the delivered texts. |
| WebSocketServer.KtorWebSocketServer.HandleConnection | NetLib/src/main/java/com/bing/netlib/server/KtorWebSocketServer.kt:50-80 | The welcome text is the first frame sent, followed by the frame loop. After a close or any exception, `sessions` is what it was before. When the welcome send throws, the connection stays in the list. A cancelled last emit ends the loop after its echo. `messageFlow` receives the delivered texts, and nothing when the welcome send throws. |
| WebSocketServer.KtorWebSocketServer.HandleConnectionCorrected | NetLib/src/main/java/com/bing/netlib/server/KtorWebSocketServer.kt:50-80 | With the welcome send inside the `try`, `sessions` is restored on every path. |
| WebSocketServer.FailedWelcomeKeepsSession | NetLib/src/main/java/com/bing/netlib/server/KtorWebSocketServer.kt:51-54 | A connection whose welcome send fails stays in `sessions`. |
| WebSocketServer.FailedWelcomeCorrected | NetLib/src/main/java/com/bing/netlib/server/KtorWebSocketServer.kt:51-54 | With the correction, the same connection is removed again. |
| WebSocketServer.StopAfterStartKeepsListener | NetLib/src/main/java/com/bing/netlib/server/KtorWebSocketServer.kt:37-93 | As written, start then stop leaves the first engine listening, `server` still null and no stop call made. A second start cannot bind. |
| WebSocketServer.CorrectedLifecycle.constructor | NetLib/src/main/java/com/bing/netlib/server/KtorWebSocketServer.kt:31 | No engine and no listener exist. |
| WebSocketServer.CorrectedLifecycle.StartServer | NetLib/src/main/java/com/bing/netlib/server/KtorWebSocketServer.kt:37-84 | The previous engine is stopped, and the new one is started and recorded in `server`, so `server` names the one listener. |
| WebSocketServer.CorrectedLifecycle.StopServer | NetLib/src/main/java/com/bing/netlib/server/KtorWebSocketServer.kt:89-93 | The engine in `server` is stopped and the field is cleared, so nothing is left listening. |
| WebSocketServer.StopAfterStartCorrected | NetLib/src/main/java/com/bing/netlib/server/KtorWebSocketServer.kt:37-93 | With the correction, start then stop stops the first engine, and a restart binds a new one. |
| LogLib.DispatchOneToOne | LogLib/src/main/java/com/bing/loglib/Logger.kt:135-143 | `Type` maps one-to-one onto `Log.v`/`d`/`i`/`w`/`e`, in both directions. |
| LogLib.ChunksConcat | LogLib/src/main/java/com/bing/loglib/Logger.kt:117-127 | Concatenating the chunks of a message gives the message back. |
| LogLib.ChunksSizes | LogLib/src/main/java/com/bing/loglib/Logger.kt:118-126 | Every chunk is non-empty and at most 3800 characters long, and all but the last are exactly 3800. |
| LogLib.ChunksCount | LogLib/src/main/java/com/bing/loglib/Logger.kt:118-126 | A message is split into ceil(length / 3800) chunks. |
| LogLib.ChunksStep | LogLib/src/main/java/com/bing/loglib/Logger.kt:120-125 | One turn of the loop takes `substring(startIndex, min(length, startIndex + 3800))`. The chunks of the rest follow from the new `startIndex`. |
| LogLib.MessageLinesSpec | LogLib/src/main/java/com/bing/loglib/Logger.kt:115-130 | A message of at most 3800 characters is one line, unchanged. Longer messages give ceil(length / 3800) lines. Every line is at most 3800 long, and the lines concatenate to the message. |
| LogLib.PrintedNull | LogLib/src/main/java/com/bing/loglib/Logger.kt:91-92 | A null message produces no output at all, not even borders. |
| LogLib.PrintedTagged | LogLib/src/main/java/com/bing/loglib/Logger.kt:135-143 | Every emitted line carries the call's tag and goes to the `Log` method of the call's level. |
| LogLib.PrintedLayout | LogLib/src/main/java/com/bing/loglib/Logger.kt:90-133 | The message lines follow the header lines (borders, thread line, code location), concatenate to the message, and precede the bottom border. With `decorEnabled`, the first and last lines are the doubled `DOUBLE_DIVIDER`. |
| LogLib.ThreadLineInserted | LogLib/src/main/java/com/bing/loglib/Logger.kt:96-99 | Turning on `threadInfoEnabled` inserts exactly the thread line after the top border, plus a middle border only with `decorEnabled`. Nothing else changes. |
| LogLib.PrintedShortPlain | LogLib/src/main/java/com/bing/loglib/Logger.kt:115-130 | With no flag set, a message of at most 3800 characters is one line, unchanged. |
| LogLib.Logger.constructor | LogLib/src/main/java/com/bing/loglib/Logger.kt:20-31 | The main tag is "Logger", the second tag is "", all three flags are off, and nothing has been logged. |
| LogLib.Logger.Init | LogLib/src/main/java/com/bing/loglib/Logger.kt:33-35 | Only `mainTag` changes. The default tag becomes the new first tag followed by the unchanged `secondTag`. |
| LogLib.Logger.InitWithSecondTag | LogLib/src/main/java/com/bing/loglib/Logger.kt:37-40 | Both tags are set, and the default tag becomes their concatenation. |
| LogLib.Logger.Log | LogLib/src/main/java/com/bing/loglib/Logger.kt:135-143 | Exactly one line, with the given tag and text, goes to the `Log` method of the level. |
| LogLib.Logger.LogMiddleBorder | LogLib/src/main/java/com/bing/loglib/Logger.kt:145-147 | One line holding the doubled `SINGLE_DIVIDER`. |
| LogLib.Logger.LogTopOrBottomBorder | LogLib/src/main/java/com/bing/loglib/Logger.kt:149-151 | One line holding the doubled `DOUBLE_DIVIDER`. |
| LogLib.Logger.LogChunks | LogLib/src/main/java/com/bing/loglib/Logger.kt:117-127 | The `startIndex`/`endIndex` loop emits exactly the chunks of the message, in order. |
| LogLib.Logger.PrintTop | LogLib/src/main/java/com/bing/loglib/Logger.kt:94 | The top border is emitted only with `decorEnabled`. |
| LogLib.Logger.PrintThread | LogLib/src/main/java/com/bing/loglib/Logger.kt:96-99 | The thread line is emitted only with `threadInfoEnabled`, followed by a middle border only with `decorEnabled` as well. |
| LogLib.Logger.PrintLocation | LogLib/src/main/java/com/bing/loglib/Logger.kt:102-105 | The code-location line is emitted only when the stack trace has a frame at layer 1. |
| LogLib.Logger.PrintTrace | LogLib/src/main/java/com/bing/loglib/Logger.kt:101-112 | With `traceCodeEnabled` and a non-null throwable, the location line (if any) is emitted, then a middle border when decorated. Otherwise nothing is emitted. |
| LogLib.Logger.PrintHeader | LogLib/src/main/java/com/bing/loglib/Logger.kt:94-112 | Emits the top border, thread part and trace part, in that order. |
| LogLib.Logger.PrintMessage | LogLib/src/main/java/com/bing/loglib/Logger.kt:115-130 | Emits the message as one line when it fits, and as its chunks otherwise. |
| LogLib.Logger.Print | LogLib/src/main/java/com/bing/loglib/Logger.kt:90-133 | Emits exactly `Printed`: nothing for a null message, otherwise the header, message lines and bottom border, each with the call's tag and level. |
| LogLib.Logger.LogAt | LogLib/src/main/java/com/bing/loglib/Logger.kt:42-70 | `v`/`d`/`i`/`w`/`e` print `msg.toString()`, so a null message prints "null". The tag defaults to `mainTag + secondTag`, read at call time. |
| LogLib.Logger.Json | LogLib/src/main/java/com/bing/loglib/Logger.kt:72-84 | A null text prints nothing. Otherwise the formatted text is printed with the given tag and level; the tag defaults to `mainTag + secondTag` and the level to `DEBUG`. |

## Left out

- Coroutines and concurrency are not modelled. This covers `launch`, `SupervisorJob`, `Dispatchers.IO`, the `synchronized` block around the chunking loop, `CopyOnWriteArrayList` thread safety, and `MutableSharedFlow` delivery to subscribers. Each task's effects are steps the environment calls one at a time, and emits are appended to an effect log.
- WebSocketClient.KtorWebSocketRequest.DisconnectSession: the body runs in a launched coroutine; here it takes effect at once.
- WebSocketClient.KtorWebSocketRequest.Handshake: a failed `webSocketSession` call is outside the `try`. Unless it is a cancellation, its throwable escapes the launched task uncaught, and nothing handles it in the `SupervisorJob` scope. The model only records that no session was made; the escaping throwable is not modelled.
- WebSocketClient.KtorWebSocketRequest.Handshake: the session-id send is recorded as successful. When that send throws, the exception is caught and the task ends; that case is covered only as a read loop over no frames.
- The transport is not modelled: the Ktor client and its engine, SSE parsing, WebSocket framing, the Netty engine, multipart encoding and `setBody` serialization. Received events and lines, the exchange's outcome, and whether the server is reachable or the port is free are all abstract inputs.
- A content type that `ContentType.parse` rejects, or a body that cannot be serialized, throws inside `runCatching`. Such a failure is represented only by the abstract inputs: a failed fetch, or a stream that fails before any item arrives.
- Gson's `fromJson` is an abstract function that returns a value, `null`, or a throwable.
- LogLib.Logger.Json: `JSONTokener(...).nextValue()` and `toString(2)` become the `format` argument. The `JSONException` that malformed text raises, which escapes `json`, is not modelled.
- NetLibHttp.DoPostStreamRequest: the `delay(30)` before each `SUCCESS` is not modelled. A cancellation during that delay is represented by ending the line sequence before the line in question.
- LogLib.Chunks: Kotlin measures `String.length` in UTF-16 code units, while a Dafny `char` is one Unicode scalar value. A message with characters outside the Basic Multilingual Plane is therefore cut at different places than on Android.
- The thread name and the throwable's stack trace in `Logger.print` are inputs. For Kotlin callers, the default `occurred = Exception()` is built in the default-argument stub, so its layer-1 frame is the caller of `v`/`d`/`i`/`w`/`e`/`json`. Java callers go through the `@JvmOverloads` overloads, which add a frame: layer 1 is then the generated overload inside `Logger` itself. The model takes the stack trace as given and does not decide which case applies.
- The three `Logger` flags are public `var`s in the source and are plain fields here, assigned directly; there are no setter methods.
- `print(null)` is silent, but it is reachable from none of `v`/`d`/`i`/`w`/`e`/`json`: `msg.toString()` never yields null, and `json` returns before `print` on a null text.
- Debug `Log.*` calls and `println` inside the HTTP and WebSocket code are left out, because they change nothing the model observes. The `?: { ... }` lambda in `disconnectSession` is only built and never invoked, so it has no effect to model.
- WebSocketServer.KtorWebSocketServer.StartServer: a bind failure is modelled as "no listener added". The exception it raises in the launched task is not modelled.
- The ping and timeout settings of the server engine are recorded as constants; their effect on live connections is not modelled.
- `KtorWebSocketServer.INSTANCE` (a lazy singleton) is not modelled; one object of the class stands for it.
- `NetLib/.../OkhttpRequest.kt` and the `MMKVLib` files are not part of this model: they are thin wrappers over OkHttp and MMKV.

## Findings

| source | as written | input that shows it | evidently intended | confidence | as-written member | corrected member |
|---|---|---|---|---|---|---|
| NetLib/src/main/java/com/bing/netlib/server/KtorWebSocketServer.kt:42-82 | `server = embeddedServer(...).start(wait = true)` assigns `server` only after the engine has stopped. While the listener runs, `stopServer` (lines 89-93) finds `server` null, or finds an engine that already stopped. | `startServer()`, then `stopServer()`, then `startServer()`: the first engine keeps port 28230, nothing is stopped, and the second engine cannot bind. | `server` names the running engine as soon as it starts, so that `stopServer` stops it and clears the field. | not executed | WebSocketServer.StopAfterStartKeepsListener | WebSocketServer.StopAfterStartCorrected |
| NetLib/src/main/java/com/bing/netlib/server/KtorWebSocketServer.kt:51-78 | `send(Frame.Text(welcome))` is outside the `try` whose `finally` removes the connection from `sessions`. | A client that disconnects before the welcome text is written makes `send` throw. The connection then stays in `sessions`. | The welcome send sits inside the `try`, so that `sessions` is restored on every path. | not executed | WebSocketServer.FailedWelcomeKeepsSession | WebSocketServer.FailedWelcomeCorrected |
