/**
 * `KtorWebSocketRequest`: the client-side WebSocket session bookkeeping.
 *
 * Each `launch`ed task is modelled by steps the environment calls one at a
 * time: the handshake of a task, then the frames its read loop receives.
 * The ghost `phase` map records how far each task has got.
 */
module WebSocketClient {
  import opened Frames

  /** The text frame sent right after the handshake: `{"session_id":"<id>"}`. */
  function SessionIdMessage(id: string): string
  {
    "{\"session_id\":\"" + id + "\"}"
  }

  /** The id can be read back from the handshake message, between a fixed prefix and suffix. */
  lemma SessionIdRoundTrip(id: string)
    ensures var m := SessionIdMessage(id);
      |m| == |id| + 17 && m[..15] == "{\"session_id\":\"" && m[15..15 + |id|] == id && m[15 + |id|..] == "\"}"
  {}

  /** A launched task: the URL it connects to and whether it was cancelled. */
  datatype Job = Job(url: string, cancelled: bool)

  /** A live `DefaultClientWebSocketSession`. */
  datatype Session = Session(url: string)

  /** How far a task has got: awaiting the handshake, in its read loop, or finished. */
  datatype Phase = Connecting | Reading | Ended

  /** Each text of `texts` handed to the `onResponse` of session `id`. */
  function Tagged(id: string, texts: seq<string>): seq<(string, string)>
  {
    seq(|texts|, i requires 0 <= i < |texts| => (id, texts[i]))
  }

  class KtorWebSocketRequest {
    var webSocketJobs: map<string, Job>
    var webSocketSessions: map<string, Session>
    /** Set once `client.close()` ran; later handshakes fail. */
    var clientClosed: bool
    /** Frames written by this client, each with the id of the session it went to. */
    var sent: seq<(string, Frame)>
    /** `onResponse` invocations, each with the id of the session whose callback ran. */
    var responses: seq<(string, string)>
    ghost var phase: map<string, Phase>

    ghost predicate Valid()
      reads this
    {
      webSocketSessions.Keys <= webSocketJobs.Keys &&
      phase.Keys == webSocketJobs.Keys &&
      (forall id :: id in webSocketJobs && webSocketJobs[id].cancelled ==> phase[id] == Ended) &&
      (forall id :: id in phase && phase[id] == Reading ==> id in webSocketSessions) &&
      (forall id :: id in webSocketSessions ==> phase[id] != Connecting)
    }

    constructor ()
      ensures Valid()
      ensures webSocketJobs == map[] && webSocketSessions == map[]
      ensures !clientClosed && sent == [] && responses == []
    {
      webSocketJobs := map[];
      webSocketSessions := map[];
      clientClosed := false;
      sent := [];
      responses := [];
      phase := map[];
    }

    /**
     * `buildNewConnection`: launches the task and records its job under the new
     * id before returning it; no session entry exists yet.  `freshId` stands for
     * `UUID.randomUUID()`, assumed never to repeat.
     */
    method BuildNewConnection(url: string, freshId: string) returns (sessionId: string)
      requires Valid()
      requires freshId !in webSocketJobs
      modifies this
      ensures Valid()
      ensures sessionId == freshId && sessionId !in old(webSocketJobs)
      ensures webSocketJobs == old(webSocketJobs)[sessionId := Job(url, false)]
      ensures webSocketSessions == old(webSocketSessions)
      ensures sent == old(sent) && responses == old(responses) && clientClosed == old(clientClosed)
      ensures phase == old(phase)[sessionId := Connecting]
    {
      sessionId := freshId;
      phase := phase[sessionId := Connecting];
      webSocketJobs := webSocketJobs[sessionId := Job(url, false)];
    }

    /**
     * The handshake step of the task for `id`.  It succeeds when the server is
     * reachable and the client is still open; then the session is stored and the
     * session-id message is sent.  A failed handshake throws outside the `try`:
     * the task ends and no session entry is made.
     */
    method Handshake(id: string, reachable: bool) returns (connected: bool)
      requires Valid()
      requires id in phase && phase[id] == Connecting
      modifies this
      ensures Valid()
      ensures connected == (reachable && !old(clientClosed))
      ensures connected ==> webSocketSessions == old(webSocketSessions)[id := Session(old(webSocketJobs)[id].url)]
      ensures connected ==> sent == old(sent) + [(id, Text(SessionIdMessage(id)))]
      ensures connected ==> phase == old(phase)[id := Reading]
      ensures !connected ==> webSocketSessions == old(webSocketSessions) && sent == old(sent)
      ensures !connected ==> phase == old(phase)[id := Ended]
      ensures webSocketJobs == old(webSocketJobs) && responses == old(responses) && clientClosed == old(clientClosed)
    {
      connected := reachable && !clientClosed;
      if connected {
        webSocketSessions := webSocketSessions[id := Session(webSocketJobs[id].url)];
        sent := sent + [(id, Text(SessionIdMessage(id)))];
        phase := phase[id := Reading];
      } else {
        phase := phase[id := Ended];
      }
    }

    /**
     * The read loop of the task for `id` over the frames it receives before the
     * loop ends (the channel closes, or an exception is caught and logged): text
     * frames go to `onResponse` in order, other frames only to the log, and
     * neither map is touched.
     */
    method ReadFrames(id: string, frames: seq<Frame>)
      requires Valid()
      requires id in phase && phase[id] == Reading
      modifies this
      ensures Valid()
      ensures responses == old(responses) + Tagged(id, Texts(frames))
      ensures webSocketJobs == old(webSocketJobs) && webSocketSessions == old(webSocketSessions)
      ensures sent == old(sent) && clientClosed == old(clientClosed)
      ensures phase == old(phase)[id := Ended]
    {
      var i := 0;
      while i < |frames|
        invariant 0 <= i <= |frames|
        invariant responses == old(responses) + Tagged(id, Texts(frames[..i]))
        invariant webSocketJobs == old(webSocketJobs) && webSocketSessions == old(webSocketSessions)
        invariant sent == old(sent) && clientClosed == old(clientClosed) && phase == old(phase)
      {
        assert frames[..i + 1][..i] == frames[..i];
        if frames[i].Text? {
          responses := responses + [(id, frames[i].text)];
        }
        i := i + 1;
      }
      assert frames[..|frames|] == frames;
      phase := phase[id := Ended];
    }

    /**
     * `disconnectSession`: a live session is closed with a normal-closure frame
     * and its entry removed; the job of `id`, if any, is cancelled but stays in
     * `webSocketJobs`.  An unknown id changes nothing.
     */
    method DisconnectSession(id: string)
      requires Valid()
      modifies this
      ensures Valid()
      ensures webSocketSessions == old(webSocketSessions) - {id}
      ensures sent == old(sent) + (if id in old(webSocketSessions) then [(id, Close(NormalClosure, "Disconnect " + id))] else [])
      ensures webSocketJobs == if id in old(webSocketJobs) then old(webSocketJobs)[id := old(webSocketJobs)[id].(cancelled := true)]
                               else old(webSocketJobs)
      ensures responses == old(responses) && clientClosed == old(clientClosed)
    {
      if id in webSocketSessions {
        sent := sent + [(id, Close(NormalClosure, "Disconnect " + id))];
        webSocketSessions := webSocketSessions - {id};
      }
      if id in webSocketJobs {
        webSocketJobs := webSocketJobs[id := webSocketJobs[id].(cancelled := true)];
        phase := phase[id := Ended];
      }
    }

    /**
     * `closeAllSessions`: every session entry is dropped without a close frame,
     * every job is cancelled but kept, and the shared client is closed.
     */
    method CloseAllSessions()
      requires Valid()
      modifies this
      ensures Valid()
      ensures webSocketSessions == map[]
      ensures webSocketJobs.Keys == old(webSocketJobs).Keys
      ensures forall id :: id in webSocketJobs ==> webSocketJobs[id] == old(webSocketJobs)[id].(cancelled := true)
      ensures clientClosed && sent == old(sent) && responses == old(responses)
    {
      webSocketSessions := map[];
      webSocketJobs := map id | id in webSocketJobs :: webSocketJobs[id].(cancelled := true);
      clientClosed := true;
      phase := map id | id in phase :: Ended;
    }
  }
}
