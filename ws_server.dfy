/**
 * `KtorWebSocketServer`: the `/ws` handler run for each accepted connection,
 * and the `server` field that `startServer` / `stopServer` manage.
 */
module WebSocketServer {
  import opened Common
  import opened Frames

  const Host := "127.0.0.1"
  const Port: nat := 28230
  const Path := "/ws"
  const PingPeriodSeconds: nat := 10
  const TimeoutSeconds: nat := 20
  /** `Long.MAX_VALUE`. */
  const MaxFrameSize: int := 0x7fff_ffff_ffff_ffff
  const StopGraceMillis: nat := 1000
  const StopTimeoutMillis: nat := 2000
  const Welcome := "欢迎连接到 WebSocket 服务器！"
  const EchoPrefix := "echo: "

  datatype EngineConfig = EngineConfig(
    host: string, port: nat, path: string, pingPeriodSeconds: nat, timeoutSeconds: nat, maxFrameSize: int, masking: bool)

  /** The fixed listener settings of `startServer`. */
  const Config := EngineConfig(Host, Port, Path, PingPeriodSeconds, TimeoutSeconds, MaxFrameSize, false)

  /** One embedded Netty engine, numbered in creation order. */
  datatype Engine = Engine(serial: nat, config: EngineConfig)

  /** A call `engine.stop(gracePeriodMillis, timeoutMillis)`. */
  datatype StopCall = StopCall(engine: Engine, gracePeriodMillis: nat, timeoutMillis: nat)

  /** An accepted `WebSocketSession`; sessions are told apart by identity, here by number. */
  type Connection = nat

  /** A side effect of a handler, in order: a text frame sent to a connection, or an emit to `messageFlow`. */
  datatype Effect = SendTo(conn: Connection, text: string) | Emit(text: string)

  function Echo(t: string): string
  {
    EchoPrefix + t
  }

  function Echoes(texts: seq<string>): seq<string>
  {
    seq(|texts|, i requires 0 <= i < |texts| => Echo(texts[i]))
  }

  /** The effects of the frame loop of connection `conn` over `frames`. */
  function FrameEffects(conn: Connection, frames: seq<Frame>): seq<Effect>
    decreases |frames|
  {
    if frames == [] then []
    else
      var last := frames[|frames| - 1];
      FrameEffects(conn, frames[..|frames| - 1]) + (if last.Text? then [SendTo(conn, Echo(last.text)), Emit(last.text)] else [])
  }

  /** The values emitted to `messageFlow`, in order. */
  function Emitted(effects: seq<Effect>): seq<string>
    decreases |effects|
  {
    if effects == [] then []
    else Emitted(effects[..|effects| - 1]) + (if effects[|effects| - 1].Emit? then [effects[|effects| - 1].text] else [])
  }

  /** The texts sent to connection `c`, in order. */
  function SentTo(effects: seq<Effect>, c: Connection): seq<string>
    decreases |effects|
  {
    if effects == [] then []
    else
      var last := effects[|effects| - 1];
      SentTo(effects[..|effects| - 1], c) + (if last.SendTo? && last.conn == c then [last.text] else [])
  }

  lemma {:induction false} EmittedAppend(a: seq<Effect>, b: seq<Effect>)
    ensures Emitted(a + b) == Emitted(a) + Emitted(b)
    decreases |b|
  {
    if b == [] {
      assert a + b == a;
    } else {
      assert (a + b)[..|a + b| - 1] == a + b[..|b| - 1];
      EmittedAppend(a, b[..|b| - 1]);
    }
  }

  lemma {:induction false} SentToAppend(a: seq<Effect>, b: seq<Effect>, c: Connection)
    ensures SentTo(a + b, c) == SentTo(a, c) + SentTo(b, c)
    decreases |b|
  {
    if b == [] {
      assert a + b == a;
    } else {
      assert (a + b)[..|a + b| - 1] == a + b[..|b| - 1];
      SentToAppend(a, b[..|b| - 1], c);
    }
  }

  /** Over the frame loop of one connection, every text frame is emitted once, in order, and nothing else is. */
  lemma {:induction false} FrameEffectsEmitted(conn: Connection, frames: seq<Frame>)
    ensures Emitted(FrameEffects(conn, frames)) == Texts(frames)
    decreases |frames|
  {
    if frames != [] {
      var init := frames[..|frames| - 1];
      var last := frames[|frames| - 1];
      FrameEffectsEmitted(conn, init);
      assert Texts(frames) == Texts(init) + (if last.Text? then [last.text] else []);
      if !last.Text? {
        assert FrameEffects(conn, frames) == FrameEffects(conn, init) + [] == FrameEffects(conn, init);
        assert Texts(frames) == Texts(init) + [] == Texts(init);
      } else {
        var tail := [SendTo(conn, Echo(last.text)), Emit(last.text)];
        assert FrameEffects(conn, frames) == FrameEffects(conn, init) + tail;
        EmittedAppend(FrameEffects(conn, init), tail);
        assert tail == [SendTo(conn, Echo(last.text))] + [Emit(last.text)];
        EmittedAppend([SendTo(conn, Echo(last.text))], [Emit(last.text)]);
      }
    }
  }

  /** Each text frame is echoed with the "echo: " prefix, in order, to its own connection and to no other. */
  lemma {:induction false} FrameEffectsEchoed(conn: Connection, frames: seq<Frame>, c: Connection)
    ensures SentTo(FrameEffects(conn, frames), c) == if c == conn then Echoes(Texts(frames)) else []
    decreases |frames|
  {
    if frames != [] {
      var init := frames[..|frames| - 1];
      var last := frames[|frames| - 1];
      FrameEffectsEchoed(conn, init, c);
      assert Texts(frames) == Texts(init) + (if last.Text? then [last.text] else []);
      if !last.Text? {
        assert FrameEffects(conn, frames) == FrameEffects(conn, init) + [] == FrameEffects(conn, init);
        assert Texts(frames) == Texts(init) + [] == Texts(init);
      } else {
        var t := last.text;
        var tail := [SendTo(conn, Echo(t)), Emit(t)];
        assert FrameEffects(conn, frames) == FrameEffects(conn, init) + tail;
        SentToAppend(FrameEffects(conn, init), tail, c);
        assert tail == [SendTo(conn, Echo(t))] + [Emit(t)];
        SentToAppend([SendTo(conn, Echo(t))], [Emit(t)], c);
        SentToSingle(SendTo(conn, Echo(t)), c);
        SentToSingle(Emit(t), c);
        assert SentTo(tail, c) == if c == conn then [Echo(t)] else [];
        assert Texts(frames) == Texts(init) + [t];
        EchoesAppend(Texts(init), [t]);
      }
    }
  }

  lemma SentToSingle(e: Effect, c: Connection)
    ensures SentTo([e], c) == if e.SendTo? && e.conn == c then [e.text] else []
  {
    assert [e][..0] == [];
  }

  lemma EchoesAppend(a: seq<string>, b: seq<string>)
    ensures Echoes(a + b) == Echoes(a) + Echoes(b)
  {}

  /** The echo of each text frame comes right before its emit: effects alternate echo, emit. */
  lemma {:induction false} FrameEffectsPaired(conn: Connection, frames: seq<Frame>)
    ensures |FrameEffects(conn, frames)| == 2 * |Texts(frames)|
    ensures forall i :: 0 <= i < |Texts(frames)| ==>
      FrameEffects(conn, frames)[2 * i] == SendTo(conn, Echo(Texts(frames)[i])) &&
      FrameEffects(conn, frames)[2 * i + 1] == Emit(Texts(frames)[i])
    decreases |frames|
  {
    if frames != [] {
      FrameEffectsPaired(conn, frames[..|frames| - 1]);
    }
  }

  /**
   * Whether the frame loop ends inside the last `emit`: `messageFlow` has no
   * buffer, so `emit` waits for the collectors, and a cancellation while it
   * waits is caught after the echo of that frame has been sent.
   */
  predicate EmitCut(frames: seq<Frame>, lastEmitCancelled: bool)
  {
    lastEmitCancelled && frames != [] && frames[|frames| - 1].Text?
  }

  /** The effects of the frame loop over `frames`, whose last emit may be cancelled. */
  function Served(conn: Connection, frames: seq<Frame>, lastEmitCancelled: bool): seq<Effect>
  {
    if EmitCut(frames, lastEmitCancelled) then
      FrameEffects(conn, frames[..|frames| - 1]) + [SendTo(conn, Echo(frames[|frames| - 1].text))]
    else FrameEffects(conn, frames)
  }

  /** The texts that reach `messageFlow`: all of them, except one whose emit was cancelled. */
  function Delivered(frames: seq<Frame>, lastEmitCancelled: bool): seq<string>
  {
    if EmitCut(frames, lastEmitCancelled) then Texts(frames[..|frames| - 1]) else Texts(frames)
  }

  /** A cancelled emit takes away exactly the final `Emit` and nothing else. */
  lemma ServedDropsLastEmit(conn: Connection, frames: seq<Frame>, lastEmitCancelled: bool)
    ensures FrameEffects(conn, frames) ==
      Served(conn, frames, lastEmitCancelled) + (if EmitCut(frames, lastEmitCancelled) then [Emit(frames[|frames| - 1].text)] else [])
  {
    if EmitCut(frames, lastEmitCancelled) {
      var init := frames[..|frames| - 1];
      var t := frames[|frames| - 1].text;
      assert FrameEffects(conn, frames) == FrameEffects(conn, init) + [SendTo(conn, Echo(t)), Emit(t)];
    }
  }

  /** Even with the last emit cancelled, every text frame has been echoed, in order. */
  lemma ServedEchoed(conn: Connection, frames: seq<Frame>, lastEmitCancelled: bool, c: Connection)
    ensures SentTo(Served(conn, frames, lastEmitCancelled), c) == if c == conn then Echoes(Texts(frames)) else []
  {
    ServedDropsLastEmit(conn, frames, lastEmitCancelled);
    FrameEffectsEchoed(conn, frames, c);
    if EmitCut(frames, lastEmitCancelled) {
      var t := frames[|frames| - 1].text;
      SentToAppend(Served(conn, frames, lastEmitCancelled), [Emit(t)], c);
      SentToSingle(Emit(t), c);
      assert Served(conn, frames, lastEmitCancelled) + [] == Served(conn, frames, lastEmitCancelled);
    } else {
      assert Served(conn, frames, lastEmitCancelled) + [] == Served(conn, frames, lastEmitCancelled);
    }
  }

  /** `messageFlow` receives exactly the delivered texts. */
  lemma ServedEmitted(conn: Connection, frames: seq<Frame>, lastEmitCancelled: bool)
    ensures Emitted(Served(conn, frames, lastEmitCancelled)) == Delivered(frames, lastEmitCancelled)
  {
    if EmitCut(frames, lastEmitCancelled) {
      var init := frames[..|frames| - 1];
      var echo := SendTo(conn, Echo(frames[|frames| - 1].text));
      FrameEffectsEmitted(conn, init);
      EmittedAppend(FrameEffects(conn, init), [echo]);
      assert [echo][..0] == [];
    } else {
      FrameEffectsEmitted(conn, frames);
    }
  }

  /** `CopyOnWriteArrayList.remove(o)`: drops the first occurrence of `x`, if any. */
  function RemoveFirst(s: seq<Connection>, x: Connection): seq<Connection>
    decreases |s|
  {
    if s == [] then [] else if s[0] == x then s[1..] else [s[0]] + RemoveFirst(s[1..], x)
  }

  /** Removing a connection that was appended to a list not holding it restores the list. */
  lemma {:induction false} RemoveAppended(s: seq<Connection>, x: Connection)
    requires x !in s
    ensures RemoveFirst(s + [x], x) == s
    decreases |s|
  {
    if s != [] {
      assert (s + [x])[1..] == s[1..] + [x];
      RemoveAppended(s[1..], x);
    }
  }

  /** The engines still running once `e` has been stopped. */
  function Without(s: seq<Engine>, e: Engine): seq<Engine>
    decreases |s|
  {
    if s == [] then [] else (if s[0] == e then [] else [s[0]]) + Without(s[1..], e)
  }

  /** Stopping an engine that is not running leaves the running ones as they are. */
  lemma {:induction false} WithoutAbsent(s: seq<Engine>, e: Engine)
    requires e !in s
    ensures Without(s, e) == s
    decreases |s|
  {
    if s != [] {
      WithoutAbsent(s[1..], e);
    }
  }

  class KtorWebSocketServer {
    /** The `server` field. */
    var server: Option<Engine>
    /** The `sessions` list of live connections. */
    var sessions: seq<Connection>
    /** Frames sent and values emitted to `messageFlow`, in order. */
    var effects: seq<Effect>
    /** The number of engines created so far. */
    var created: nat
    /** Engines running, each blocked in `start(wait = true)`. */
    var listeners: seq<Engine>
    /** Engines on which `stop(1000, 2000)` was called, in order. */
    var stopCalls: seq<StopCall>

    /**
     * At most one listener holds the port, and the `server` field never names a
     * running one: it is assigned only once `start(wait = true)` has returned.
     */
    ghost predicate Valid()
      reads this
    {
      |listeners| <= 1 && (server.Some? ==> server.value !in listeners) &&
      (server.Some? ==> server.value.serial < created) && (forall e :: e in listeners ==> e.serial < created)
    }

    /** Everything emitted to `messageFlow`. */
    function MessageFlow(): seq<string>
      reads this
    {
      Emitted(effects)
    }

    constructor ()
      ensures Valid()
      ensures server == None && sessions == [] && effects == [] && created == 0 && listeners == [] && stopCalls == []
    {
      server := None;
      sessions := [];
      effects := [];
      created := 0;
      listeners := [];
      stopCalls := [];
    }

    /**
     * `startServer`: stops the engine in `server`, if any, then creates an engine
     * with the fixed settings and starts it, waiting.  It binds only when no
     * listener holds the port; `server` is left as it was, since the assignment
     * waits for `start` to return.
     */
    method StartServer() returns (bound: bool)
      requires Valid()
      modifies this
      ensures Valid()
      ensures server == old(server)
      ensures stopCalls == old(stopCalls) + (if old(server).Some? then [StopCall(old(server).value, StopGraceMillis, StopTimeoutMillis)] else [])
      ensures created == old(created) + 1
      ensures bound == (old(listeners) == [])
      ensures listeners == old(listeners) + (if bound then [Engine(old(created), Config)] else [])
      ensures sessions == old(sessions) && effects == old(effects)
    {
      if server.Some? {
        StopServer();
      }
      var engine := Engine(created, Config);
      created := created + 1;
      bound := listeners == [];
      if bound {
        listeners := listeners + [engine];
      }
    }

    /**
     * `stopServer`: nothing when `server` is null; otherwise `stop(1000, 2000)` on
     * that engine, which is never a running one.  `server` is never reset.
     */
    method StopServer()
      requires Valid()
      modifies this
      ensures Valid()
      ensures server == old(server)
      ensures stopCalls == old(stopCalls) + (if old(server).Some? then [StopCall(old(server).value, StopGraceMillis, StopTimeoutMillis)] else [])
      ensures listeners == old(listeners)
      ensures sessions == old(sessions) && effects == old(effects) && created == old(created)
    {
      if server.Some? {
        stopCalls := stopCalls + [StopCall(server.value, StopGraceMillis, StopTimeoutMillis)];
        WithoutAbsent(listeners, server.value);
        listeners := Without(listeners, server.value);
      }
    }

    /** A running engine shuts down by itself: `start` returns and its task assigns `server`. */
    method ListenerReturns()
      requires Valid()
      requires listeners != []
      modifies this
      ensures Valid()
      ensures server == Some(old(listeners)[0]) && listeners == []
      ensures sessions == old(sessions) && effects == old(effects) && created == old(created) && stopCalls == old(stopCalls)
    {
      server := Some(listeners[0]);
      listeners := [];
    }

    /**
     * The frame loop of connection `conn`: echo then emit each text frame, ignore
     * the rest.  With `lastEmitCancelled`, the emit of a final text frame is
     * cancelled after its echo was sent, and the loop ends there.
     */
    method ServeFrames(conn: Connection, frames: seq<Frame>, lastEmitCancelled: bool)
      modifies this`effects
      ensures effects == old(effects) + Served(conn, frames, lastEmitCancelled)
      ensures MessageFlow() == old(MessageFlow()) + Delivered(frames, lastEmitCancelled)
    {
      var i := 0;
      while i < |frames|
        invariant 0 <= i <= |frames|
        invariant effects == old(effects) + Served(conn, frames[..i], lastEmitCancelled && i == |frames|)
      {
        assert frames[..i + 1][..i] == frames[..i];
        var cut := lastEmitCancelled && i == |frames| - 1;
        if frames[i].Text? {
          var received := frames[i].text;
          effects := effects + [SendTo(conn, Echo(received))];
          if !cut {
            effects := effects + [Emit(received)];
          }
        }
        i := i + 1;
      }
      assert frames[..|frames|] == frames;
      EmittedAppend(old(effects), Served(conn, frames, lastEmitCancelled));
      ServedEmitted(conn, frames, lastEmitCancelled);
    }

    /**
     * The `/ws` handler for a new connection `conn`, which receives `frames`
     * before its loop ends by a close or an exception, both caught (a cancelled
     * last emit is one such exception).  The welcome
     * text is sent before the `try`: when that send throws (`welcomeSent` false)
     * the `finally` never runs and `conn` stays in `sessions`.
     */
    method HandleConnection(conn: Connection, welcomeSent: bool, frames: seq<Frame>, lastEmitCancelled: bool)
      requires conn !in sessions
      modifies this`sessions, this`effects
      ensures welcomeSent ==> sessions == old(sessions)
      ensures !welcomeSent ==> sessions == old(sessions) + [conn]
      ensures effects == old(effects) + (if welcomeSent then [SendTo(conn, Welcome)] + Served(conn, frames, lastEmitCancelled) else [])
      ensures MessageFlow() == old(MessageFlow()) + (if welcomeSent then Delivered(frames, lastEmitCancelled) else [])
    {
      sessions := sessions + [conn];
      if !welcomeSent {
        return;
      }
      EmittedAppend(effects, [SendTo(conn, Welcome)]);
      effects := effects + [SendTo(conn, Welcome)];
      ServeFrames(conn, frames, lastEmitCancelled);
      RemoveAppended(old(sessions), conn);
      sessions := RemoveFirst(sessions, conn);
    }

    /** The handler with the welcome send moved inside the `try`: `sessions` is restored on every path. */
    method HandleConnectionCorrected(conn: Connection, welcomeSent: bool, frames: seq<Frame>, lastEmitCancelled: bool)
      requires conn !in sessions
      modifies this`sessions, this`effects
      ensures sessions == old(sessions)
      ensures effects == old(effects) + (if welcomeSent then [SendTo(conn, Welcome)] + Served(conn, frames, lastEmitCancelled) else [])
      ensures MessageFlow() == old(MessageFlow()) + (if welcomeSent then Delivered(frames, lastEmitCancelled) else [])
    {
      sessions := sessions + [conn];
      if welcomeSent {
        EmittedAppend(effects, [SendTo(conn, Welcome)]);
        effects := effects + [SendTo(conn, Welcome)];
        ServeFrames(conn, frames, lastEmitCancelled);
      }
      RemoveAppended(old(sessions), conn);
      sessions := RemoveFirst(sessions, conn);
    }
  }

  /** As written: a connection whose welcome send fails stays in `sessions` for good. */
  method FailedWelcomeKeepsSession() returns (s: KtorWebSocketServer)
    ensures s.sessions == [0] && s.effects == []
  {
    s := new KtorWebSocketServer();
    s.HandleConnection(0, false, [], false);
  }

  /** Corrected: the same connection is removed again, and nothing was sent. */
  method FailedWelcomeCorrected() returns (s: KtorWebSocketServer)
    ensures s.sessions == [] && s.effects == []
  {
    s := new KtorWebSocketServer();
    s.HandleConnectionCorrected(0, false, [], false);
  }

  /** As written: start, then stop, leaves the listener running (and a restart cannot bind). */
  method StopAfterStartKeepsListener() returns (s: KtorWebSocketServer, rebound: bool)
    ensures s.listeners == [Engine(0, Config)] && s.server == None && s.stopCalls == []
    ensures !rebound
  {
    s := new KtorWebSocketServer();
    var bound := s.StartServer();
    s.StopServer();
    rebound := s.StartServer();
  }

  /**
   * The intended lifecycle: `server` is assigned as soon as the engine starts
   * (as with `start(wait = false)`), and `stopServer` stops it and clears the field.
   */
  class CorrectedLifecycle {
    var server: Option<Engine>
    var created: nat
    var listeners: seq<Engine>
    var stopCalls: seq<StopCall>

    ghost predicate Valid()
      reads this
    {
      if server.Some? then listeners == [server.value] else listeners == []
    }

    constructor ()
      ensures Valid() && server == None && created == 0 && stopCalls == []
    {
      server := None;
      created := 0;
      listeners := [];
      stopCalls := [];
    }

    method StartServer()
      requires Valid()
      modifies this
      ensures Valid()
      ensures server == Some(Engine(old(created), Config)) && listeners == [server.value]
      ensures created == old(created) + 1
      ensures stopCalls == old(stopCalls) + (if old(server).Some? then [StopCall(old(server).value, StopGraceMillis, StopTimeoutMillis)] else [])
    {
      if server.Some? {
        StopServer();
      }
      var engine := Engine(created, Config);
      created := created + 1;
      listeners := listeners + [engine];
      server := Some(engine);
    }

    method StopServer()
      requires Valid()
      modifies this
      ensures Valid()
      ensures server == None && listeners == []
      ensures created == old(created)
      ensures stopCalls == old(stopCalls) + (if old(server).Some? then [StopCall(old(server).value, StopGraceMillis, StopTimeoutMillis)] else [])
    {
      if server.Some? {
        stopCalls := stopCalls + [StopCall(server.value, StopGraceMillis, StopTimeoutMillis)];
        assert Without([server.value], server.value) == [] + Without([], server.value);
        listeners := Without(listeners, server.value);
        server := None;
      }
    }
  }

  /** Corrected: start, then stop, leaves nothing running, and a restart binds a new engine. */
  method StopAfterStartCorrected() returns (s: CorrectedLifecycle)
    ensures s.listeners == [Engine(1, Config)] && s.stopCalls == [StopCall(Engine(0, Config), StopGraceMillis, StopTimeoutMillis)]
  {
    s := new CorrectedLifecycle();
    s.StartServer();
    s.StopServer();
    assert s.listeners == [];
    s.StartServer();
  }
}
