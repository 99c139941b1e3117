/**
 * `Logger`: the line emission of `print` (optional decoration lines, then the
 * message cut into pieces of at most 3800 characters), the level dispatch of
 * `log`, and the tag and flag state that `init` and the setters change.
 * `android.util.Log` is modelled as a list of emitted lines.
 */
module LogLib {
  import opened Common

  datatype Type = VERBOSE | DEBUG | INFO | WARN | ERROR

  /** Which of `Log.v`, `Log.d`, `Log.i`, `Log.w`, `Log.e` a line goes to. */
  datatype Priority = LogV | LogD | LogI | LogW | LogE

  datatype LogLine = LogLine(priority: Priority, tag: string, msg: string)

  /** 56 box-drawing horizontals (U+2500). */
  const DOUBLE_DIVIDER := "────────────────────────────────────────────────────────"
  /** 56 box-drawing quadruple-dash horizontals (U+2504). */
  const SINGLE_DIVIDER := "┄┄┄┄┄┄┄┄┄┄┄┄┄┄┄┄┄┄┄┄┄┄┄┄┄┄┄┄┄┄┄┄┄┄┄┄┄┄┄┄┄┄┄┄┄┄┄┄┄┄┄┄┄┄┄┄"
  const MAX_LENGTH: nat := 3800

  /** The line drawn above and below a decorated message. */
  const TopOrBottomBorder := DOUBLE_DIVIDER + DOUBLE_DIVIDER
  /** The line drawn between the parts of a decorated message. */
  const MiddleBorder := SINGLE_DIVIDER + SINGLE_DIVIDER

  /** `log`: each `Type` goes to its own `Log` method. */
  function PriorityOf(t: Type): Priority
  {
    match t
    case VERBOSE => LogV
    case DEBUG => LogD
    case INFO => LogI
    case WARN => LogW
    case ERROR => LogE
  }

  function TypeOf(p: Priority): Type
  {
    match p
    case LogV => VERBOSE
    case LogD => DEBUG
    case LogI => INFO
    case LogW => WARN
    case LogE => ERROR
  }

  /** The dispatch is one-to-one and onto: `TypeOf` undoes it in both directions. */
  lemma DispatchOneToOne(t: Type, p: Priority)
    ensures TypeOf(PriorityOf(t)) == t
    ensures PriorityOf(TypeOf(p)) == p
    ensures PriorityOf(t) == p <==> t == TypeOf(p)
  {}

  function Min(a: int, b: int): int
  {
    if a <= b then a else b
  }

  /** The pieces `msg.substring(startIndex, endIndex)` of the chunking loop, in order. */
  function Chunks(m: string): seq<string>
    decreases |m|
  {
    if m == [] then []
    else if |m| <= MAX_LENGTH then [m]
    else [m[..MAX_LENGTH]] + Chunks(m[MAX_LENGTH..])
  }

  function Concat(pieces: seq<string>): string
    decreases |pieces|
  {
    if pieces == [] then [] else pieces[0] + Concat(pieces[1..])
  }

  /** The message lines of `print`: one line when it fits, its chunks otherwise. */
  function MessageLines(m: string): seq<string>
  {
    if |m| > MAX_LENGTH then Chunks(m) else [m]
  }

  /** The chunks put back together give the message. */
  lemma {:induction false} ChunksConcat(m: string)
    ensures Concat(Chunks(m)) == m
    decreases |m|
  {
    if |m| > MAX_LENGTH {
      ChunksConcat(m[MAX_LENGTH..]);
      assert m == m[..MAX_LENGTH] + m[MAX_LENGTH..];
    }
  }

  /** Every chunk is non-empty and at most 3800 long; all but the last are exactly 3800 long. */
  lemma {:induction false} ChunksSizes(m: string)
    ensures forall i :: 0 <= i < |Chunks(m)| ==> 0 < |Chunks(m)[i]| <= MAX_LENGTH
    ensures forall i :: 0 <= i < |Chunks(m)| - 1 ==> |Chunks(m)[i]| == MAX_LENGTH
    decreases |m|
  {
    if |m| > MAX_LENGTH {
      ChunksSizes(m[MAX_LENGTH..]);
    }
  }

  /** There are ceil(|m| / 3800) chunks. */
  lemma {:induction false} ChunksCount(m: string)
    ensures |Chunks(m)| == (|m| + MAX_LENGTH - 1) / MAX_LENGTH
    decreases |m|
  {
    if |m| > MAX_LENGTH {
      ChunksCount(m[MAX_LENGTH..]);
    }
  }

  /** One turn of the chunking loop: the piece from `s`, then the chunks of the rest. */
  lemma ChunksStep(m: string, s: nat)
    requires s < |m|
    ensures Chunks(m[s..]) == [m[s..Min(s + MAX_LENGTH, |m|)]] + Chunks(m[Min(s + MAX_LENGTH, |m|)..])
  {
    var t := m[s..];
    if |t| > MAX_LENGTH {
      assert t[..MAX_LENGTH] == m[s..s + MAX_LENGTH];
      assert t[MAX_LENGTH..] == m[s + MAX_LENGTH..];
    } else {
      assert Chunks(t) == [t];
      assert m[s..|m|] == t;
      assert m[|m|..] == [];
    }
  }

  /**
   * The message lines: a message of at most 3800 characters is one line, as it
   * is; every line is at most 3800 long; together they give the message back.
   */
  lemma MessageLinesSpec(m: string)
    ensures |m| <= MAX_LENGTH ==> MessageLines(m) == [m]
    ensures |m| > MAX_LENGTH ==> |MessageLines(m)| == (|m| + MAX_LENGTH - 1) / MAX_LENGTH
    ensures forall i :: 0 <= i < |MessageLines(m)| ==> |MessageLines(m)[i]| <= MAX_LENGTH
    ensures Concat(MessageLines(m)) == m
  {
    if |m| > MAX_LENGTH {
      ChunksConcat(m);
      ChunksSizes(m);
      ChunksCount(m);
    } else {
      assert [m][1..] == [];
      assert m + [] == m;
    }
  }

  // ---------------------------------------------------------------------------
  // What `print` emits

  function DigitChar(d: nat): char
    requires d < 10
  {
    "0123456789"[d]
  }

  function NatText(n: nat): string
    decreases n
  {
    if n < 10 then [DigitChar(n)] else NatText(n / 10) + [DigitChar(n % 10)]
  }

  /** Kotlin's decimal text of an `Int`. */
  function IntText(i: int): string
  {
    if i < 0 then "-" + NatText(-i) else NatText(i)
  }

  /** Kotlin's string template for a nullable string: null prints as "null". */
  function NullableText(s: Option<string>): string
  {
    if s.Some? then s.value else "null"
  }

  datatype StackFrame = StackFrame(className: string, methodName: string, fileName: Option<string>, lineNumber: int)

  /** The `occurred: Throwable?` argument: null, or a throwable with its stack trace. */
  datatype Occurred = NoThrowable | Thrown(stackTrace: seq<StackFrame>)

  /** `print` is always called with `printStackLayer = 1`. */
  const PrintStackLayer: nat := 1

  /** `"$className.$methodName   ($fileName:$lineNumber)"`. */
  function TraceText(f: StackFrame): string
  {
    f.className + "." + f.methodName + "   (" + NullableText(f.fileName) + ":" + IntText(f.lineNumber) + ")"
  }

  /** The three flags `print` consults. */
  datatype Settings = Settings(traceCodeEnabled: bool, decorEnabled: bool, threadInfoEnabled: bool)

  function Border(on: bool, line: string): seq<string>
  {
    if on then [line] else []
  }

  /** The optional thread line, followed by a middle border when decorated. */
  function ThreadPart(s: Settings, threadName: string): seq<string>
  {
    if s.threadInfoEnabled then ["Thread: " + threadName] + Border(s.decorEnabled, MiddleBorder) else []
  }

  /** The optional code location (when the stack has that layer), followed by a middle border when decorated. */
  function TracePart(s: Settings, occurred: Occurred): seq<string>
  {
    if s.traceCodeEnabled && occurred.Thrown? then Location(occurred.stackTrace) + Border(s.decorEnabled, MiddleBorder)
    else []
  }

  /** `stackTrace.getOrNull(printStackLayer)?.run { ... }`: the frame's line, if there is such a frame. */
  function Location(stackTrace: seq<StackFrame>): seq<string>
  {
    if PrintStackLayer < |stackTrace| then [TraceText(stackTrace[PrintStackLayer])] else []
  }

  /** The lines `print` logs before the message. */
  function Header(s: Settings, threadName: string, occurred: Occurred): seq<string>
  {
    Border(s.decorEnabled, TopOrBottomBorder) + ThreadPart(s, threadName) + TracePart(s, occurred)
  }

  /** The texts `print` logs for a non-null message, in order. */
  function PrintedTexts(s: Settings, m: string, threadName: string, occurred: Occurred): seq<string>
  {
    Header(s, threadName, occurred) + MessageLines(m) + Border(s.decorEnabled, TopOrBottomBorder)
  }

  /** Each text logged with the call's tag at the call's level. */
  function Lines(tag: string, t: Type, texts: seq<string>): seq<LogLine>
    decreases |texts|
  {
    if texts == [] then [] else Lines(tag, t, texts[..|texts| - 1]) + [LogLine(PriorityOf(t), tag, texts[|texts| - 1])]
  }

  /** The lines `print` emits: none at all for a null message. */
  function Printed(s: Settings, msg: Option<string>, tag: string, t: Type, threadName: string, occurred: Occurred): seq<LogLine>
  {
    if msg.None? then [] else Lines(tag, t, PrintedTexts(s, msg.value, threadName, occurred))
  }

  /** How many lines come before the message: borders, thread line and code location. */
  function HeaderCount(s: Settings, occurred: Occurred): nat
  {
    var d := if s.decorEnabled then 1 else 0;
    d
    + (if s.threadInfoEnabled then 1 + d else 0)
    + (if s.traceCodeEnabled && occurred.Thrown? then (if PrintStackLayer < |occurred.stackTrace| then 1 else 0) + d else 0)
  }

  lemma LinesSnoc(tag: string, t: Type, a: seq<string>, x: string)
    ensures Lines(tag, t, a + [x]) == Lines(tag, t, a) + [LogLine(PriorityOf(t), tag, x)]
  {
    assert (a + [x])[..|a|] == a;
  }

  lemma {:induction false} LinesAppend(tag: string, t: Type, a: seq<string>, b: seq<string>)
    ensures Lines(tag, t, a + b) == Lines(tag, t, a) + Lines(tag, t, b)
    decreases |b|
  {
    if b != [] {
      var b' := b[..|b| - 1];
      var x := b[|b| - 1];
      assert b == b' + [x];
      assert a + b == (a + b') + [x];
      LinesAppend(tag, t, a, b');
      LinesSnoc(tag, t, a + b', x);
      LinesSnoc(tag, t, b', x);
    } else {
      assert a + b == a;
    }
  }

  /** One line per text, in order, each with the call's tag and level. */
  lemma {:induction false} LinesSpec(tag: string, t: Type, texts: seq<string>)
    ensures |Lines(tag, t, texts)| == |texts|
    ensures forall i :: 0 <= i < |texts| ==> Lines(tag, t, texts)[i] == LogLine(PriorityOf(t), tag, texts[i])
    decreases |texts|
  {
    if texts != [] {
      LinesSpec(tag, t, texts[..|texts| - 1]);
    }
  }

  /** The lines of `print`: header, message lines, bottom border. */
  lemma PrintedParts(s: Settings, m: string, tag: string, t: Type, threadName: string, occurred: Occurred)
    ensures Printed(s, Some(m), tag, t, threadName, occurred) ==
      Lines(tag, t, Header(s, threadName, occurred)) + Lines(tag, t, MessageLines(m)) + Lines(tag, t, Border(s.decorEnabled, TopOrBottomBorder))
    ensures Lines(tag, t, Border(s.decorEnabled, TopOrBottomBorder)) ==
      if s.decorEnabled then [LogLine(PriorityOf(t), tag, TopOrBottomBorder)] else []
  {
    LinesAppend(tag, t, Header(s, threadName, occurred) + MessageLines(m), Border(s.decorEnabled, TopOrBottomBorder));
    LinesAppend(tag, t, Header(s, threadName, occurred), MessageLines(m));
    LinesSnoc(tag, t, [], TopOrBottomBorder);
  }

  lemma ConcatAssoc<T>(a: seq<T>, b: seq<T>, c: seq<T>, d: seq<T>)
    ensures a + b + c + d == a + (b + c + d)
  {}

  /** A null message emits nothing, not even a border. */
  lemma PrintedNull(s: Settings, tag: string, t: Type, threadName: string, occurred: Occurred)
    ensures Printed(s, None, tag, t, threadName, occurred) == []
  {}

  /** Every emitted line carries the call's tag and goes to the `Log` method of the call's level. */
  lemma PrintedTagged(s: Settings, msg: Option<string>, tag: string, t: Type, threadName: string, occurred: Occurred)
    ensures forall l :: l in Printed(s, msg, tag, t, threadName, occurred) ==> l.tag == tag && l.priority == PriorityOf(t)
  {
    if msg.Some? {
      LinesSpec(tag, t, PrintedTexts(s, msg.value, threadName, occurred));
    }
  }

  /**
   * The message lines sit after `HeaderCount` lines and before the bottom border;
   * they give the message back, and with decoration the first and the last line
   * are the doubled `DOUBLE_DIVIDER`.
   */
  lemma PrintedLayout(s: Settings, m: string, threadName: string, occurred: Occurred)
    ensures var texts := PrintedTexts(s, m, threadName, occurred);
      var k := HeaderCount(s, occurred);
      var d := if s.decorEnabled then 1 else 0;
      |texts| == k + |MessageLines(m)| + d &&
      texts[k..k + |MessageLines(m)|] == MessageLines(m) &&
      Concat(texts[k..k + |MessageLines(m)|]) == m &&
      (s.decorEnabled ==> texts[0] == TopOrBottomBorder && texts[|texts| - 1] == TopOrBottomBorder)
  {
    MessageLinesSpec(m);
    var head := Border(s.decorEnabled, TopOrBottomBorder) + ThreadPart(s, threadName) + TracePart(s, occurred);
    assert |head| == HeaderCount(s, occurred);
    var texts := PrintedTexts(s, m, threadName, occurred);
    assert texts == head + MessageLines(m) + Border(s.decorEnabled, TopOrBottomBorder);
    assert texts[|head|..|head| + |MessageLines(m)|] == MessageLines(m);
  }

  /**
   * Turning `threadInfoEnabled` on inserts exactly the thread line, and a middle
   * border when decorated, right after the top border; the rest is the same.
   */
  lemma ThreadLineInserted(s: Settings, m: string, threadName: string, occurred: Occurred)
    ensures var top := Border(s.decorEnabled, TopOrBottomBorder);
      var rest := TracePart(s, occurred) + MessageLines(m) + top;
      PrintedTexts(s.(threadInfoEnabled := false), m, threadName, occurred) == top + rest &&
      PrintedTexts(s.(threadInfoEnabled := true), m, threadName, occurred)
        == top + ["Thread: " + threadName] + Border(s.decorEnabled, MiddleBorder) + rest
  {
    var top := Border(s.decorEnabled, TopOrBottomBorder);
    var line := ["Thread: " + threadName];
    HeaderThread(s, threadName, occurred);
    ConcatAssoc(top, TracePart(s, occurred), MessageLines(m), top);
    ConcatAssoc(top + line + Border(s.decorEnabled, MiddleBorder), TracePart(s, occurred), MessageLines(m), top);
  }

  /** The header with the thread flag on and off. */
  lemma HeaderThread(s: Settings, threadName: string, occurred: Occurred)
    ensures Header(s.(threadInfoEnabled := true), threadName, occurred)
         == Border(s.decorEnabled, TopOrBottomBorder) + ["Thread: " + threadName] + Border(s.decorEnabled, MiddleBorder) + TracePart(s, occurred)
    ensures Header(s.(threadInfoEnabled := false), threadName, occurred)
         == Border(s.decorEnabled, TopOrBottomBorder) + TracePart(s, occurred)
  {
    assert TracePart(s.(threadInfoEnabled := true), occurred) == TracePart(s, occurred);
    assert TracePart(s.(threadInfoEnabled := false), occurred) == TracePart(s, occurred);
  }

  /** A short message with no flag set is logged as one line, unchanged. */
  lemma PrintedShortPlain(m: string, tag: string, t: Type, threadName: string, occurred: Occurred)
    requires |m| <= MAX_LENGTH
    ensures Printed(Settings(false, false, false), Some(m), tag, t, threadName, occurred) == [LogLine(PriorityOf(t), tag, m)]
  {
    assert Lines(tag, t, [m]) == Lines(tag, t, []) + [LogLine(PriorityOf(t), tag, m)];
  }

  // ---------------------------------------------------------------------------
  // The `Logger` object

  class Logger {
    var mainTag: string
    var secondTag: string
    var traceCodeEnabled: bool
    var decorEnabled: bool
    var threadInfoEnabled: bool
    /** Everything handed to `android.util.Log`, in order. */
    var output: seq<LogLine>

    constructor ()
      ensures mainTag == "Logger" && secondTag == ""
      ensures !traceCodeEnabled && !decorEnabled && !threadInfoEnabled
      ensures output == []
    {
      mainTag := "Logger";
      secondTag := "";
      traceCodeEnabled := false;
      decorEnabled := false;
      threadInfoEnabled := false;
      output := [];
    }

    /** The default `tag` argument, `mainTag + secondTag`, read at call time. */
    function DefaultTag(): string
      reads this
    {
      mainTag + secondTag
    }

    function CurrentSettings(): Settings
      reads this
    {
      Settings(traceCodeEnabled, decorEnabled, threadInfoEnabled)
    }

    /** `init(firstTag)`: only the main tag changes. */
    method Init(firstTag: string)
      modifies this`mainTag
      ensures mainTag == firstTag
      ensures DefaultTag() == firstTag + old(secondTag)
    {
      mainTag := firstTag;
    }

    /** `init(firstTag, secondTag)`: both tags change. */
    method InitWithSecondTag(firstTag: string, second: string)
      modifies this`mainTag, this`secondTag
      ensures mainTag == firstTag && secondTag == second
      ensures DefaultTag() == firstTag + second
    {
      mainTag := firstTag;
      secondTag := second;
    }

    /** `log`: one line to the `Log` method of level `t`. */
    method Log(tag: string, msg: string, t: Type)
      modifies this`output
      ensures output == old(output) + [LogLine(PriorityOf(t), tag, msg)]
    {
      match t
      case VERBOSE => output := output + [LogLine(LogV, tag, msg)];
      case DEBUG => output := output + [LogLine(LogD, tag, msg)];
      case INFO => output := output + [LogLine(LogI, tag, msg)];
      case WARN => output := output + [LogLine(LogW, tag, msg)];
      case ERROR => output := output + [LogLine(LogE, tag, msg)];
    }

    /** `logMiddleBorder`. */
    method LogMiddleBorder(tag: string, t: Type)
      modifies this`output
      ensures output == old(output) + [LogLine(PriorityOf(t), tag, MiddleBorder)]
    {
      Log(tag, MiddleBorder, t);
    }

    /** `logTopOrBottomBorder`. */
    method LogTopOrBottomBorder(tag: string, t: Type)
      modifies this`output
      ensures output == old(output) + [LogLine(PriorityOf(t), tag, TopOrBottomBorder)]
    {
      Log(tag, TopOrBottomBorder, t);
    }

    /** The chunking loop of `print` for a message longer than 3800 characters. */
    method LogChunks(tag: string, m: string, t: Type)
      requires |m| > MAX_LENGTH
      modifies this`output
      ensures output == old(output) + Lines(tag, t, Chunks(m))
    {
      var length := |m|;
      var startIndex := 0;
      var endIndex := MAX_LENGTH;
      ghost var done: seq<string> := [];
      while startIndex < length
        invariant startIndex < length ==> endIndex == startIndex + MAX_LENGTH
        invariant output == old(output) + Lines(tag, t, done)
        invariant done + Chunks(m[Min(startIndex, length)..]) == Chunks(m)
        decreases length - startIndex
      {
        endIndex := Min(length, endIndex);
        ChunksStep(m, startIndex);
        Log(tag, m[startIndex..endIndex], t);
        LinesSnoc(tag, t, done, m[startIndex..endIndex]);
        done := done + [m[startIndex..endIndex]];
        startIndex := startIndex + MAX_LENGTH;
        endIndex := endIndex + MAX_LENGTH;
      }
      assert m[Min(startIndex, length)..] == [];
      assert done + [] == done;
    }

    /** The optional top border of `print`. */
    method PrintTop(tag: string, t: Type)
      modifies this`output
      ensures output == old(output) + Lines(tag, t, Border(old(decorEnabled), TopOrBottomBorder))
    {
      if decorEnabled {
        LogTopOrBottomBorder(tag, t);
        LinesSnoc(tag, t, [], TopOrBottomBorder);
      }
    }

    /** The thread part of `print`: the thread line, then a middle border when decorated. */
    method PrintThread(tag: string, t: Type, threadName: string)
      modifies this`output
      ensures output == old(output) + Lines(tag, t, ThreadPart(old(CurrentSettings()), threadName))
    {
      if threadInfoEnabled {
        Log(tag, "Thread: " + threadName, t);
        LinesSnoc(tag, t, [], "Thread: " + threadName);
        if decorEnabled {
          LogMiddleBorder(tag, t);
          LinesSnoc(tag, t, ["Thread: " + threadName], MiddleBorder);
          assert ["Thread: " + threadName] + [MiddleBorder] == ["Thread: " + threadName] + Border(true, MiddleBorder);
        }
      }
    }

    /** The code-location line, when the stack trace has a frame at `PrintStackLayer`. */
    method PrintLocation(tag: string, t: Type, stackTrace: seq<StackFrame>)
      modifies this`output
      ensures output == old(output) + Lines(tag, t, Location(stackTrace))
    {
      if PrintStackLayer < |stackTrace| {
        var location := TraceText(stackTrace[PrintStackLayer]);
        Log(tag, location, t);
        LinesSnoc(tag, t, [], location);
      }
    }

    /** The code-location part of `print`, then a middle border when decorated. */
    method PrintTrace(tag: string, t: Type, occurred: Occurred)
      modifies this`output
      ensures output == old(output) + Lines(tag, t, TracePart(old(CurrentSettings()), occurred))
    {
      if traceCodeEnabled && occurred.Thrown? {
        PrintLocation(tag, t, occurred.stackTrace);
        ghost var texts := Location(occurred.stackTrace);
        if decorEnabled {
          LogMiddleBorder(tag, t);
          LinesSnoc(tag, t, texts, MiddleBorder);
          ConcatAssoc(old(output), Lines(tag, t, texts), [LogLine(PriorityOf(t), tag, MiddleBorder)], []);
          texts := texts + [MiddleBorder];
        }
        assert texts == TracePart(old(CurrentSettings()), occurred);
      }
    }

    /** The lines before the message: top border, thread line, code location. */
    method PrintHeader(tag: string, t: Type, threadName: string, occurred: Occurred)
      modifies this`output
      ensures output == old(output) + Lines(tag, t, Header(old(CurrentSettings()), threadName, occurred))
    {
      var s := CurrentSettings();
      PrintTop(tag, t);
      PrintThread(tag, t, threadName);
      PrintTrace(tag, t, occurred);
      ghost var top := Border(s.decorEnabled, TopOrBottomBorder);
      LinesAppend(tag, t, top, ThreadPart(s, threadName));
      LinesAppend(tag, t, top + ThreadPart(s, threadName), TracePart(s, occurred));
      ConcatAssoc(old(output), Lines(tag, t, top), Lines(tag, t, ThreadPart(s, threadName)), Lines(tag, t, TracePart(s, occurred)));
    }

    /** The message part of `print`: one line, or the chunking loop for a long message. */
    method PrintMessage(tag: string, m: string, t: Type)
      modifies this`output
      ensures output == old(output) + Lines(tag, t, MessageLines(m))
    {
      if |m| > MAX_LENGTH {
        LogChunks(tag, m, t);
      } else {
        Log(tag, m, t);
        assert Lines(tag, t, [m]) == Lines(tag, t, []) + [LogLine(PriorityOf(t), tag, m)];
      }
    }

    /** `print`: the decoration, thread and code-location lines around the message lines. */
    method Print(msg: Option<string>, tag: string, t: Type, threadName: string, occurred: Occurred)
      modifies this`output
      ensures output == old(output) + Printed(old(CurrentSettings()), msg, tag, t, threadName, occurred)
    {
      if msg.None? {
        return;
      }
      var m := msg.value;
      var s := CurrentSettings();
      PrintHeader(tag, t, threadName, occurred);
      ghost var o1 := output;
      PrintMessage(tag, m, t);
      ghost var o2 := output;
      if s.decorEnabled {
        LogTopOrBottomBorder(tag, t);
      }
      ghost var header := Lines(tag, t, Header(s, threadName, occurred));
      ghost var body := Lines(tag, t, MessageLines(m));
      ghost var bottom := Lines(tag, t, Border(s.decorEnabled, TopOrBottomBorder));
      PrintedParts(s, m, tag, t, threadName, occurred);
      assert output == old(output) + header + body + bottom;
      ConcatAssoc(old(output), header, body, bottom);
    }

    /**
     * `v`, `d`, `i`, `w` and `e`, which differ only in the level: `msg.toString()`
     * turns a null message into the text "null"; `tag` defaults to `DefaultTag()`.
     */
    method LogAt(t: Type, msg: Option<string>, tag: Option<string>, threadName: string, occurred: Occurred)
      modifies this`output
      ensures output == old(output) +
        Printed(old(CurrentSettings()), Some(NullableText(msg)), if tag.Some? then tag.value else old(DefaultTag()),
                t, threadName, occurred)
    {
      var theTag := if tag.Some? then tag.value else DefaultTag();
      Print(Some(NullableText(msg)), theTag, t, threadName, occurred);
    }

    /**
     * `json`: nothing for a null text; otherwise the text as formatted by
     * `JSONTokener` (the `format` argument) is printed.  The level `t` defaults
     * to `DEBUG`, and `tag` to `DefaultTag()`.
     */
    method Json(jsonMsg: Option<string>, format: string -> string, tag: Option<string>, t: Option<Type>, threadName: string, occurred: Occurred)
      modifies this`output
      ensures jsonMsg.None? ==> output == old(output)
      ensures jsonMsg.Some? ==>
        output == old(output) + Printed(old(CurrentSettings()), Some(format(jsonMsg.value)),
                                        if tag.Some? then tag.value else old(DefaultTag()),
                                        if t.Some? then t.value else DEBUG, threadName, occurred)
    {
      if jsonMsg.None? {
        return;
      }
      var theTag := if tag.Some? then tag.value else DefaultTag();
      var theType := if t.Some? then t.value else DEBUG;
      Print(Some(format(jsonMsg.value)), theTag, theType, threadName, occurred);
    }
  }
}
