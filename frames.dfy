/** WebSocket frames as the client and the server handlers see them. */
module Frames {

  datatype Frame =
    | Text(text: string)
    | Binary(data: seq<bv8>)
    | Close(code: nat, reason: string)
    | Ping(data: seq<bv8>)
    | Pong(data: seq<bv8>)

  /** `CloseReason.Codes.NORMAL`. */
  const NormalClosure: nat := 1000

  /** The texts of the text frames, in arrival order; other frames contribute nothing. */
  function Texts(frames: seq<Frame>): seq<string>
    decreases |frames|
  {
    if frames == [] then []
    else Texts(frames[..|frames| - 1]) + (if frames[|frames| - 1].Text? then [frames[|frames| - 1].text] else [])
  }

  /** Receiving `a` then `b` delivers the texts of `a` then those of `b`. */
  lemma {:induction false} TextsAppend(a: seq<Frame>, b: seq<Frame>)
    ensures Texts(a + b) == Texts(a) + Texts(b)
    decreases |b|
  {
    if b == [] {
      assert a + b == a;
    } else {
      var b' := b[..|b| - 1];
      assert (a + b)[..|a + b| - 1] == a + b';
      TextsAppend(a, b');
    }
  }

  /** A text is delivered exactly when a text frame carrying it arrived. */
  lemma {:induction false} TextsMembers(frames: seq<Frame>, t: string)
    ensures t in Texts(frames) <==> Text(t) in frames
    decreases |frames|
  {
    if frames != [] {
      var f' := frames[..|frames| - 1];
      TextsMembers(f', t);
      assert frames == f' + [frames[|frames| - 1]];
    }
  }

  /** One delivery per text frame: no more texts than frames, and none at all without a text frame. */
  lemma {:induction false} TextsCount(frames: seq<Frame>)
    ensures |Texts(frames)| <= |frames|
    ensures (forall i :: 0 <= i < |frames| ==> !frames[i].Text?) ==> Texts(frames) == []
    decreases |frames|
  {
    if frames != [] {
      TextsCount(frames[..|frames| - 1]);
    }
  }
}
