/**
 * The `onResponse(status, payload)` protocol of the streaming HTTP helpers.
 *
 * A streaming call is modelled by what its transport delivers (the received
 * event data or lines, in order, followed by how the stream ended) and by
 * which invocations of the caller's callback throw.  What the caller observes
 * is the sequence of callback invocations, plus the throwable that escapes
 * the call when the callback invoked from `onFailure` itself throws.
 */
module Streaming {
  import opened Common

  /** The sealed class `RequestStatus` with its three objects. */
  datatype RequestStatus = SUCCESS | ERROR | FINISH {
    predicate IsSuccess() { SUCCESS? }
    predicate IsError() { ERROR? }
    predicate IsFinish() { FINISH? }
  }

  /** Exactly one of the three predicates holds, and it names the object. */
  lemma StatusPredicatesPartition(s: RequestStatus)
    ensures s.IsSuccess() <==> !s.IsError() && !s.IsFinish()
    ensures s.IsError() <==> !s.IsSuccess() && !s.IsFinish()
    ensures s.IsFinish() <==> !s.IsSuccess() && !s.IsError()
    ensures s.IsSuccess() <==> s == SUCCESS
    ensures s.IsError() <==> s == ERROR
    ensures s.IsFinish() <==> s == FINISH
  {}

  /**
   * A Kotlin throwable as far as these helpers look at it: its message, whether
   * it is a `CancellationException`, and whether its cause is an `EOFException`.
   */
  datatype Throwable = Throwable(message: Option<string>, isCancellation: bool, causeIsEof: bool)

  /** `it.message.toString()`: a null message becomes the text "null". */
  function MessageText(t: Throwable): string
  {
    match t.message
    case Some(m) => m
    case None => "null"
  }

  /** One invocation of `onResponse(status, payload)`; the payload is nullable. */
  datatype Call = Call(status: RequestStatus, payload: Option<string>)

  const FinishCall := Call(FINISH, Some(""))

  function ErrorCall(t: Throwable): Call
  {
    Call(ERROR, Some(MessageText(t)))
  }

  /** How the received stream ended: closed normally, or by a throwable (cancellation included). */
  datatype Ending = Closed | Failed(error: Throwable)

  function BodyFailure(ending: Ending): Option<Throwable>
  {
    match ending
    case Closed => None
    case Failed(t) => Some(t)
  }

  /** Invocation number `i` (counted from 0) of the callback throws `faults[i]`. */
  type Faults = map<nat, Throwable>

  /** The callback invocations made, and the throwable that escapes the call, if any. */
  datatype Outcome = Outcome(calls: seq<Call>, escaped: Option<Throwable>)

  /**
   * What `onFailure` does with a throwable: report every one as `ERROR`
   * (the SSE helpers), or stay silent on a `CancellationException` (the raw
   * stream helper).
   */
  datatype FailurePolicy = ReportAll | SilenceCancellation

  predicate Silenced(t: Throwable, policy: FailurePolicy)
  {
    policy == SilenceCancellation && t.isCancellation
  }

  /** One `SUCCESS` invocation per delivered payload, in order. */
  function Successes(data: seq<Option<string>>): seq<Call>
  {
    seq(|data|, i requires 0 <= i < |data| => Call(SUCCESS, data[i]))
  }

  /** The invocations the body of `runCatching` makes when no callback throws. */
  function Planned(data: seq<Option<string>>, ending: Ending): seq<Call>
  {
    Successes(data) + (if ending.Closed? then [FinishCall] else [])
  }

  /** The first invocation at or after `from`, among `n`, that throws; `n` if none does. */
  function FirstFault(n: nat, faults: Faults, from: nat): (k: nat)
    requires from <= n
    ensures from <= k <= n
    ensures forall i :: from <= i < k ==> i !in faults
    ensures k < n ==> k in faults
    decreases n - from
  {
    if from == n || from in faults then from else FirstFault(n, faults, from + 1)
  }

  /** The `onFailure { ... }` block, entered with the invocations already made. */
  function OnFailure(ran: seq<Call>, failure: Option<Throwable>, faults: Faults, policy: FailurePolicy): Outcome
  {
    match failure
    case None => Outcome(ran, None)
    case Some(t) =>
      if Silenced(t, policy) then Outcome(ran, None)
      else Outcome(ran + [ErrorCall(t)], if |ran| in faults then Some(faults[|ran|]) else None)
  }

  /**
   * `runCatching { body }.onFailure { ... }` where the body makes the invocations
   * `planned` in order and then fails with `bodyFailure`, unless an invocation
   * throws first: then that throwable ends the body right after it.
   */
  function RunCatching(planned: seq<Call>, bodyFailure: Option<Throwable>, faults: Faults, policy: FailurePolicy): Outcome
  {
    var k := FirstFault(|planned|, faults, 0);
    if k < |planned| then OnFailure(planned[..k + 1], Some(faults[k]), faults, policy)
    else OnFailure(planned, bodyFailure, faults, policy)
  }

  /** The payloads, in order, for which `keep` holds. */
  function Filter(s: seq<Option<string>>, keep: Option<string> -> bool): seq<Option<string>>
    decreases |s|
  {
    if s == [] then [] else Filter(s[..|s| - 1], keep) + (if keep(s[|s| - 1]) then [s[|s| - 1]] else [])
  }

  /** The whole trace of a streaming helper: every kept item is reported, then the ending. */
  function StreamTrace(items: seq<Option<string>>, keep: Option<string> -> bool, ending: Ending, faults: Faults, policy: FailurePolicy): Outcome
  {
    RunCatching(Planned(Filter(items, keep), ending), BodyFailure(ending), faults, policy)
  }

  /** The terminal invocation a stream ends with when no callback throws. */
  function Terminal(ending: Ending, policy: FailurePolicy): seq<Call>
  {
    match ending
    case Closed => [FinishCall]
    case Failed(t) => if Silenced(t, policy) then [] else [ErrorCall(t)]
  }

  predicate HasStatus(calls: seq<Call>, s: RequestStatus)
  {
    exists i :: 0 <= i < |calls| && calls[i].status == s
  }

  // ---------------------------------------------------------------------------
  // The loop that drives the callbacks

  /**
   * Inside `runCatching`: for each received item, in order, report it as
   * `SUCCESS` when `keep` holds; once the source ends normally report `FINISH`
   * with ""; then, in `onFailure`, report the throwable as `ERROR` unless the
   * policy silences it.
   */
  method Pump(items: seq<Option<string>>, keep: Option<string> -> bool, ending: Ending, faults: Faults, policy: FailurePolicy)
    returns (out: Outcome)
    ensures out == StreamTrace(items, keep, ending, faults, policy)
  {
    var calls: seq<Call> := [];
    var failure: Option<Throwable> := None;
    var i := 0;
    while i < |items| && failure.None?
      invariant 0 <= i <= |items|
      invariant calls == Successes(Filter(items[..i], keep))
      invariant failure.None? ==> forall j :: 0 <= j < |calls| ==> j !in faults
      invariant failure.Some? ==>
        0 < |calls| && |calls| - 1 in faults && failure == Some(faults[|calls| - 1]) &&
        forall j :: 0 <= j < |calls| - 1 ==> j !in faults
    {
      assert items[..i + 1][..i] == items[..i];
      if keep(items[i]) {
        SuccessesAppend(calls, Filter(items[..i], keep), [items[i]]);
        if |calls| in faults {
          failure := Some(faults[|calls|]);
        }
        calls := calls + [Call(SUCCESS, items[i])];
      }
      i := i + 1;
    }
    ghost var data := Filter(items, keep);
    LoopPrefix(items, keep, i, ending);
    if failure.Some? {
      RunCatchingStops(Planned(data, ending), BodyFailure(ending), faults, policy, calls);
    } else {
      assert items[..i] == items;
      RunCatchingCompletes(data, ending, faults, policy);
      match ending
      case Closed =>
        if |calls| in faults {
          failure := Some(faults[|calls|]);
        }
        calls := calls + [FinishCall];
      case Failed(t) =>
        failure := Some(t);
    }
    if failure.Some? && !Silenced(failure.value, policy) {
      var thrown := if |calls| in faults then Some(faults[|calls|]) else None;
      out := Outcome(calls + [ErrorCall(failure.value)], thrown);
    } else {
      out := Outcome(calls, None);
    }
  }

  /** What the loop has reported so far is a prefix of what the body plans to report. */
  lemma LoopPrefix(items: seq<Option<string>>, keep: Option<string> -> bool, i: nat, ending: Ending)
    requires i <= |items|
    ensures Successes(Filter(items[..i], keep)) <= Planned(Filter(items, keep), ending)
  {
    var a, b := items[..i], items[i..];
    assert a + b == items;
    FilterAppend(a, b, keep);
    assert Filter(items, keep) == Filter(a, keep) + Filter(b, keep);
    PlannedPrefix(Filter(a, keep), Filter(b, keep), ending);
  }

  /** The `SUCCESS` calls for the first part of the data start the planned calls. */
  lemma PlannedPrefix(pre: seq<Option<string>>, post: seq<Option<string>>, ending: Ending)
    ensures Successes(pre) <= Planned(pre + post, ending)
  {
    var done := Successes(pre);
    SuccessesAppend(done, pre, post);
    var rest := Successes(post) + (if ending.Closed? then [FinishCall] else []);
    assert Planned(pre + post, ending) == done + rest;
    assert (done + rest)[..|done|] == done;
  }

  /** The body stops right after the first invocation that throws. */
  lemma RunCatchingStops(planned: seq<Call>, bodyFailure: Option<Throwable>, faults: Faults, policy: FailurePolicy, ran: seq<Call>)
    requires ran <= planned && 0 < |ran|
    requires |ran| - 1 in faults && forall j :: 0 <= j < |ran| - 1 ==> j !in faults
    ensures RunCatching(planned, bodyFailure, faults, policy) == OnFailure(ran, Some(faults[|ran| - 1]), faults, policy)
  {
    FirstFaultIs(|planned|, faults, |ran| - 1);
    assert planned[..|ran|] == ran;
  }

  /** Once every `SUCCESS` went through, only the `FINISH` invocation can still throw. */
  lemma RunCatchingCompletes(data: seq<Option<string>>, ending: Ending, faults: Faults, policy: FailurePolicy)
    requires forall j :: 0 <= j < |data| ==> j !in faults
    ensures var planned := Planned(data, ending);
      RunCatching(planned, BodyFailure(ending), faults, policy)
        == if ending.Closed? && |data| in faults then OnFailure(planned, Some(faults[|data|]), faults, policy)
           else OnFailure(planned, BodyFailure(ending), faults, policy)
  {
    var planned := Planned(data, ending);
    if ending.Closed? && |data| in faults {
      FirstFaultIs(|planned|, faults, |data|);
      assert planned[..|data| + 1] == planned;
    } else {
      FirstFaultIs(|planned|, faults, |planned|);
    }
  }

  // ---------------------------------------------------------------------------
  // Lemmas

  lemma SuccessesAppend(c: seq<Call>, a: seq<Option<string>>, b: seq<Option<string>>)
    requires c == Successes(a)
    ensures Successes(a + b) == c + Successes(b)
  {}

  /** Filtering a concatenation filters each part: order is kept across the cut. */
  lemma {:induction false} FilterAppend(a: seq<Option<string>>, b: seq<Option<string>>, keep: Option<string> -> bool)
    ensures Filter(a + b, keep) == Filter(a, keep) + Filter(b, keep)
    decreases |b|
  {
    if b == [] {
      assert a + b == a;
    } else {
      var b' := b[..|b| - 1];
      assert (a + b)[..|a + b| - 1] == a + b';
      FilterAppend(a, b', keep);
    }
  }

  /** An item survives the filter exactly when it was received and `keep` holds of it. */
  lemma {:induction false} FilterMembers(s: seq<Option<string>>, keep: Option<string> -> bool, x: Option<string>)
    ensures x in Filter(s, keep) <==> x in s && keep(x)
    decreases |s|
  {
    if s != [] {
      var s' := s[..|s| - 1];
      FilterMembers(s', keep, x);
      assert s == s' + [s[|s| - 1]];
    }
  }

  /** A filter that keeps everything is the identity. */
  lemma {:induction false} FilterKeepAll(s: seq<Option<string>>, keep: Option<string> -> bool)
    requires forall x :: keep(x)
    ensures Filter(s, keep) == s
    decreases |s|
  {
    if s != [] {
      FilterKeepAll(s[..|s| - 1], keep);
    }
  }

  /**
   * Whatever throws, the invocations made are a prefix of the planned ones,
   * possibly followed by one `ERROR`; a throwable escapes only from that `ERROR`.
   */
  lemma RunCatchingTrace(planned: seq<Call>, bodyFailure: Option<Throwable>, faults: Faults, policy: FailurePolicy)
    ensures var out := RunCatching(planned, bodyFailure, faults, policy);
      |out.calls| <= |planned| + 1 &&
      (forall i :: 0 <= i < |out.calls| - 1 ==> out.calls[i] == planned[i]) &&
      (0 < |out.calls| ==>
        (|out.calls| <= |planned| && out.calls[|out.calls| - 1] == planned[|out.calls| - 1]) ||
        out.calls[|out.calls| - 1].status == ERROR) &&
      (out.escaped.Some? ==> 0 < |out.calls| && out.calls[|out.calls| - 1].status == ERROR)
  {}

  /** With callbacks that never throw, every kept item is reported and the ending follows. */
  lemma TraceWithoutFaults(items: seq<Option<string>>, keep: Option<string> -> bool, ending: Ending, policy: FailurePolicy)
    ensures StreamTrace(items, keep, ending, map[], policy)
         == Outcome(Successes(Filter(items, keep)) + Terminal(ending, policy), None)
  {
    var planned := Planned(Filter(items, keep), ending);
    assert FirstFault(|planned|, map[], 0) == |planned|;
  }

  /**
   * With callbacks that never throw, `FINISH` occurs exactly on a normal end and
   * `ERROR` exactly on a reported failure: never both, and each at most once, last.
   */
  lemma TerminalExclusive(items: seq<Option<string>>, keep: Option<string> -> bool, ending: Ending, policy: FailurePolicy)
    ensures var calls := StreamTrace(items, keep, ending, map[], policy).calls;
      (HasStatus(calls, FINISH) <==> ending.Closed?) &&
      (HasStatus(calls, ERROR) <==> ending.Failed? && !Silenced(ending.error, policy)) &&
      (forall i :: 0 <= i < |calls| - 1 ==> calls[i].status == SUCCESS)
  {
    TraceWithoutFaults(items, keep, ending, policy);
    var data := Filter(items, keep);
    var calls := Successes(data) + Terminal(ending, policy);
    assert forall i :: 0 <= i < |data| ==> calls[i].status == SUCCESS;
    if HasStatus(calls, FINISH) {
      var i :| 0 <= i < |calls| && calls[i].status == FINISH;
      assert i >= |data|;
    }
    if HasStatus(calls, ERROR) {
      var i :| 0 <= i < |calls| && calls[i].status == ERROR;
      assert i >= |data|;
    }
    if ending.Closed? {
      assert calls[|data|].status == FINISH;
    } else if !Silenced(ending.error, policy) {
      assert calls[|data|].status == ERROR;
    }
  }

  /**
   * Every `SUCCESS` invocation carries a received item that `keep` accepts,
   * whichever invocations throw.
   */
  lemma SuccessPayloadsKept(items: seq<Option<string>>, keep: Option<string> -> bool, ending: Ending, faults: Faults, policy: FailurePolicy)
    ensures var calls := StreamTrace(items, keep, ending, faults, policy).calls;
      forall i :: 0 <= i < |calls| && calls[i].status == SUCCESS ==> calls[i].payload in items && keep(calls[i].payload)
  {
    var data := Filter(items, keep);
    var planned := Planned(data, ending);
    var calls := StreamTrace(items, keep, ending, faults, policy).calls;
    RunCatchingTrace(planned, BodyFailure(ending), faults, policy);
    forall i | 0 <= i < |calls| && calls[i].status == SUCCESS
      ensures calls[i].payload in items && keep(calls[i].payload)
    {
      assert calls[i] == planned[i];
      assert i < |data| && calls[i].payload == data[i];
      FilterMembers(items, keep, data[i]);
    }
  }

  /**
   * A callback that throws from `FINISH` makes `ERROR` follow `FINISH`: both
   * terminal statuses then occur, because `FINISH` is reported inside `runCatching`.
   */
  lemma FinishThenError(items: seq<Option<string>>, keep: Option<string> -> bool, t: Throwable, policy: FailurePolicy)
    requires !Silenced(t, policy)
    ensures var n := |Filter(items, keep)|;
      StreamTrace(items, keep, Closed, map[n := t], policy)
        == Outcome(Successes(Filter(items, keep)) + [FinishCall, ErrorCall(t)], None)
  {
    var data := Filter(items, keep);
    var n := |data|;
    var planned := Planned(data, Closed);
    FirstFaultIs(|planned|, map[n := t], n);
    assert planned[..n + 1] == planned;
  }

  /** The SSE helpers report every event, whatever its data. */
  function KeepEvery(data: Option<string>): bool
  {
    true
  }

  /** SSE, normal end: one `SUCCESS` per event with its data, in order, then one `FINISH` with "". */
  lemma SseClosed(events: seq<Option<string>>)
    ensures StreamTrace(events, KeepEvery, Closed, map[], ReportAll) == Outcome(Successes(events) + [FinishCall], None)
  {
    TraceWithoutFaults(events, KeepEvery, Closed, ReportAll);
    FilterKeepAll(events, KeepEvery);
  }

  /**
   * SSE, failure (a cancellation included): the events delivered before it are
   * reported, then one `ERROR` with the throwable's message, and no `FINISH`.
   */
  lemma SseFailed(events: seq<Option<string>>, t: Throwable)
    ensures StreamTrace(events, KeepEvery, Failed(t), map[], ReportAll) == Outcome(Successes(events) + [ErrorCall(t)], None)
  {
    TraceWithoutFaults(events, KeepEvery, Failed(t), ReportAll);
    FilterKeepAll(events, KeepEvery);
  }

  lemma FirstFaultIs(n: nat, faults: Faults, k: nat)
    requires k <= n
    requires forall i :: 0 <= i < k ==> i !in faults
    requires k < n ==> k in faults
    ensures FirstFault(n, faults, 0) == k
  {}
}
