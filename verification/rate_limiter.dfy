/**
 The fixed-window limiter each controller keeps in two fields,
 `requestCount` and `lastResetTime`. Time is in milliseconds and is passed
 in, where the controllers read the system clock. A window expires once
 strictly more than a minute has passed since it restarted; within a window at
 most ten calls are admitted. This approximates a sliding window only
 coarsely: calls on both sides of a reset can all be admitted.
 */
module RateLimiter {

  /** Length of a window, in milliseconds. */
  const WindowMillis: int := 60000
  /** Calls admitted per window. */
  const MaxRequests: int := 10

  /** The two limiter fields of a controller. */
  datatype Window = Window(count: int, lastReset: int)

  /** What one `checkRateLimit` call answers and the fields it leaves. */
  datatype Decision = Decision(accepted: bool, next: Window)

  /** The bound the counter keeps. */
  predicate Valid(w: Window) {
    0 <= w.count <= MaxRequests
  }

  /** A call at `now` finds the window expired. */
  predicate Expired(w: Window, now: int) {
    now - w.lastReset > WindowMillis
  }

  /** One `checkRateLimit` call at time `now`: restart an expired window,
      then admit the call if the count has room. */
  function Check(w: Window, now: int): (d: Decision)
    // the window restarts exactly when more than 60000 ms have passed
    ensures d.next.lastReset == (if now - w.lastReset > WindowMillis then now else w.lastReset)
    // admitted iff the count seen after the reset step is below ten; a
    // refusal keeps that count, an admission adds exactly one
    ensures var seen := if now - w.lastReset > WindowMillis then 0 else w.count;
              && (d.accepted <==> seen < MaxRequests)
              && d.next.count == (if d.accepted then seen + 1 else seen)
    ensures Valid(w) ==> Valid(d.next)
  {
    var restarted := if Expired(w, now) then Window(0, now) else w;
    if restarted.count >= MaxRequests then Decision(false, restarted)
    else Decision(true, restarted.(count := restarted.count + 1))
  }

  /** The answers to a sequence of calls, and the fields left at the end. */
  datatype Trace = Trace(accepted: seq<bool>, final: Window)

  /** A sequence of calls at the given times, one after another. */
  function Run(w: Window, times: seq<int>): (t: Trace)
    ensures |t.accepted| == |times|
    decreases |times|
  {
    if |times| == 0 then Trace([], w)
    else
      var d := Check(w, times[0]);
      var rest := Run(d.next, times[1..]);
      Trace([d.accepted] + rest.accepted, rest.final)
  }

  /** How many calls were admitted. */
  function CountAccepted(s: seq<bool>): nat {
    if |s| == 0 then 0 else (if s[0] then 1 else 0) + CountAccepted(s[1..])
  }

  /** `n` calls at the same time. */
  function Repeat(t: int, n: nat): (r: seq<int>)
    ensures |r| == n
    ensures forall i :: 0 <= i < n ==> r[i] == t
  {
    if n == 0 then [] else [t] + Repeat(t, n - 1)
  }

  lemma {:induction false} CountAcceptedAppend(a: seq<bool>, b: seq<bool>)
    ensures CountAccepted(a + b) == CountAccepted(a) + CountAccepted(b)
    decreases |a|
  {
    if |a| > 0 {
      assert (a + b)[0] == a[0];
      assert (a + b)[1..] == a[1..] + b;
      CountAcceptedAppend(a[1..], b);
    } else {
      assert a + b == b;
    }
  }

  /** Running two sequences of calls one after the other is running their
      concatenation. */
  lemma {:induction false} RunAppend(w: Window, a: seq<int>, b: seq<int>)
    ensures Run(w, a + b).final == Run(Run(w, a).final, b).final
    ensures Run(w, a + b).accepted == Run(w, a).accepted + Run(Run(w, a).final, b).accepted
    decreases |a|
  {
    if |a| > 0 {
      var d := Check(w, a[0]);
      assert (a + b)[0] == a[0];
      assert (a + b)[1..] == a[1..] + b;
      RunAppend(d.next, a[1..], b);
      var restA := Run(d.next, a[1..]);
      assert Run(w, a).final == restA.final;
      assert Run(w, a).accepted == [d.accepted] + restA.accepted;
      assert Run(w, a + b).accepted == [d.accepted] + Run(d.next, a[1..] + b).accepted;
    } else {
      assert a + b == b;
    }
  }

  /** The counter stays within [0, 10] over any sequence of calls from a
      valid state; a freshly constructed controller (`count = 0`) is one. */
  lemma {:induction false} RunKeepsValid(w: Window, times: seq<int>)
    requires Valid(w)
    ensures Valid(Run(w, times).final)
    decreases |times|
  {
    if |times| > 0 {
      RunKeepsValid(Check(w, times[0]).next, times[1..]);
    }
  }

  /** While no call expires the window, the window keeps its start and each
      admitted call adds one to the count, so at most `10 - count` further
      calls are admitted. */
  lemma {:induction false} NoResetAccounting(w: Window, times: seq<int>)
    requires Valid(w)
    requires forall i :: 0 <= i < |times| ==> times[i] - w.lastReset <= WindowMillis
    ensures Run(w, times).final.lastReset == w.lastReset
    ensures Run(w, times).final.count == w.count + CountAccepted(Run(w, times).accepted)
    ensures CountAccepted(Run(w, times).accepted) <= MaxRequests - w.count
    decreases |times|
  {
    if |times| > 0 {
      var d := Check(w, times[0]);
      var rest := Run(d.next, times[1..]);
      assert d.next.lastReset == w.lastReset;
      NoResetAccounting(d.next, times[1..]);
      assert Run(w, times).accepted == [d.accepted] + rest.accepted;
      assert ([d.accepted] + rest.accepted)[1..] == rest.accepted;
    }
  }

  /** Between two resets at most ten calls are admitted: the call that
      restarts the window and the calls that follow before it expires. */
  lemma {:induction false} AtMostTenPerWindow(w: Window, opening: int, later: seq<int>)
    requires opening - w.lastReset > WindowMillis
    requires forall i :: 0 <= i < |later| ==> later[i] - opening <= WindowMillis
    ensures CountAccepted(Run(w, [opening] + later).accepted) <= MaxRequests
  {
    var d := Check(w, opening);
    assert d == Decision(true, Window(1, opening));
    assert ([opening] + later)[1..] == later;
    NoResetAccounting(d.next, later);
    var t := Run(w, [opening] + later);
    assert t.accepted == [true] + Run(d.next, later).accepted;
    assert ([true] + Run(d.next, later).accepted)[1..] == Run(d.next, later).accepted;
  }

  /** While the window has room for all of them, calls that do not expire
      it are all admitted. */
  lemma {:induction false} AdmittedWhileRoomLeft(w: Window, times: seq<int>)
    requires Valid(w)
    requires w.count + |times| <= MaxRequests
    requires forall i :: 0 <= i < |times| ==> times[i] - w.lastReset <= WindowMillis
    ensures CountAccepted(Run(w, times).accepted) == |times|
    ensures Run(w, times).final == Window(w.count + |times|, w.lastReset)
    decreases |times|
  {
    if |times| > 0 {
      var d := Check(w, times[0]);
      assert d == Decision(true, Window(w.count + 1, w.lastReset));
      AdmittedWhileRoomLeft(d.next, times[1..]);
      var rest := Run(d.next, times[1..]);
      assert ([true] + rest.accepted)[1..] == rest.accepted;
    }
  }

  /** The window is fixed, not sliding: a fresh limiter admits ten calls at
      the last instant of its first window and ten more one millisecond
      later, twenty within 60 seconds. */
  lemma BoundaryBurst(start: int)
    ensures CountAccepted(Run(Window(0, start),
              Repeat(start + WindowMillis, 10) + Repeat(start + WindowMillis + 1, 10)).accepted) == 20
  {
    var first := Repeat(start + WindowMillis, 10);
    var second := Repeat(start + WindowMillis + 1, 10);
    var w := Window(0, start);
    AdmittedWhileRoomLeft(w, first);
    var mid := Run(w, first).final;
    assert mid == Window(10, start);
    var opening := start + WindowMillis + 1;
    var rest := Repeat(opening, 9);
    assert second == [opening] + rest;
    var d := Check(mid, opening);
    assert d == Decision(true, Window(1, opening));
    AdmittedWhileRoomLeft(d.next, rest);
    assert second[1..] == rest;
    assert Run(mid, second).accepted == [true] + Run(d.next, rest).accepted;
    assert ([true] + Run(d.next, rest).accepted)[1..] == Run(d.next, rest).accepted;
    RunAppend(w, first, second);
    CountAcceptedAppend(Run(w, first).accepted, Run(mid, second).accepted);
  }
}
