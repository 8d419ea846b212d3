/** The queue in front of the malware scanner: at most `maximum` scans at a time, waiting calls
    served in order of arrival, each waiting call giving up when its timer fires. */
module ScanSemaphore {

  /** One call of acquire, by order of arrival. `Holding` and `Released` calls own a release closure
      whose `released` flag tells the two apart. */
  datatype Call = Waiting | Holding | Released | TimedOut

  /** What the semaphore looks like between two turns of the event loop.
      `settlements[i]` counts how often the promise of call i was resolved or rejected, and `grants`
      lists the calls in the order they got a permit. */
  datatype State = State(
    maximum: nat, active: int, waiters: seq<nat>, armed: set<nat>,
    calls: seq<Call>, settlements: seq<nat>, grants: seq<nat>)

  function IndexOf(s: seq<nat>, x: nat): (k: nat)
    requires x in s
    ensures k < |s| && s[k] == x
  {
    if s[0] == x then 0 else IndexOf(s[1..], x) + 1
  }

  /** `s` without its entry `x`, if it has one. */
  function Remove(s: seq<nat>, x: nat): seq<nat> {
    if x in s then var k := IndexOf(s, x); s[..k] + s[k + 1..] else s
  }

  predicate IsWaiting(calls: seq<Call>, call: nat) {
    call < |calls| && calls[call] == Waiting
  }

  /** The call owns a release closure. */
  predicate IsGranted(calls: seq<Call>, call: nat) {
    call < |calls| && (calls[call] == Holding || calls[call] == Released)
  }

  function Settle(s: State, call: nat, outcome: Call): State
    requires call < |s.calls| == |s.settlements|
  {
    s.(calls := s.calls[call := outcome], settlements := s.settlements[call := s.settlements[call] + 1])
  }

  function Acquire(s: State): State
    requires |s.calls| == |s.settlements|
  {
    var call := |s.calls|;
    if s.active < s.maximum then
      s.(active := s.active + 1, calls := s.calls + [Holding], settlements := s.settlements + [1], grants := s.grants + [call])
    else
      s.(waiters := s.waiters + [call], armed := s.armed + {call}, calls := s.calls + [Waiting], settlements := s.settlements + [0])
  }

  /** The timer of a call fires, if it is still armed. */
  function FireTimer(s: State, call: nat): State
    requires |s.calls| == |s.settlements| && forall t :: t in s.armed ==> t < |s.calls|
  {
    if call !in s.armed then s
    else Settle(s.(waiters := Remove(s.waiters, call), armed := s.armed - {call}), call, TimedOut)
  }

  /** The release closure of a call runs. */
  function Release(s: State, call: nat): State
    requires IsGranted(s.calls, call) && |s.calls| == |s.settlements| && forall w :: w in s.waiters ==> w < |s.calls|
  {
    if s.calls[call] == Released then s
    else
      var freed := s.(calls := s.calls[call := Released]);
      if s.waiters == [] then freed.(active := s.active - 1)
      else
        var next := s.waiters[0];
        assert next in s.waiters;
        Settle(freed.(waiters := s.waiters[1..], armed := s.armed - {next}, grants := s.grants + [next]), next, Holding)
  }

  /** The permits that are granted and not yet released. */
  function Outstanding(calls: seq<Call>): (n: nat) {
    if calls == [] then 0
    else Outstanding(calls[..|calls| - 1]) + (if calls[|calls| - 1] == Holding then 1 else 0)
  }

  ghost predicate Ascending(s: seq<nat>) {
    forall i, j :: 0 <= i < j < |s| ==> s[i] < s[j]
  }

  /** active counts the outstanding permits, never more than the maximum, and nobody waits while one is free. */
  ghost predicate Counted(s: State) {
    && s.active == Outstanding(s.calls) <= s.maximum
    && (s.waiters != [] ==> s.active == s.maximum)
  }

  /** The queue holds exactly the waiting calls, in order of arrival, each with its timer running. */
  ghost predicate Queued(s: State) {
    && Ascending(s.waiters)
    && (forall w: nat :: w in s.waiters <==> IsWaiting(s.calls, w))
    && (forall w: nat :: w in s.armed <==> w in s.waiters)
  }

  /** Permits went to calls in order of arrival, and nobody who still waits was overtaken. */
  ghost predicate Ordered(s: State) {
    && Ascending(s.grants)
    && (forall g: nat :: g in s.grants <==> IsGranted(s.calls, g))
    && (forall g, w :: g in s.grants && w in s.waiters ==> g < w)
  }

  /** A waiting call has not settled, every other call has settled once. */
  ghost predicate Settled(s: State) {
    && |s.settlements| == |s.calls|
    && forall i :: 0 <= i < |s.calls| ==> s.settlements[i] == if s.calls[i] == Waiting then 0 else 1
  }

  ghost predicate Valid(s: State) {
    s.maximum >= 1 && Counted(s) && Queued(s) && Ordered(s) && Settled(s)
  }

  function Initial(maximum: nat): State {
    State(maximum, 0, [], {}, [], [], [])
  }

  // ---- Counting -------------------------------------------------------------

  lemma {:induction false} OutstandingAfter(calls: seq<Call>, i: nat, c: Call)
    requires i < |calls|
    ensures Outstanding(calls[i := c]) ==
      Outstanding(calls) - (if calls[i] == Holding then 1 else 0) + (if c == Holding then 1 else 0)
    decreases |calls|
  {
    var n := |calls| - 1;
    if i == n {
      assert calls[i := c][..n] == calls[..n];
    } else {
      OutstandingAfter(calls[..n], i, c);
      assert calls[i := c][..n] == calls[..n][i := c];
    }
  }

  lemma OutstandingAppend(calls: seq<Call>, c: Call)
    ensures Outstanding(calls + [c]) == Outstanding(calls) + if c == Holding then 1 else 0
  {
    assert (calls + [c])[..|calls|] == calls;
  }

  lemma {:induction false} OutstandingUpTo(calls: seq<Call>, n: nat)
    requires n <= |calls|
    ensures Outstanding(calls[..n]) == |set i | 0 <= i < n && calls[i] == Holding|
  {
    if n > 0 {
      var k := n - 1;
      OutstandingUpTo(calls, k);
      OutstandingAppend(calls[..k], calls[k]);
      assert calls[..n] == calls[..k] + [calls[k]];
      var all, some := set i | 0 <= i < n && calls[i] == Holding, set i | 0 <= i < k && calls[i] == Holding;
      assert all == if calls[k] == Holding then some + {k} else some;
    } else {
      assert calls[..n] == [];
    }
  }

  lemma OutstandingIsCount(calls: seq<Call>)
    ensures Outstanding(calls) == |set i | 0 <= i < |calls| && calls[i] == Holding|
  {
    OutstandingUpTo(calls, |calls|);
    assert calls[..|calls|] == calls;
  }

  lemma RemoveFromQueue(s: seq<nat>, x: nat)
    requires Ascending(s) && x in s
    ensures Ascending(Remove(s, x))
    ensures forall y: nat :: y in Remove(s, x) <==> y in s && y != x
  {
    var k := IndexOf(s, x);
    var r := s[..k] + s[k + 1..];
    assert s == s[..k] + [s[k]] + s[k + 1..];
    assert forall i :: 0 <= i < |r| ==> r[i] == s[if i < k then i else i + 1];
  }

  lemma Enqueue(s: seq<nat>, x: nat)
    requires Ascending(s) && forall y :: y in s ==> y < x
    ensures Ascending(s + [x])
    ensures forall y: nat :: y in s + [x] <==> y in s || y == x
  {
    forall i, j | 0 <= i < j < |s + [x]| ensures (s + [x])[i] < (s + [x])[j] {
      assert s[i] in s;
    }
  }

  lemma Dequeue(s: seq<nat>)
    requires Ascending(s) && s != []
    ensures s[0] in s && Ascending(s[1..])
    ensures forall y: nat :: y in s[1..] <==> y in s && y != s[0]
    ensures forall y :: y in s ==> s[0] <= y
  {
    assert s == [s[0]] + s[1..];
    forall y | y in s[1..] ensures y != s[0] {
      var i :| 0 <= i < |s[1..]| && s[1..][i] == y;
      assert s[i + 1] == y;
    }
  }

  // ---- Every step keeps the promises ----------------------------------------

  lemma AcquireKeeps(s: State)
    requires Valid(s)
    ensures Valid(Acquire(s))
    ensures s.active < s.maximum <==> |Acquire(s).grants| == |s.grants| + 1
  {
    var t, call := Acquire(s), |s.calls|;
    var c := if s.active < s.maximum then Holding else Waiting;
    OutstandingAppend(s.calls, c);
    assert t.calls == s.calls + [c];
    assert forall i: nat :: IsWaiting(t.calls, i) <==> IsWaiting(s.calls, i) || (i == call && c == Waiting);
    assert forall i: nat :: IsGranted(t.calls, i) <==> IsGranted(s.calls, i) || (i == call && c == Holding);
    if c == Holding {
      Enqueue(s.grants, call);
    } else {
      Enqueue(s.waiters, call);
    }
  }

  lemma FireTimerKeeps(s: State, call: nat)
    requires Valid(s)
    ensures Valid(FireTimer(s, call))
    ensures FireTimer(s, call).grants == s.grants && FireTimer(s, call).active == s.active
    ensures call in s.waiters ==> FireTimer(s, call).calls == s.calls[call := TimedOut]
    ensures call !in s.waiters ==> FireTimer(s, call) == s
  {
    if call in s.armed {
      RemoveFromQueue(s.waiters, call);
      assert IsWaiting(s.calls, call);
      OutstandingAfter(s.calls, call, TimedOut);
      var t := FireTimer(s, call);
      assert forall i: nat :: IsWaiting(t.calls, i) <==> IsWaiting(s.calls, i) && i != call;
      assert forall i: nat :: IsGranted(t.calls, i) <==> IsGranted(s.calls, i);
    }
  }

  lemma ReleaseFrees(s: State, call: nat)
    requires Valid(s) && s.waiters == [] && IsGranted(s.calls, call) && s.calls[call] == Holding
    ensures Valid(Release(s, call))
  {
    OutstandingAfter(s.calls, call, Released);
    var t := Release(s, call);
    assert forall i: nat :: IsWaiting(t.calls, i) <==> IsWaiting(s.calls, i);
    assert forall i: nat :: IsGranted(t.calls, i) <==> IsGranted(s.calls, i);
  }

  lemma ReleaseHandsOver(s: State, call: nat)
    requires Valid(s) && s.waiters != [] && IsGranted(s.calls, call) && s.calls[call] == Holding
    ensures Valid(Release(s, call)) && Release(s, call).active == s.active
    ensures Release(s, call).grants == s.grants + [s.waiters[0]] && forall w :: w in s.waiters ==> s.waiters[0] <= w
  {
    hide Outstanding, Ascending;
    var freed, t := s.calls[call := Released], Release(s, call);
    var next := s.waiters[0];
    Dequeue(s.waiters);
    assert IsWaiting(s.calls, next);
    OutstandingAfter(s.calls, call, Released);
    OutstandingAfter(freed, next, Holding);
    assert t.calls == freed[next := Holding];
    Enqueue(s.grants, next);
    assert forall i: nat :: IsWaiting(t.calls, i) <==> IsWaiting(s.calls, i) && i != next;
    assert forall i: nat :: IsGranted(t.calls, i) <==> IsGranted(s.calls, i) || i == next;
  }

  /** A first release frees a permit or hands it to the call that has waited longest; a second one does nothing. */
  lemma ReleaseKeeps(s: State, call: nat)
    requires Valid(s) && IsGranted(s.calls, call)
    ensures Valid(Release(s, call))
    ensures s.calls[call] == Released ==> Release(s, call) == s
    ensures s.calls[call] == Holding && s.waiters == [] ==>
      Release(s, call) == s.(active := s.active - 1, calls := s.calls[call := Released])
    ensures s.calls[call] == Holding && s.waiters != [] ==>
      && Release(s, call).active == s.active && Release(s, call).grants == s.grants + [s.waiters[0]]
      && forall w :: w in s.waiters ==> s.waiters[0] <= w
    ensures IsGranted(Release(s, call).calls, call) && Release(s, call).calls[call] == Released
  {
    if s.calls[call] == Holding {
      if s.waiters == [] {
        ReleaseFrees(s, call);
      } else {
        ReleaseHandsOver(s, call);
        assert s.waiters[0] in s.waiters && IsWaiting(s.calls, s.waiters[0]);
      }
    }
  }

  /** An arriving call takes a free permit at once; otherwise it joins the end of the queue with its timer running. */
  lemma AcquireEffect(s: State)
    requires |s.calls| == |s.settlements|
    ensures var call := |s.calls|;
      Acquire(s) ==
        if s.active < s.maximum
        then s.(active := s.active + 1, calls := s.calls + [Holding], settlements := s.settlements + [1], grants := s.grants + [call])
        else s.(waiters := s.waiters + [call], armed := s.armed + {call}, calls := s.calls + [Waiting], settlements := s.settlements + [0])
  {
  }

  /** A permit that is handed over settles the waiting call and stops its timer. */
  lemma HandOverEffect(s: State, call: nat)
    requires Valid(s) && IsGranted(s.calls, call) && s.calls[call] == Holding && s.waiters != []
    ensures var t, next := Release(s, call), s.waiters[0];
      && next < |s.calls| && t.calls == s.calls[call := Released][next := Holding] && t.waiters == s.waiters[1..]
      && t.armed == s.armed - {next} && t.settlements == s.settlements[next := 1]
  {
    assert s.waiters[0] in s.waiters && IsWaiting(s.calls, s.waiters[0]);
  }

  // ---- Whole runs -------------------------------------------------------------

  datatype Event = Acquiring | TimerFires(call: nat) | Releasing(call: nat)

  /** One turn of the event loop; a closure that does not exist cannot be called. */
  ghost function Step(s: State, e: Event): State
    requires Valid(s)
  {
    match e
    case Acquiring => Acquire(s)
    case TimerFires(call) => FireTimer(s, call)
    case Releasing(call) => if IsGranted(s.calls, call) then Release(s, call) else s
  }

  lemma StepKeeps(s: State, e: Event)
    requires Valid(s)
    ensures Valid(Step(s, e)) && Step(s, e).maximum == s.maximum
    ensures |s.calls| <= |Step(s, e).calls|
    ensures forall i :: 0 <= i < |s.calls| && s.calls[i] != Waiting ==>
      Step(s, e).settlements[i] == s.settlements[i] && (s.calls[i] == TimedOut ==> Step(s, e).calls[i] == TimedOut)
  {
    match e
    case Acquiring => AcquireKeeps(s);
    case TimerFires(call) => FireTimerKeeps(s, call);
    case Releasing(call) =>
      if IsGranted(s.calls, call) {
        ReleaseKeeps(s, call);
        if s.waiters != [] { assert s.waiters[0] in s.waiters && IsWaiting(s.calls, s.waiters[0]); }
      }
  }

  /** The semaphore after any sequence of events. */
  ghost function After(maximum: nat, events: seq<Event>): (s: State)
    requires maximum >= 1
    ensures Valid(s) && s.maximum == maximum
  {
    if events == [] then Initial(maximum)
    else
      var before := After(maximum, events[..|events| - 1]);
      StepKeeps(before, events[|events| - 1]);
      Step(before, events[|events| - 1])
  }

  /** In every run: permits never exceed the maximum, no call settles twice, and a call that still waits
      finds all permits taken. */
  lemma Bounded(maximum: nat, events: seq<Event>, call: nat)
    requires maximum >= 1
    ensures var s := After(maximum, events);
      && |set i | 0 <= i < |s.calls| && s.calls[i] == Holding| <= maximum
      && (call < |s.calls| == |s.settlements| ==> s.settlements[call] <= 1)
      && (call < |s.calls| && s.calls[call] == Waiting ==> |set i | 0 <= i < |s.calls| && s.calls[i] == Holding| == maximum)
  {
    var s := After(maximum, events);
    OutstandingIsCount(s.calls);
    if IsWaiting(s.calls, call) { assert call in s.waiters; }
  }

  /** First come, first served in every run: whoever arrived before the call that got the i-th permit
      got an earlier permit or timed out. */
  lemma FirstComeFirstServed(maximum: nat, events: seq<Event>, i: nat, call: nat)
    requires maximum >= 1 && i < |After(maximum, events).grants| && call < After(maximum, events).grants[i]
    ensures var s := After(maximum, events);
      call < |s.calls| && (call in s.grants[..i] || s.calls[call] == TimedOut)
  {
    var s := After(maximum, events);
    assert s.grants[i] in s.grants && IsGranted(s.calls, s.grants[i]);
    assert call !in s.waiters && !IsWaiting(s.calls, call);
    if s.calls[call] != TimedOut {
      assert IsGranted(s.calls, call);
      var k :| 0 <= k < |s.grants| && s.grants[k] == call;
      assert s.grants[..i][k] == call;
    }
  }

  // ---- The object ---------------------------------------------------------------

  class Semaphore {
    const maximum: nat
    var active: int
    var waiters: seq<nat>
    var armed: set<nat>
    var calls: seq<Call>
    ghost var settlements: seq<nat>
    ghost var grants: seq<nat>

    ghost function View(): State reads this {
      State(maximum, active, waiters, armed, calls, settlements, grants)
    }

    constructor (maximum: nat)
      requires maximum >= 1
      ensures View() == Initial(maximum) && Valid(View())
    {
      this.maximum := maximum;
      active, waiters, armed, calls := 0, [], {}, [];
      settlements, grants := [], [];
    }

    /** Joins the queue or takes a free permit at once. */
    method AcquirePermit() returns (call: nat, granted: bool)
      requires Valid(View())
      modifies this
      ensures View() == Acquire(old(View())) && Valid(View())
      ensures call == |old(calls)| && granted == (calls[call] == Holding)
    {
      AcquireKeeps(View());
      call := |calls|;
      granted := active < maximum;
      if granted {
        active := active + 1;
        calls := calls + [Holding];
        settlements := settlements + [1];
        grants := grants + [call];
      } else {
        waiters := waiters + [call];
        armed := armed + {call};
        calls := calls + [Waiting];
        settlements := settlements + [0];
      }
    }

    method TimeOut(call: nat)
      requires Valid(View())
      modifies this
      ensures View() == FireTimer(old(View()), call) && Valid(View())
    {
      FireTimerKeeps(View(), call);
      if call in armed {
        armed := armed - {call};
        waiters := Remove(waiters, call);
        calls := calls[call := TimedOut];
        settlements := settlements[call := settlements[call] + 1];
      }
    }

    method ReleasePermit(call: nat)
      requires Valid(View()) && IsGranted(calls, call)
      modifies this
      ensures View() == Release(old(View()), call) && Valid(View())
    {
      ReleaseKeeps(View(), call);
      assert waiters != [] ==> waiters[0] in waiters && IsWaiting(calls, waiters[0]);
      if calls[call] == Released {
        return;
      }
      calls := calls[call := Released];
      if waiters == [] {
        active := active - 1;
        return;
      }
      var waiter := waiters[0];
      waiters := waiters[1..];
      armed := armed - {waiter};
      calls := calls[waiter := Holding];
      settlements := settlements[waiter := settlements[waiter] + 1];
      grants := grants + [waiter];
    }
  }
}
