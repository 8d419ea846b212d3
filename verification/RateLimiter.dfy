/** The sliding-window limiter for socket events. Times are milliseconds. */
module RateLimiter {
  import opened Prelude

  datatype Policy = Policy(windowMs: nat, limit: nat)

  /** The queue without its leading entries at or before `cutoff`. */
  function DropOld(queue: seq<int>, cutoff: int): (kept: seq<int>) {
    if queue != [] && queue[0] <= cutoff then DropOld(queue[1..], cutoff) else queue
  }

  /** The queue after one call, and its answer. */
  function Attempt(p: Policy, queue: seq<int>, now: int): (seq<int>, bool) {
    var kept := DropOld(queue, now - p.windowMs);
    if |kept| >= p.limit then (kept, false) else (kept + [now], true)
  }

  class SocketEventRateLimiter {
    const policy: Policy
    var acceptedAt: seq<int>

    constructor (policy: Policy)
      ensures this.policy == policy && acceptedAt == []
    {
      this.policy := policy;
      acceptedAt := [];
    }

    method TryAcquire(now: int) returns (accepted: bool)
      modifies this
      ensures (acceptedAt, accepted) == Attempt(policy, old(acceptedAt), now)
    {
      var cutoff := now - policy.windowMs;
      while acceptedAt != [] && acceptedAt[0] <= cutoff
        invariant DropOld(acceptedAt, cutoff) == DropOld(old(acceptedAt), cutoff)
        decreases |acceptedAt|
      {
        acceptedAt := acceptedAt[1..];
      }
      if |acceptedAt| >= policy.limit {
        return false;
      }
      acceptedAt := acceptedAt + [now];
      return true;
    }
  }

  // ---- The reference: count the accepted calls of the last window ------------

  /** The times in (from, to]. */
  function Window(from: int, to: int): int -> bool {
    t => from < t <= to
  }

  /** How many of the given times lie in (from, to]. */
  ghost function Within(times: seq<int>, from: int, to: int): nat {
    |Filter(times, Window(from, to))|
  }

  lemma {:induction false} WithinUpTo(times: seq<int>, from: int, until: int, n: nat)
    requires n <= |times|
    ensures Within(times[..n], from, until) == |set i | 0 <= i < n && from < times[i] <= until|
  {
    hide Within;
    if n > 0 {
      var k := n - 1;
      WithinUpTo(times, from, until, k);
      OneMoreWithin(times[..k], times[k], from, until);
      assert times[..n] == times[..k] + [times[k]];
      var all, some := set i | 0 <= i < n && from < times[i] <= until, set i | 0 <= i < k && from < times[i] <= until;
      assert all == if from < times[k] <= until then some + {k} else some;
    } else {
      NoneWithin(from, until);
      assert times[..n] == [];
    }
  }

  lemma NoneWithin(from: int, until: int)
    ensures Within([], from, until) == 0
  {
  }

  lemma OneMoreWithin(before: seq<int>, t: int, from: int, until: int)
    ensures Within(before + [t], from, until) == Within(before, from, until) + if from < t <= until then 1 else 0
  {
    FilterConcat(before, [t], Window(from, until));
    assert Filter([t], Window(from, until)) == if from < t <= until then [t] else [];
  }

  /** Filtering and measuring counts the places. */
  lemma WithinIsCount(times: seq<int>, from: int, until: int)
    ensures Within(times, from, until) == |set i | 0 <= i < |times| && from < times[i] <= until|
  {
    WithinUpTo(times, from, until, |times|);
    assert times[..|times|] == times;
  }

  /** What is accepted: every call that the limiter answers with yes, in order. */
  lemma AcceptedCalls(p: Policy, calls: seq<int>, now: int)
    ensures Accepted(p, calls + [now]) == if Attempt(p, Queue(p, calls), now).1 then Accepted(p, calls) + [now] else Accepted(p, calls)
    ensures Accepted(p, []) == [] && Queue(p, []) == [] && Queue(p, calls + [now]) == Attempt(p, Queue(p, calls), now).0
  {
    var all := calls + [now];
    assert all[..|all| - 1] == calls;
  }

  /** The reference: a limiter that keeps every accepted time and counts. */
  ghost function Counted(p: Policy, calls: seq<int>): (accepted: seq<int>) {
    if calls == [] then []
    else
      var n := |calls| - 1;
      var before := Counted(p, calls[..n]);
      if Within(before, calls[n] - p.windowMs, calls[n]) < p.limit then before + [calls[n]] else before
  }

  /** The queue of the real limiter after a run of calls. */
  ghost function Queue(p: Policy, calls: seq<int>): seq<int> {
    if calls == [] then [] else Attempt(p, Queue(p, calls[..|calls| - 1]), calls[|calls| - 1]).0
  }

  /** The calls the limiter accepts in a run. */
  ghost function Accepted(p: Policy, calls: seq<int>): seq<int> {
    if calls == [] then []
    else
      var n := |calls| - 1;
      var before := Accepted(p, calls[..n]);
      if Attempt(p, Queue(p, calls[..n]), calls[n]).1 then before + [calls[n]] else before
  }

  ghost predicate NonDecreasing(s: seq<int>) {
    forall i, j :: 0 <= i <= j < |s| ==> s[i] <= s[j]
  }

  lemma {:induction false} DropOldIsFilter(queue: seq<int>, cutoff: int, now: int)
    requires NonDecreasing(queue) && forall t :: t in queue ==> t <= now
    ensures DropOld(queue, cutoff) == Filter(queue, Window(cutoff, now))
  {
    if queue != [] {
      assert queue[0] in queue;
      if queue[0] <= cutoff {
        InTail(queue, 1);
        DropOldIsFilter(queue[1..], cutoff, now);
      } else {
        assert forall t :: t in queue ==> cutoff < t;
        FilterAll(queue, Window(cutoff, now));
      }
    }
  }

  lemma {:induction false} FilterMonotone(s: seq<int>, p: int -> bool, q: int -> bool)
    requires forall x :: x in s && p(x) ==> q(x)
    ensures |Filter(s, p)| <= |Filter(s, q)|
  {
    if s != [] {
      InTail(s, 1);
      var x := s[0];
      assert x in s && (p(x) ==> q(x));
      FilterMonotone(s[1..], p, q);
    }
  }

  /** The queue is what is left of the accepted times after dropping some that have left the window of the last call. */
  ghost predicate Represents(p: Policy, accepted: seq<int>, queue: seq<int>, now: int, dropped: seq<int>) {
    && accepted == dropped + queue
    && NonDecreasing(queue)
    && (forall t :: t in queue ==> t <= now)
    && (forall t :: t in dropped ==> t <= now - p.windowMs)
  }

  lemma {:induction false} DropOldSuffix(queue: seq<int>, cutoff: int) returns (gone: seq<int>)
    ensures queue == gone + DropOld(queue, cutoff) && forall t :: t in gone ==> t <= cutoff
  {
    if queue != [] && queue[0] <= cutoff {
      var more := DropOldSuffix(queue[1..], cutoff);
      gone := [queue[0]] + more;
      assert queue == [queue[0]] + (more + DropOld(queue, cutoff));
    } else {
      gone := [];
    }
  }

  lemma SortedTail(more: seq<int>, kept: seq<int>, now: int)
    requires NonDecreasing(more + kept) && forall t :: t in more + kept ==> t <= now
    ensures NonDecreasing(kept) && NonDecreasing(kept + [now])
    ensures (forall t :: t in kept ==> t <= now) && forall t :: t in kept + [now] ==> t <= now
  {
    forall i, j | 0 <= i <= j < |kept| ensures kept[i] <= kept[j] {
      assert kept[i] == (more + kept)[|more| + i] && kept[j] == (more + kept)[|more| + j];
    }
    forall t | t in kept ensures t <= now {
      assert t in more + kept;
    }
    forall i, j | 0 <= i <= j < |kept + [now]| ensures (kept + [now])[i] <= (kept + [now])[j] {
      if i < |kept| { assert kept[i] in kept; }
    }
  }

  /** One call at a time no earlier than the last: the queue gives the same answer as counting. */
  lemma AttemptCounts(p: Policy, accepted: seq<int>, queue: seq<int>, last: int, now: int, dropped: seq<int>)
    returns (gone: seq<int>)
    requires Represents(p, accepted, queue, last, dropped) && last <= now
    ensures var (after, ok) := Attempt(p, queue, now);
      && ok == (Within(accepted, now - p.windowMs, now) < p.limit)
      && Represents(p, if ok then accepted + [now] else accepted, after, now, gone)
  {
    hide DropOld, Filter, NonDecreasing;
    var cutoff := now - p.windowMs;
    FilterConcat(dropped, queue, Window(cutoff, now));
    FilterNone(dropped, Window(cutoff, now));
    DropOldIsFilter(queue, cutoff, now);
    assert Filter(accepted, Window(cutoff, now)) == DropOld(queue, cutoff);
    var more := DropOldSuffix(queue, cutoff);
    gone := dropped + more;
    var kept := DropOld(queue, cutoff);
    assert accepted == gone + kept;
    SortedTail(more, kept, now);
    assert accepted + [now] == gone + (kept + [now]);
  }

  lemma NothingAccepted(p: Policy, now: int)
    ensures Represents(p, Counted(p, []), Queue(p, []), now, [])
  {
  }

  lemma OneMoreCall(p: Policy, calls: seq<int>, now: int)
    ensures Queue(p, calls + [now]) == Attempt(p, Queue(p, calls), now).0
    ensures Counted(p, calls + [now]) ==
      if Within(Counted(p, calls), now - p.windowMs, now) < p.limit then Counted(p, calls) + [now] else Counted(p, calls)
  {
    hide Attempt, Within, Filter, Window, DropOld;
    var all := calls + [now];
    assert all[..|all| - 1] == calls && all[|all| - 1] == now;
  }

  lemma {:induction false} RunRepresents(p: Policy, calls: seq<int>) returns (dropped: seq<int>)
    requires NonDecreasing(calls) && calls != []
    ensures Represents(p, Counted(p, calls), Queue(p, calls), calls[|calls| - 1], dropped)
    decreases |calls|
  {
    hide Attempt, Within, Represents, Counted, Queue;
    var n := |calls| - 1;
    var before, now := calls[..n], calls[n];
    var last := if n == 0 then now else calls[n - 1];
    if n == 0 {
      assert before == [];
      NothingAccepted(p, now);
      dropped := [];
    } else {
      dropped := RunRepresents(p, before);
    }
    dropped := AttemptCounts(p, Counted(p, before), Queue(p, before), last, now, dropped);
    assert before + [now] == calls;
    OneMoreCall(p, before, now);
  }

  lemma NextIsCounted(p: Policy, calls: seq<int>, now: int)
    requires NonDecreasing(calls + [now])
    ensures Attempt(p, Queue(p, calls), now).1 == (Within(Counted(p, calls), now - p.windowMs, now) < p.limit)
  {
    var n := |calls|;
    var gone;
    if n == 0 {
      gone := AttemptCounts(p, [], [], now, now, []);
    } else {
      assert forall i :: 0 <= i < n ==> (calls + [now])[i] == calls[i];
      var dropped := RunRepresents(p, calls);
      assert (calls + [now])[n - 1] <= (calls + [now])[n];
      gone := AttemptCounts(p, Counted(p, calls), Queue(p, calls), calls[n - 1], now, dropped);
    }
  }

  /** The queue of the limiter forgets, the reference does not; at non-decreasing times they accept the same calls. */
  lemma {:induction false} AcceptsAsCounted(p: Policy, calls: seq<int>)
    requires NonDecreasing(calls)
    ensures Accepted(p, calls) == Counted(p, calls)
    decreases |calls|
  {
    if calls != [] {
      var n := |calls| - 1;
      AcceptsAsCounted(p, calls[..n]);
      assert calls[..n] + [calls[n]] == calls;
      NextIsCounted(p, calls[..n], calls[n]);
    }
  }

  /** For every run of calls at non-decreasing times: the limiter accepts a further call exactly when fewer
      than `limit` of the calls it accepted lie in the window that ends with it. */
  lemma AcceptsIffBelowLimit(p: Policy, calls: seq<int>, now: int)
    requires NonDecreasing(calls + [now])
    ensures var accepted := Accepted(p, calls);
      Attempt(p, Queue(p, calls), now).1 <==>
        |set i | 0 <= i < |accepted| && now - p.windowMs < accepted[i] <= now| < p.limit
  {
    assert NonDecreasing(calls) by { assert forall i :: 0 <= i < |calls| ==> (calls + [now])[i] == calls[i]; }
    hide NonDecreasing, Accepted, Queue, Attempt, Within, Counted;
    WithinIsCount(Accepted(p, calls), now - p.windowMs, now);
    AcceptsAsCounted(p, calls);
    NextIsCounted(p, calls, now);
  }

  lemma {:induction false} CountedBounded(p: Policy, calls: seq<int>, now: int)
    requires NonDecreasing(calls) && forall t :: t in calls ==> t <= now
    ensures forall t :: t in Counted(p, calls) ==> t <= now
    decreases |calls|
  {
    if calls != [] {
      var before := calls[..|calls| - 1];
      InPrefix(calls, |calls| - 1);
      CountedBounded(p, before, now);
      assert calls[|calls| - 1] in calls;
    }
  }

  lemma AcceptOne(p: Policy, before: seq<int>, now: int, end: int)
    requires forall t :: t in before ==> t <= now
    requires Within(before, now - p.windowMs, now) < p.limit && Within(before, end - p.windowMs, end) <= p.limit
    ensures Within(before + [now], end - p.windowMs, end) <= p.limit
  {
    var inEnd, inNow := Window(end - p.windowMs, end), Window(now - p.windowMs, now);
    FilterConcat(before, [now], inEnd);
    if inEnd(now) {
      FilterMonotone(before, inEnd, inNow);
    } else {
      FilterNone([now], inEnd);
    }
  }

  lemma {:induction false} CountedWithinLimit(p: Policy, calls: seq<int>, end: int)
    requires NonDecreasing(calls)
    ensures Within(Counted(p, calls), end - p.windowMs, end) <= p.limit
    decreases |calls|
  {
    if calls != [] {
      var n := |calls| - 1;
      CountedWithinLimit(p, calls[..n], end);
      var before := Counted(p, calls[..n]);
      if Within(before, calls[n] - p.windowMs, calls[n]) < p.limit {
        CountedBounded(p, calls[..n], calls[n]);
        AcceptOne(p, before, calls[n], end);
      }
    }
  }

  /** No window of that length, wherever it ends, holds more than `limit` of the calls the limiter accepted. */
  lemma NoWindowExceedsLimit(p: Policy, calls: seq<int>, end: int)
    requires NonDecreasing(calls)
    ensures var accepted := Accepted(p, calls); |set i | 0 <= i < |accepted| && end - p.windowMs < accepted[i] <= end| <= p.limit
  {
    WithinIsCount(Accepted(p, calls), end - p.windowMs, end);
    AcceptsAsCounted(p, calls);
    CountedWithinLimit(p, calls, end);
  }
}
