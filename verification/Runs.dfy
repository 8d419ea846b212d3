/** Runs of a system that is given by its step function. */
module Runs {

  /** The state after `steps`, from `w` on. */
  function Resume<W, S>(next: (W, S) -> W, w: W, steps: seq<S>): W {
    if steps == [] then w else next(Resume(next, w, steps[..|steps| - 1]), steps[|steps| - 1])
  }

  /** Some steps lead from `w` to `t`. */
  ghost predicate Leads<W, S(!new)>(next: (W, S) -> W, w: W, t: W) {
    exists steps: seq<S> :: Resume(next, w, steps) == t
  }

  lemma {:induction false} ResumeConcat<W, S>(next: (W, S) -> W, w: W, xs: seq<S>, ys: seq<S>)
    ensures Resume(next, w, xs + ys) == Resume(next, Resume(next, w, xs), ys)
    decreases |ys|
  {
    if ys == [] {
      assert xs + ys == xs;
    } else {
      ResumeConcat(next, w, xs, ys[..|ys| - 1]);
      assert (xs + ys)[..|xs + ys| - 1] == xs + ys[..|ys| - 1];
    }
  }

  lemma Here<W, S(!new)>(next: (W, S) -> W, w: W)
    ensures Leads(next, w, w)
  {
    assert Resume(next, w, []) == w;
  }

  lemma LeadsOn<W, S(!new)>(next: (W, S) -> W, w: W, v: W, t: W)
    requires Leads(next, w, v) && Leads(next, v, t)
    ensures Leads(next, w, t)
  {
    var xs: seq<S> :| Resume(next, w, xs) == v;
    var ys: seq<S> :| Resume(next, v, ys) == t;
    ResumeConcat(next, w, xs, ys);
  }

  lemma OneStep<W, S(!new)>(next: (W, S) -> W, w: W, v: W, s: S)
    requires Leads(next, w, v)
    ensures Leads(next, w, next(v, s))
  {
    assert [s][..0] == [];
    assert Resume(next, v, [s][..0]) == v;
    assert Resume(next, v, [s]) == next(v, s);
    LeadsOn(next, w, v, next(v, s));
  }

  /** What every step keeps, every run keeps. */
  lemma {:induction false} InvariantKept<W(!new), S(!new)>(next: (W, S) -> W, inv: W -> bool, w: W, steps: seq<S>)
    requires inv(w) && forall v, s :: inv(v) ==> inv(next(v, s))
    ensures inv(Resume(next, w, steps))
    decreases |steps|
  {
    if steps != [] {
      InvariantKept(next, inv, w, steps[..|steps| - 1]);
    }
  }

  lemma LeadsKeeps<W(!new), S(!new)>(next: (W, S) -> W, inv: W -> bool, w: W, t: W)
    requires inv(w) && Leads(next, w, t) && forall v, s :: inv(v) ==> inv(next(v, s))
    ensures inv(t)
  {
    var steps: seq<S> :| Resume(next, w, steps) == t;
    InvariantKept(next, inv, w, steps);
  }

  /** Await by await from number `from` on: what the others make of the world meanwhile, then one's own steps after the answer. */
  function Played<W, S>(next: (W, S) -> W, outside: (nat, W) -> W, w: W, from: nat, own: seq<seq<S>>): W {
    if own == [] then w
    else
      var n := |own| - 1;
      Resume(next, outside(from + n, Played(next, outside, w, from, own[..n])), own[n])
  }

  lemma {:induction false} PlayedOn<W, S>(next: (W, S) -> W, outside: (nat, W) -> W, w: W, from: nat, xs: seq<seq<S>>, ys: seq<seq<S>>)
    ensures Played(next, outside, w, from, xs + ys) == Played(next, outside, Played(next, outside, w, from, xs), from + |xs|, ys)
    decreases |ys|
  {
    hide Resume;
    if ys == [] {
      assert xs + ys == xs;
    } else {
      var n := |ys| - 1;
      PlayedOn(next, outside, w, from, xs, ys[..n]);
      assert (xs + ys)[..|xs + ys| - 1] == xs + ys[..n] && (xs + ys)[|xs + ys| - 1] == ys[n];
    }
  }

  /** One await with one own step. */
  lemma PlayedOnce<W, S>(next: (W, S) -> W, outside: (nat, W) -> W, w: W, from: nat, s: S)
    ensures Played(next, outside, w, from, [[s]]) == next(outside(from, w), s)
  {
    var own: seq<seq<S>> := [[s]];
    assert own[..0] == [] && own[0] == [s] && [s][..0] == [];
    assert Played(next, outside, w, from, own[..0]) == w;
    assert Resume(next, outside(from, w), [s][..0]) == outside(from, w);
  }

  lemma {:induction false} PlayedLeads<W(!new), S(!new)>(next: (W, S) -> W, outside: (nat, W) -> W, w: W, from: nat, own: seq<seq<S>>)
    requires forall k, v :: Leads(next, v, outside(k, v))
    ensures Leads(next, w, Played(next, outside, w, from, own))
    decreases |own|
  {
    if own == [] {
      Here(next, w);
    } else {
      var n := |own| - 1;
      var v := Played(next, outside, w, from, own[..n]);
      PlayedLeads(next, outside, w, from, own[..n]);
      LeadsOn(next, w, v, outside(from + n, v));
      assert Leads(next, outside(from + n, v), Resume(next, outside(from + n, v), own[n]));
      LeadsOn(next, w, outside(from + n, v), Played(next, outside, w, from, own));
    }
  }

  /** From `w` to `t` by the awaits from number `from` up to number `until`, with these own steps and no others. */
  ghost predicate Plays<W, S>(next: (W, S) -> W, outside: (nat, W) -> W, w: W, from: nat, own: seq<seq<S>>, t: W, until: nat) {
    until == from + |own| && t == Played(next, outside, w, from, own)
  }

  lemma NothingPlayed<W, S>(next: (W, S) -> W, outside: (nat, W) -> W, w: W, from: nat)
    ensures Plays(next, outside, w, from, [], w, from)
  {
  }

  lemma OneAwait<W, S>(next: (W, S) -> W, outside: (nat, W) -> W, w: W, from: nat, s: S)
    ensures Plays(next, outside, w, from, [[s]], next(outside(from, w), s), from + 1)
  {
    hide Played;
    PlayedOnce(next, outside, w, from, s);
  }

  lemma PlaysOn<W, S>(next: (W, S) -> W, outside: (nat, W) -> W, w: W, from: nat, xs: seq<seq<S>>, v: W, middle: nat,
                      ys: seq<seq<S>>, t: W, until: nat)
    requires Plays(next, outside, w, from, xs, v, middle) && Plays(next, outside, v, middle, ys, t, until)
    ensures Plays(next, outside, w, from, xs + ys, t, until)
  {
    hide Played;
    PlayedOn(next, outside, w, from, xs, ys);
  }

  lemma PlaysLeads<W(!new), S(!new)>(next: (W, S) -> W, outside: (nat, W) -> W, w: W, from: nat, own: seq<seq<S>>, t: W, until: nat)
    requires Plays(next, outside, w, from, own, t, until) && forall k, v :: Leads(next, v, outside(k, v))
    ensures Leads(next, w, t)
  {
    hide Played, Leads;
    PlayedLeads(next, outside, w, from, own);
  }

  /** Several own steps after one answer. */
  lemma OneAwaitSteps<W, S>(next: (W, S) -> W, outside: (nat, W) -> W, w: W, from: nat, steps: seq<S>)
    ensures Plays(next, outside, w, from, [steps], Resume(next, outside(from, w), steps), from + 1)
  {
    hide Resume;
    assert [steps][..0] == [];
    assert Played(next, outside, w, from, [steps][..0]) == w;
  }
}
