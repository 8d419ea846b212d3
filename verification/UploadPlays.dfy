/** What one run of completeUpload makes of the answers it is really given: a play alternates what the others do during an
    await with the one step the answer leads to. */
module UploadPlays {
  import opened Prelude
  import opened Uploads
  import R = Runs

  /** What the others do during the await with this number, and how it is answered. */
  type Outside = nat -> (seq<Event>, Answer)

  function Stepper(setup: Setup): (World, Event) -> World {
    (w: World, e: Event) => Step(setup, w, e)
  }

  /** The world when await number `k` is over. */
  function Waited(setup: Setup, outside: Outside, w: World, k: nat): World {
    R.Resume(Stepper(setup), w, outside(k).0)
  }

  /** The world after `n` awaits of run `r`, from number `from` on. */
  function Played(setup: Setup, outside: Outside, r: RunId, w: World, from: nat, n: nat): World {
    if n == 0 then w
    else
      var k := from + n - 1;
      Step(setup, Waited(setup, outside, Played(setup, outside, r, w, from, n - 1), k), Running(r, outside(k).1))
  }

  /** Run `r` has come from `w` to `t` by the awaits from number `from` up to number `to`, and nothing else. */
  ghost predicate Plays(setup: Setup, outside: Outside, r: RunId, w: World, from: nat, t: World, until: nat) {
    from <= until && t == Played(setup, outside, r, w, from, until - from)
  }

  lemma WaitedLeads(setup: Setup, outside: Outside, w: World, k: nat)
    ensures R.Leads(Stepper(setup), w, Waited(setup, outside, w, k))
  {
  }

  lemma {:induction false} PlaysLeads(setup: Setup, outside: Outside, r: RunId, w: World, from: nat, t: World, until: nat)
    requires Plays(setup, outside, r, w, from, t, until)
    ensures R.Leads(Stepper(setup), w, t)
    decreases until
  {
    hide R.Leads, Step;
    if from == until {
      R.Here(Stepper(setup), w);
    } else {
      var before := Played(setup, outside, r, w, from, until - 1 - from);
      var waited := Waited(setup, outside, before, until - 1);
      PlaysLeads(setup, outside, r, w, from, before, until - 1);
      WaitedLeads(setup, outside, before, until - 1);
      R.LeadsOn(Stepper(setup), w, before, waited);
      R.OneStep(Stepper(setup), w, waited, Running(r, outside(until - 1).1));
    }
  }

  lemma {:induction false} PlaysOn(setup: Setup, outside: Outside, r: RunId, w: World, from: nat, v: World, middle: nat, t: World, until: nat)
    requires Plays(setup, outside, r, w, from, v, middle) && Plays(setup, outside, r, v, middle, t, until)
    ensures Plays(setup, outside, r, w, from, t, until)
    decreases until
  {
    hide Step, Waited;
    if middle < until {
      PlaysOn(setup, outside, r, w, from, v, middle, Played(setup, outside, r, v, middle, until - 1 - middle), until - 1);
    }
  }

  lemma NothingPlayed(setup: Setup, outside: Outside, r: RunId, w: World, from: nat)
    ensures Plays(setup, outside, r, w, from, w, from)
  {
  }

  /** One await. */
  lemma OneAwait(setup: Setup, outside: Outside, r: RunId, w: World, from: nat)
    requires r in Waited(setup, outside, w, from).runs
    ensures Plays(setup, outside, r, w, from, Advance(setup, Waited(setup, outside, w, from), r, outside(from).1), from + 1)
  {
    hide Advance, Waited;
    assert Played(setup, outside, r, w, from, 0) == w;
  }
}
