/** The attachment half of a cleanup sweep: stale claims are reset, the candidates are listed at one instant, and each of them
    loses its objects and its row, while everybody else goes on. */
module AttachmentCleanup {
  import opened Prelude
  import opened UploadPlays
  import opened Uploads
  import C = ChatDb
  import L = LiveAttachments
  import R = Runs
  import S = UploadSafety
  import US = UploadService

  // ---- The listing query ----------------------------------------------------------------

  /** Unbound and READY for too long, unbound and never uploaded, refused, or due because its message was deleted. */
  ghost predicate MustGo(x: C.Attachment, now: int, unboundReadyBefore: int, staleBefore: int) {
    || (x.message.None? && x.status == C.Ready && x.updatedAt <= unboundReadyBefore)
    || (x.message.None? && x.status == C.Pending && x.uploadExpiresAt <= staleBefore)
    || (x.message.None? && x.status in {C.Rejected, C.Cancelled} && x.updatedAt <= staleBefore)
    || (x.purgeAfter.Some? && x.purgeAfter.value <= now)
  }

  ghost predicate Earlier(rows: C.Attachments, a: AssetId, b: AssetId) {
    a in rows && b in rows
    && (rows[a].updatedAt < rows[b].updatedAt || (rows[a].updatedAt == rows[b].updatedAt && a < b))
  }

  ghost predicate IsListing(rows: C.Attachments, now: int, unboundReadyBefore: int, staleBefore: int, list: seq<AssetId>) {
    && (forall a :: a in list <==> a in rows && MustGo(rows[a], now, unboundReadyBefore, staleBefore))
    && (forall i, j :: 0 <= i < j < |list| ==> Earlier(rows, list[i], list[j]))
  }

  /** The answer of the query: the first `take` of them by time of change and id. */
  ghost predicate IsBatch(rows: C.Attachments, now: int, unboundReadyBefore: int, staleBefore: int, take: nat, batch: seq<AssetId>) {
    exists list :: IsListing(rows, now, unboundReadyBefore, staleBefore, list) && batch == if |list| <= take then list else list[..take]
  }

  lemma CandidatesMustGo(x: C.Attachment, now: int, unboundReadyBefore: int, staleBefore: int)
    ensures C.IsCandidate(x, now, unboundReadyBefore, staleBefore) <==> MustGo(x, now, unboundReadyBefore, staleBefore)
  {
  }

  /** What it lists are the candidates that the message invariants speak of, each once. */
  lemma BatchIsListed(rows: C.Attachments, now: int, unboundReadyBefore: int, staleBefore: int, take: nat, batch: seq<AssetId>)
    requires IsBatch(rows, now, unboundReadyBefore, staleBefore, take, batch)
    ensures |batch| <= take
    ensures forall a :: a in batch ==> a in rows && C.IsCandidate(rows[a], now, unboundReadyBefore, staleBefore)
    ensures forall i, j :: 0 <= i < j < |batch| ==> batch[i] != batch[j]
  {
    var list :| IsListing(rows, now, unboundReadyBefore, staleBefore, list) && batch == if |list| <= take then list else list[..take];
    forall a | a in batch ensures a in rows && C.IsCandidate(rows[a], now, unboundReadyBefore, staleBefore) {
      assert a in list;
    }
  }

  // ---- What a sweep does, step by step -----------------------------------------------------

  function Others(setup: Setup, outside: Outside): (nat, World) -> World {
    (k: nat, w: World) => Waited(setup, outside, w, k)
  }

  lemma OthersLead(setup: Setup, outside: Outside)
    ensures forall k, w :: R.Leads(Stepper(setup), w, Others(setup, outside)(k, w))
  {
    hide R.Leads;
    forall k: nat, w ensures R.Leads(Stepper(setup), w, Others(setup, outside)(k, w)) { WaitedLeads(setup, outside, w, k); }
  }

  function Deletes(key: Option<Key>): seq<seq<Event>> {
    if key.Some? then [[CleanupDeletingObject(key.value)]] else []
  }

  /** The awaits of one candidate: its objects, then its row. */
  function Sweeps(a: AssetId, row: Asset): seq<seq<Event>> {
    AllDeletes(row) + [[CleanupDeletingAsset(a)]]
  }

  function AllDeletes(row: Asset): seq<seq<Event>> {
    Deletes(row.incomingKey) + Deletes(row.readyKey) + Deletes(row.thumbnailKey)
  }

  type Candidates = seq<(AssetId, Asset)>

  function AllSweeps(candidates: Candidates, n: nat): seq<seq<Event>>
    requires n <= |candidates|
  {
    if n == 0 then [] else AllSweeps(candidates, n - 1) + Sweeps(candidates[n - 1].0, candidates[n - 1].1)
  }

  function Picks(batch: seq<AssetId>): seq<Event> {
    seq(|batch|, j requires 0 <= j < |batch| => PickingForCleanup(batch[j]))
  }

  /** Every row that is PROCESSING since `staleBefore` goes back to PENDING, and nothing else changes but the time of change. */
  lemma StaleAreReset(w: World, staleBefore: int, now: int, a: AssetId)
    requires a in w.assets
    ensures a in ResetStale(w, staleBefore, now).assets
    ensures ResetStale(w, staleBefore, now).assets[a] ==
      if w.assets[a].status == C.Processing && w.assets[a].updatedAt <= staleBefore
      then w.assets[a].(status := C.Pending, updatedAt := now) else w.assets[a]
  {
  }

  type Rows = (nat, World) -> C.Attachments
  type Listing = (C.Attachments, int, int, int) -> seq<AssetId>

  /** The world in which the listing is taken: one await for the reset, and one for the query. */
  function Seen(setup: Setup, outside: Outside, w: World, k: nat, staleBefore: int, now: int): World {
    Waited(setup, outside, ResetStale(Waited(setup, outside, w, k), staleBefore, now), k + 1)
  }

  /** Each candidate is a row of the answer, as it was in world `w`, in the order of the answer. */
  ghost predicate AreCandidates(w: World, batch: seq<AssetId>, candidates: Candidates) {
    && |candidates| == |batch|
    && forall j :: 0 <= j < |batch| ==> batch[j] in w.assets && candidates[j] == (batch[j], w.assets[batch[j]])
  }

  /** On the way from `w` to `t` there was a moment without an object under the key. */
  ghost predicate WasGone(setup: Setup, w: World, t: World, key: Option<Key>) {
    key.Some? ==> exists v :: R.Leads(Stepper(setup), w, v) && R.Leads(Stepper(setup), v, t) && key.value !in v.objects
  }

  ghost predicate LostObjects(setup: Setup, w: World, t: World, row: Asset) {
    WasGone(setup, w, t, row.incomingKey) && WasGone(setup, w, t, row.readyKey) && WasGone(setup, w, t, row.thumbnailKey)
  }

  lemma GoneBetween(setup: Setup, w: World, v: World, t: World, u: World, key: Option<Key>)
    requires R.Leads(Stepper(setup), w, v) && WasGone(setup, v, t, key) && R.Leads(Stepper(setup), t, u)
    ensures WasGone(setup, w, u, key)
  {
    hide R.Leads;
    if key.Some? {
      var x :| R.Leads(Stepper(setup), v, x) && R.Leads(Stepper(setup), x, t) && key.value !in x.objects;
      R.LeadsOn(Stepper(setup), w, v, x);
      R.LeadsOn(Stepper(setup), x, t, u);
    }
  }

  lemma LostBetween(setup: Setup, w: World, v: World, t: World, u: World, row: Asset)
    requires R.Leads(Stepper(setup), w, v) && LostObjects(setup, v, t, row) && R.Leads(Stepper(setup), t, u)
    ensures LostObjects(setup, w, u, row)
  {
    hide R.Leads, WasGone;
    GoneBetween(setup, w, v, t, u, row.incomingKey);
    GoneBetween(setup, w, v, t, u, row.readyKey);
    GoneBetween(setup, w, v, t, u, row.thumbnailKey);
  }

  /** Nobody else does anything. */
  ghost predicate Quiet(outside: Outside) {
    forall k :: outside(k).0 == []
  }

  function KeySet(key: Option<Key>): set<Key> {
    if key.Some? then {key.value} else {}
  }

  function KeysOf(row: Asset): set<Key> {
    KeySet(row.incomingKey) + KeySet(row.readyKey) + KeySet(row.thumbnailKey)
  }

  class AttachmentCleanupService {
    const backend: US.Backend
    /** The attachment rows, as the message transactions have left them by the time await number k is answered. */
    const rows: Rows
    /** What the listing query returns. */
    const listing: Listing
    const batchSize: nat

    constructor (backend: US.Backend, rows: Rows, listing: Listing, batchSize: nat)
      ensures this.backend == backend && this.rows == rows && this.listing == listing && this.batchSize == batchSize
    {
      this.backend, this.rows, this.listing, this.batchSize := backend, rows, listing, batchSize;
    }

    /** Attachment and asset rows agree, and the listing answers its query. */
    ghost predicate Fair() {
      && (forall k: nat, w: World :: L.Agree(w.assets, rows(k, w)))
      && forall rs, now, unboundReadyBefore, staleBefore ::
           IsBatch(rs, now, unboundReadyBefore, staleBefore, batchSize, listing(rs, now, unboundReadyBefore, staleBefore))
    }

    function View(): World reads backend {
      backend.View()
    }

    function Meanwhile(): (nat, World) -> World {
      Others(backend.setup, backend.outside)
    }

    function Next(): (World, Event) -> World {
      Stepper(backend.setup)
    }

    /** One object of a candidate, if it has a key. */
    method DeleteKey(a: AssetId, key: Option<Key>)
      requires a in backend.history.picked && S.Valid(backend.setup, View()) && (key.Some? ==> key.value.asset == a)
      modifies backend
      ensures R.Plays(Next(), Meanwhile(), old(View()), old(backend.awaits), Deletes(key), View(), backend.awaits)
      ensures S.Valid(backend.setup, View()) && a in backend.history.picked && WasGone(backend.setup, old(View()), View(), key)
      ensures Quiet(backend.outside) ==> View() == old(View()).(objects := old(backend.objects) - KeySet(key))
    {
      hide R.Leads, R.Played, S.Valid, Step;
      var setup, outside := backend.setup, backend.outside;
      ghost var start, k := View(), backend.awaits;
      if key.None? {
        R.NothingPlayed(Next(), Meanwhile(), start, k);
        return;
      }
      R.OneAwait(Next(), Meanwhile(), start, k, CleanupDeletingObject(key.value));
      var x := backend.Pause();
      ghost var w := View();
      US.PickedStays(setup, start, w);
      OwnSteps(setup, w);
      backend.DeleteObject(key.value);
      R.OneStep(Stepper(setup), start, w, CleanupDeletingObject(key.value));
      R.Here(Stepper(setup), View());
      US.LeadsToValid(setup, start, View());
    }

    /** The objects of a candidate, one after the other. */
    method DeleteObjects(a: AssetId, row: Asset)
      requires S.Valid(backend.setup, View()) && a in backend.history.picked && S.Known(backend.history.intents, a, row)
      modifies backend
      ensures R.Plays(Next(), Meanwhile(), old(View()), old(backend.awaits), AllDeletes(row), View(), backend.awaits)
      ensures S.Valid(backend.setup, View()) && a in backend.history.picked
      ensures R.Leads(Next(), old(View()), View()) && LostObjects(backend.setup, old(View()), View(), row)
      ensures Quiet(backend.outside) ==> View() == old(View()).(objects := old(backend.objects) - KeysOf(row))
    {
      hide R.Leads, R.Plays, S.Valid, S.Known, WasGone, Deletes, Step, LostObjects, AllDeletes, Waited, KeySet;
      ghost var start, k := View(), backend.awaits;
      US.CandidateKeys(backend.setup, start, a, row);
      DeleteKey(a, row.incomingKey);
      ghost var v1, k1 := View(), backend.awaits;
      DeleteKey(a, row.readyKey);
      ghost var v2, k2 := View(), backend.awaits;
      DeleteKey(a, row.thumbnailKey);
      SweptOneByOne(backend.setup, backend.outside, start, k, v1, k1, v2, k2, View(), backend.awaits, row);
      GoneOneByOne(backend.setup, start, v1, v2, View(), row);
    }

    /** A listed candidate: its objects, then its row, and nothing else. */
    method CleanupCandidate(a: AssetId, row: Asset) returns (deletedAssets: nat, clearedIncomingObjects: nat)
      requires S.Valid(backend.setup, View()) && a in backend.history.picked && S.Known(backend.history.intents, a, row)
      modifies backend
      ensures R.Plays(Next(), Meanwhile(), old(View()), old(backend.awaits), Sweeps(a, row), View(), backend.awaits)
      ensures R.Leads(Next(), old(View()), View()) && S.Valid(backend.setup, View())
      ensures LostObjects(backend.setup, old(View()), View(), row)
      ensures a !in backend.assets && deletedAssets <= 1
      ensures clearedIncomingObjects == if row.incomingKey.Some? then 1 else 0
      ensures Quiet(backend.outside) ==>
        && View() == old(View()).(objects := old(backend.objects) - KeysOf(row), assets := old(backend.assets) - {a})
        && (deletedAssets == 1 <==> a in old(backend.assets))
    {
      hide R.Leads, R.Plays, S.Valid, S.Known, AllDeletes, Step, LostObjects, KeysOf;
      var setup, outside := backend.setup, backend.outside;
      ghost var start, k := View(), backend.awaits;
      DeleteObjects(a, row);
      ghost var v, k1 := View(), backend.awaits;
      R.OneAwait(Next(), Meanwhile(), v, k1, CleanupDeletingAsset(a));
      var x := backend.Pause();
      WaitedLeads(setup, outside, v, k1);
      US.PickedStays(setup, v, View());
      OwnSteps(setup, View());
      var deleted := backend.DeleteAsset(a);
      R.PlaysOn(Next(), Meanwhile(), start, k, AllDeletes(row), v, k1, [[CleanupDeletingAsset(a)]], View(), backend.awaits);
      OthersLead(setup, outside);
      R.PlaysLeads(Next(), Meanwhile(), v, k1, [[CleanupDeletingAsset(a)]], View(), backend.awaits);
      R.Here(Next(), start);
      LostBetween(setup, start, start, v, View(), row);
      R.LeadsOn(Next(), start, v, View());
      US.LeadsToValid(setup, start, View());
      return if deleted then 1 else 0, if row.incomingKey.Some? then 1 else 0;
    }

    /** Notes the candidates of an answer, in its order. */
    method Note(batch: seq<AssetId>) returns (candidates: Candidates)
      requires forall a :: a in batch ==> a in backend.assets
      modifies backend`history
      ensures View() == R.Resume(Next(), old(View()), Picks(batch)) && View() == old(View()).(history := backend.history)
      ensures AreCandidates(old(View()), batch, candidates) && backend.history.intents == old(backend.history.intents)
      ensures forall j :: 0 <= j < |batch| ==> batch[j] in backend.history.picked
    {
      hide R.Resume, Step;
      ghost var seen, picks := View(), Picks(batch);
      candidates := [];
      NothingPicked(backend.setup, seen, picks);
      for j := 0 to |batch|
        invariant View() == R.Resume(Next(), seen, picks[..j]) && View() == seen.(history := backend.history)
        invariant |candidates| == j && backend.history.intents == seen.history.intents
        invariant forall i :: 0 <= i < j ==> batch[i] in seen.assets && candidates[i] == (batch[i], seen.assets[batch[i]])
        invariant forall i :: 0 <= i < j ==> batch[i] in backend.history.picked
      {
        var a := batch[j];
        assert a in batch;
        OneMorePick(backend.setup, seen, picks, j);
        OwnSteps(backend.setup, View());
        backend.NotePicked(a);
        candidates := candidates + [(a, backend.assets[a])];
      }
      assert picks[..|batch|] == picks;
    }

    /** The listing, at one instant: the answer of the query with each row as it is then. */
    method ListCleanupCandidates(now: int, unboundReadyBefore: int, staleBefore: int) returns (candidates: Candidates)
      requires S.Valid(backend.setup, View()) && Fair()
      modifies backend
      ensures var seen := Waited(backend.setup, backend.outside, old(View()), old(backend.awaits));
        var batch := listing(rows(old(backend.awaits), seen), now, unboundReadyBefore, staleBefore);
        && AreCandidates(seen, batch, candidates)
        && R.Plays(Next(), Meanwhile(), old(View()), old(backend.awaits), [Picks(batch)], View(), backend.awaits)
        && View() == seen.(history := backend.history)
      ensures R.Leads(Next(), old(View()), View()) && S.Valid(backend.setup, View())
      ensures forall c :: c in candidates ==>
        c.0 in backend.assets && c.0 in backend.history.picked && S.Known(backend.history.intents, c.0, c.1)
      ensures forall i, j :: 0 <= i < j < |candidates| ==> candidates[i].0 != candidates[j].0
    {
      hide R.Leads, S.Valid, S.Known, R.Plays, IsBatch, R.Resume, C.IsCandidate;
      var setup, outside, k := backend.setup, backend.outside, backend.awaits;
      ghost var start := View();
      OthersLead(setup, outside);
      var x := backend.Pause();
      ghost var seen := View();
      US.LeadsToValid(setup, start, seen);
      var batch := listing(rows(k, View()), now, unboundReadyBefore, staleBefore);
      BatchIsListed(rows(k, seen), now, unboundReadyBefore, staleBefore, batchSize, batch);
      assert L.Agree(seen.assets, rows(k, seen));
      R.OneAwaitSteps(Next(), Meanwhile(), start, k, Picks(batch));
      candidates := Note(batch);
      R.PlaysLeads(Next(), Meanwhile(), start, k, [Picks(batch)], View(), backend.awaits);
      US.LeadsToValid(setup, start, View());
      forall c | c in candidates ensures c.0 in backend.assets && c.0 in backend.history.picked && S.Known(backend.history.intents, c.0, c.1) {
        var j :| 0 <= j < |candidates| && candidates[j] == c;
        US.RowKnown(setup, seen, batch[j]);
      }
    }

    /** The candidates one after the other. No candidate has a row afterwards, whatever the others did meanwhile. */
    method CleanupCandidates(candidates: Candidates) returns (deletedAssets: nat, clearedIncomingObjects: nat)
      requires S.Valid(backend.setup, View())
      requires forall c :: c in candidates ==> c.0 in backend.history.picked && S.Known(backend.history.intents, c.0, c.1)
      requires forall i, j :: 0 <= i < j < |candidates| ==> candidates[i].0 != candidates[j].0
      modifies backend
      ensures R.Plays(Next(), Meanwhile(), old(View()), old(backend.awaits), AllSweeps(candidates, |candidates|), View(), backend.awaits)
      ensures R.Leads(Next(), old(View()), View()) && S.Valid(backend.setup, View())
      ensures forall c :: c in candidates ==> c.0 !in backend.assets && LostObjects(backend.setup, old(View()), View(), c.1)
      ensures deletedAssets <= |candidates| && clearedIncomingObjects == WithIncoming(candidates)
      ensures Quiet(backend.outside) && (forall c :: c in candidates ==> c.0 in old(backend.assets)) ==> deletedAssets == |candidates|
      ensures Quiet(backend.outside) ==> forall c :: c in candidates ==> NoneThere(backend.objects, c.1)
    {
      hide R.Leads, R.Plays, S.Valid, WithIncoming, S.Known, LostObjects, Sweeps, KeysOf, Step, NoneThere;
      var setup := backend.setup;
      ghost var start, k := View(), backend.awaits;
      deletedAssets, clearedIncomingObjects := 0, 0;
      NoIncoming();
      R.NothingPlayed(Next(), Meanwhile(), start, k);
      R.Here(Next(), start);
      for j := 0 to |candidates|
        invariant R.Plays(Next(), Meanwhile(), start, k, AllSweeps(candidates, j), View(), backend.awaits)
        invariant R.Leads(Next(), start, View()) && S.Valid(setup, View())
        invariant forall c :: c in candidates ==> c.0 in backend.history.picked && S.Known(backend.history.intents, c.0, c.1)
        invariant forall i :: 0 <= i < j ==> candidates[i].0 !in backend.assets && LostObjects(setup, start, View(), candidates[i].1)
        invariant deletedAssets <= j && clearedIncomingObjects == WithIncoming(candidates[..j])
        invariant Quiet(backend.outside) ==> forall i :: 0 <= i < j ==> NoneThere(backend.objects, candidates[i].1)
        invariant Quiet(backend.outside) && (forall c :: c in candidates ==> c.0 in start.assets) ==>
          deletedAssets == j && forall i :: j <= i < |candidates| ==> candidates[i].0 in backend.assets
      {
        var (a, row) := candidates[j];
        assert candidates[j] in candidates;
        ghost var before, b := View(), backend.awaits;
        var deleted, cleared := CleanupCandidate(a, row);
        R.PlaysOn(Next(), Meanwhile(), start, k, AllSweeps(candidates, j), before, b, Sweeps(a, row), View(), backend.awaits);
        StillLost(setup, start, before, View(), candidates, j);
        R.LeadsOn(Next(), start, before, View());
        US.RowsStayGone(setup, before, View(), candidates);
        assert candidates[..j + 1] == candidates[..j] + [candidates[j]];
        OneMoreIncoming(candidates[..j], candidates[j]);
        if Quiet(backend.outside) { StillNone(before.objects, backend.objects, candidates, j); }
        deletedAssets, clearedIncomingObjects := deletedAssets + deleted, clearedIncomingObjects + cleared;
      }
      assert candidates[..|candidates|] == candidates;
    }

    /** The whole half: stale claims go back to PENDING, the answer of the query is listed, and each of its rows is gone at the
        end, its objects having been gone too; nothing else is done. */
    method RunOnce(now: int, unboundReadyBefore: int, staleBefore: int)
      returns (candidates: Candidates, deletedAssets: nat, clearedIncomingObjects: nat)
      requires S.Valid(backend.setup, View()) && Fair()
      modifies backend
      ensures var seen := Seen(backend.setup, backend.outside, old(View()), old(backend.awaits), staleBefore, now);
        var batch := listing(rows(old(backend.awaits) + 1, seen), now, unboundReadyBefore, staleBefore);
        && AreCandidates(seen, batch, candidates)
        && R.Plays(Next(), Meanwhile(), old(View()), old(backend.awaits), [[ResettingStale(staleBefore, now)], Picks(batch)]
                     + AllSweeps(candidates, |candidates|), View(), backend.awaits)
      ensures R.Leads(Next(), old(View()), View()) && S.Valid(backend.setup, View())
      ensures forall c :: c in candidates ==> c.0 !in backend.assets && LostObjects(backend.setup, old(View()), View(), c.1)
      ensures deletedAssets <= |candidates| && clearedIncomingObjects == WithIncoming(candidates)
      ensures Quiet(backend.outside) ==>
        deletedAssets == |candidates| && forall c :: c in candidates ==> NoneThere(backend.objects, c.1)
    {
      hide R.Leads, R.Plays, S.Valid, ResetStale, WithIncoming, S.Known, LostObjects, Picks, AllSweeps, KeysOf, Waited, AreCandidates, Step, IsBatch;
      var setup, outside := backend.setup, backend.outside;
      ghost var start, k := View(), backend.awaits;
      OthersLead(setup, outside);
      R.OneAwait(Next(), Meanwhile(), start, k, ResettingStale(staleBefore, now));
      var x := backend.Pause();
      ghost var found := View();
      OwnSteps(setup, found);
      backend.ResetStaleProcessing(staleBefore, now);
      ghost var reset, k1 := View(), backend.awaits;
      R.PlaysLeads(Next(), Meanwhile(), start, k, [[ResettingStale(staleBefore, now)]], reset, k1);
      US.LeadsToValid(setup, start, reset);
      candidates := ListCleanupCandidates(now, unboundReadyBefore, staleBefore);
      ghost var listed, k2 := View(), backend.awaits;
      ghost var batch := listing(rows(k + 1, Waited(setup, outside, reset, k + 1)), now, unboundReadyBefore, staleBefore);
      deletedAssets, clearedIncomingObjects := CleanupCandidates(candidates);
      ghost var sweeps := AllSweeps(candidates, |candidates|);
      R.PlaysOn(Next(), Meanwhile(), start, k, [[ResettingStale(staleBefore, now)]], reset, k1, [Picks(batch)], listed, k2);
      assert [[ResettingStale(staleBefore, now)]] + [Picks(batch)] == [[ResettingStale(staleBefore, now)], Picks(batch)];
      R.PlaysOn(Next(), Meanwhile(), start, k, [[ResettingStale(staleBefore, now)], Picks(batch)], listed, k2, sweeps, View(), backend.awaits);
      R.LeadsOn(Next(), start, reset, listed);
      R.LeadsOn(Next(), start, listed, View());
      R.Here(Next(), View());
      forall c | c in candidates ensures LostObjects(setup, start, View(), c.1) { LostBetween(setup, start, listed, View(), View(), c.1); }
    }
  }

  ghost predicate NoneThere(objects: map<Key, Object>, row: Asset) {
    forall key :: key in KeysOf(row) ==> key !in objects
  }

  lemma StillNone(before: map<Key, Object>, after: map<Key, Object>, candidates: Candidates, j: nat)
    requires j < |candidates| && after == before - KeysOf(candidates[j].1)
    requires forall i :: 0 <= i < j ==> NoneThere(before, candidates[i].1)
    ensures forall i :: 0 <= i <= j ==> NoneThere(after, candidates[i].1)
  {
    hide KeysOf;
  }

  lemma StillLost(setup: Setup, w: World, v: World, t: World, candidates: Candidates, j: nat)
    requires j < |candidates| && R.Leads(Stepper(setup), w, v) && R.Leads(Stepper(setup), v, t)
    requires forall i :: 0 <= i < j ==> LostObjects(setup, w, v, candidates[i].1)
    requires LostObjects(setup, v, t, candidates[j].1)
    ensures forall i :: 0 <= i <= j ==> LostObjects(setup, w, t, candidates[i].1)
  {
    hide R.Leads, LostObjects;
    R.Here(Stepper(setup), w);
    R.Here(Stepper(setup), t);
    forall i | 0 <= i <= j ensures LostObjects(setup, w, t, candidates[i].1) {
      if i < j { LostBetween(setup, w, w, v, t, candidates[i].1); } else { LostBetween(setup, w, v, t, t, candidates[i].1); }
    }
  }

  lemma OneMorePick(setup: Setup, seen: World, picks: seq<Event>, j: nat)
    requires j < |picks|
    ensures R.Resume(Stepper(setup), seen, picks[..j + 1]) == Step(setup, R.Resume(Stepper(setup), seen, picks[..j]), picks[j])
  {
    hide Step;
    assert picks[..j + 1][..j] == picks[..j];
  }

  lemma NothingPicked(setup: Setup, seen: World, picks: seq<Event>)
    ensures R.Resume(Stepper(setup), seen, picks[..0]) == seen
  {
  }

  /** How many of the candidates had an incoming object. */
  function WithIncoming(candidates: seq<(AssetId, Asset)>): nat {
    if candidates == [] then 0
    else WithIncoming(candidates[..|candidates| - 1]) + if candidates[|candidates| - 1].1.incomingKey.Some? then 1 else 0
  }

  lemma NoIncoming()
    ensures WithIncoming([]) == 0
  {
  }

  lemma OneMoreIncoming(before: seq<(AssetId, Asset)>, c: (AssetId, Asset))
    ensures WithIncoming(before + [c]) == WithIncoming(before) + if c.1.incomingKey.Some? then 1 else 0
  {
    assert (before + [c])[..|before|] == before;
  }

  /** The own steps of a sweep, as the life cycle takes them. */
  lemma OwnSteps(setup: Setup, w: World)
    ensures forall a :: a in w.history.picked ==> Step(setup, w, CleanupDeletingAsset(a)) == w.(assets := w.assets - {a})
    ensures forall key: Key :: key.asset in w.history.picked ==> Step(setup, w, CleanupDeletingObject(key)) == w.(objects := w.objects - {key})
    ensures forall a :: a in w.assets ==>
      Step(setup, w, PickingForCleanup(a)) == w.(history := w.history.(picked := w.history.picked + {a}))
    ensures forall staleBefore, now :: Step(setup, w, ResettingStale(staleBefore, now)) == ResetStale(w, staleBefore, now)
  {
    hide ResetStale;
  }

  lemma SweptOneByOne(setup: Setup, outside: Outside, w: World, k: nat, v1: World, k1: nat, v2: World, k2: nat, t: World, until: nat, row: Asset)
    requires var n, o := Stepper(setup), Others(setup, outside);
      && R.Plays(n, o, w, k, Deletes(row.incomingKey), v1, k1) && R.Plays(n, o, v1, k1, Deletes(row.readyKey), v2, k2)
      && R.Plays(n, o, v2, k2, Deletes(row.thumbnailKey), t, until)
    ensures R.Plays(Stepper(setup), Others(setup, outside), w, k, AllDeletes(row), t, until)
    ensures R.Leads(Stepper(setup), w, v1) && R.Leads(Stepper(setup), v1, v2) && R.Leads(Stepper(setup), v2, t)
  {
    hide R.Plays, R.Leads, Stepper, Others, Deletes;
    var n, o := Stepper(setup), Others(setup, outside);
    var xs, ys, zs := Deletes(row.incomingKey), Deletes(row.readyKey), Deletes(row.thumbnailKey);
    OthersLead(setup, outside);
    R.PlaysOn(n, o, w, k, xs, v1, k1, ys, v2, k2);
    R.PlaysOn(n, o, w, k, xs + ys, v2, k2, zs, t, until);
    R.PlaysLeads(n, o, w, k, xs, v1, k1);
    R.PlaysLeads(n, o, v1, k1, ys, v2, k2);
    R.PlaysLeads(n, o, v2, k2, zs, t, until);
  }

  lemma GoneOneByOne(setup: Setup, w: World, v1: World, v2: World, t: World, row: Asset)
    requires R.Leads(Stepper(setup), w, v1) && R.Leads(Stepper(setup), v1, v2) && R.Leads(Stepper(setup), v2, t)
    requires WasGone(setup, w, v1, row.incomingKey) && WasGone(setup, v1, v2, row.readyKey) && WasGone(setup, v2, t, row.thumbnailKey)
    ensures R.Leads(Stepper(setup), w, t) && LostObjects(setup, w, t, row)
  {
    hide R.Leads, WasGone, Stepper;
    R.Here(Stepper(setup), w);
    R.Here(Stepper(setup), t);
    R.LeadsOn(Stepper(setup), w, v1, v2);
    R.LeadsOn(Stepper(setup), v1, v2, t);
    R.LeadsOn(Stepper(setup), w, v2, t);
    GoneBetween(setup, w, w, v1, t, row.incomingKey);
    GoneBetween(setup, w, v1, v2, t, row.readyKey);
    GoneBetween(setup, w, v2, t, t, row.thumbnailKey);
  }
}
