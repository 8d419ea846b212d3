/** The avatar repository statement by statement, and the cleanup service working through its listing while the
    others go on during its awaits. */
module AvatarCleanup {
  import opened Prelude
  import opened Avatars
  import C = ChatDb
  import R = Runs

  lemma OneStepLeads(w: World, v: World, e: Event)
    requires R.Leads(Stepper(), w, v)
    ensures R.Leads(Stepper(), w, Step(v, e))
  {
    R.OneStep(Stepper(), w, v, e);
  }

  class AvatarRepository {
    var users: Users
    var assets: Assets

    method CreatePendingAvatar(owner: UserId, a: AssetId, publicUrl: string, uploadExpiresAt: int, now: int) returns (created: bool)
      modifies `assets
      ensures created <==> owner in users && users[owner].active
      ensures !created ==> assets == old(assets)
      ensures created ==>
        && Some(assets) == CreatePending(users, old(assets), owner, a, publicUrl, uploadExpiresAt, now)
        && assets.Keys == old(assets).Keys + {a}
        && assets[a] == Asset(owner, C.Pending, Some(publicUrl), Some(Incoming(a)), Some(Public(a)), uploadExpiresAt, now)
        && forall b :: b in old(assets) && b != a ==>
             assets[b] == if old(assets)[b].owner == owner && old(assets)[b].status == C.Pending
                          then old(assets)[b].(status := C.Cancelled, updatedAt := now) else old(assets)[b]
    {
      if owner !in users || !users[owner].active {
        return false;
      }
      assets := CancelPending(assets, owner, now);
      assets := assets[a := Asset(owner, C.Pending, Some(publicUrl), Some(Incoming(a)), Some(Public(a)), uploadExpiresAt, now)];
      return true;
    }

    method ClaimForProcessing(owner: UserId, a: AssetId, claimedAt: int, now: int) returns (claimed: bool)
      modifies `assets
      ensures assets == Claim(old(assets), owner, a, claimedAt, now)
      ensures assets.Keys == old(assets).Keys && forall b :: b in assets && (b != a || !claimed) ==> assets[b] == old(assets)[b]
      ensures claimed ==> a in old(assets) && a in assets && assets[a] == old(assets)[a].(status := C.Processing, updatedAt := now)
      ensures claimed <==>
        && a in old(assets) && old(assets)[a].owner == owner && old(assets)[a].status == C.Pending
        && claimedAt < old(assets)[a].uploadExpiresAt
    {
      claimed := a in assets && assets[a].owner == owner && assets[a].status == C.Pending && assets[a].uploadExpiresAt > claimedAt;
      if claimed {
        assets := assets[a := assets[a].(status := C.Processing, updatedAt := now)];
      }
    }

    method ReleaseProcessing(owner: UserId, a: AssetId, claimedAt: int, now: int)
      modifies `assets
      ensures assets == Release(old(assets), owner, a, claimedAt, now)
      ensures assets ==
        if a in old(assets) && old(assets)[a].owner == owner && old(assets)[a].status == C.Processing && claimedAt < old(assets)[a].uploadExpiresAt
        then old(assets)[a := old(assets)[a].(status := C.Pending, updatedAt := now)] else old(assets)
    {
      if a in assets && assets[a].owner == owner && assets[a].status == C.Processing && assets[a].uploadExpiresAt > claimedAt {
        assets := assets[a := assets[a].(status := C.Pending, updatedAt := now)];
      }
    }

    method Reject(owner: UserId, a: AssetId, now: int)
      modifies `assets
      ensures assets == MarkRejected(old(assets), owner, a, now)
      ensures assets ==
        if a in old(assets) && old(assets)[a].owner == owner && old(assets)[a].status in {C.Pending, C.Processing}
        then old(assets)[a := old(assets)[a].(status := C.Rejected, updatedAt := now)] else old(assets)
    {
      if a in assets && assets[a].owner == owner && assets[a].status in {C.Pending, C.Processing} {
        assets := assets[a := assets[a].(status := C.Rejected, updatedAt := now)];
      }
    }

    /** The asset first, then the user; if there is no active user the first change is undone. */
    method CompleteAvatar(owner: UserId, a: AssetId, now: int) returns (completed: bool)
      modifies this
      ensures (users, assets) == Complete(old(users), old(assets), owner, a, now)
      ensures completed <==>
        && a in old(assets) && old(assets)[a].owner == owner && old(assets)[a].status == C.Processing
        && owner in old(users) && old(users)[owner].active
      ensures completed ==>
        && assets == old(assets)[a := old(assets)[a].(status := C.Ready, updatedAt := now)]
        && users == old(users)[owner := User(true, Some(a), old(assets)[a].publicUrl)]
      ensures !completed ==> users == old(users) && assets == old(assets)
    {
      if !Matches(assets, owner, a, C.Processing) {
        return false;
      }
      var saved := assets;
      assets := assets[a := assets[a].(status := C.Ready, updatedAt := now)];
      if owner !in users || !users[owner].active {
        assets := saved;
        return false;
      }
      users := users[owner := users[owner].(avatarAssetId := Some(a), avatarUrl := assets[a].publicUrl)];
      return true;
    }

    method RemoveCurrentAvatar(owner: UserId) returns (found: bool)
      modifies `users
      ensures found <==> owner in old(users) && old(users)[owner].active
      ensures users == if found then RemoveCurrent(old(users), owner) else old(users)
      ensures users.Keys == old(users).Keys && forall u :: u in users && (u != owner || !found) ==> users[u] == old(users)[u]
      ensures found ==> users[owner] == User(true, None, None)
    {
      found := owner in users && users[owner].active;
      if found {
        users := users[owner := users[owner].(avatarAssetId := None, avatarUrl := None)];
      }
    }

    method ClearIncomingObjectKey(a: AssetId, key: Key, now: int)
      modifies `assets
      ensures assets == ClearIncomingKey(old(assets), a, key, now)
      ensures assets ==
        if a in old(assets) && old(assets)[a].incomingKey == Some(key)
        then old(assets)[a := old(assets)[a].(incomingKey := None, updatedAt := now)] else old(assets)
    {
      if a in assets && assets[a].incomingKey == Some(key) {
        assets := assets[a := assets[a].(incomingKey := None, updatedAt := now)];
      }
    }

    method DeleteUnreferencedAsset(a: AssetId) returns (deleted: bool)
      modifies `assets
      ensures assets == DeleteUnreferenced(users, old(assets), a)
      ensures deleted <==> a in old(assets) && forall u :: u in users ==> users[u].avatarAssetId != Some(a)
      ensures deleted <==> a in old(assets) && a !in assets
      ensures forall b :: b != a ==> (b in assets <==> b in old(assets)) && (b in assets ==> assets[b] == old(assets)[b])
    {
      deleted := a in assets && !IsCurrent(users, a);
      if deleted {
        assets := assets - {a};
      }
      assert a !in old(assets) ==> old(assets) - {a} == old(assets);
    }
  }

  /** Cleanup `k` has noted its candidate and not begun. */
  ghost predicate IsListed(cleanups: map<CleanupId, Cleanup>, k: CleanupId, candidate: Cleanup) {
    k in cleanups && cleanups[k] == candidate && candidate.phase == FirstPhase(candidate.row, candidate.isCurrent)
  }

  /** The candidate is asset `a` as it was in world `w`. */
  ghost predicate Notes(w: World, a: AssetId, candidate: Cleanup) {
    && a in w.assets && candidate.asset == a && candidate.row == w.assets[a]
    && (candidate.isCurrent <==> exists u :: u in w.users && w.users[u].avatarAssetId == Some(a))
  }

  /** The expired PENDING, stale PROCESSING, REJECTED and CANCELLED, unused READY, and READY assets with an incoming object,
      by time of change and id. */
  ghost predicate IsListing(w: World, now: int, staleBefore: int, list: seq<AssetId>) {
    && (forall a :: a in list <==> a in w.assets && MustGo(w, a, now, staleBefore))
    && (forall i, j :: 0 <= i < j < |list| ==> Earlier(w.assets, list[i], list[j]))
  }

  /** The answer of the listing query: the first `take` of them. */
  ghost predicate IsBatch(w: World, now: int, staleBefore: int, take: nat, batch: seq<AssetId>) {
    exists list :: IsListing(w, now, staleBefore, list) && batch == if |list| <= take then list else list[..take]
  }

  ghost predicate Earlier(assets: Assets, a: AssetId, b: AssetId) {
    a in assets && b in assets &&
    (assets[a].updatedAt < assets[b].updatedAt || (assets[a].updatedAt == assets[b].updatedAt && a < b))
  }

  ghost predicate MustGo(w: World, a: AssetId, now: int, staleBefore: int)
    requires a in w.assets
  {
    var row := w.assets[a];
    match row.status
    case Pending => row.uploadExpiresAt <= now && row.updatedAt <= staleBefore
    case Processing | Rejected | Cancelled => row.updatedAt <= staleBefore
    case Ready => row.incomingKey.Some? || forall u :: u in w.users ==> w.users[u].avatarAssetId != Some(a)
  }

  /** The candidates of the machine are these. */
  lemma CandidatesMustGo(w: World, a: AssetId, now: int, staleBefore: int)
    requires a in w.assets
    ensures IsCandidate(w.users, a, w.assets[a], now, staleBefore) <==> MustGo(w, a, now, staleBefore)
  {
  }

  /** Listing a candidate notes it as it is then, and changes nothing else. */
  lemma PickingNotes(w: World, k: CleanupId, a: AssetId, now: int, staleBefore: int)
    ensures var t := Step(w, Picking(k, a, now, staleBefore));
      if k !in w.cleanups && a in w.assets && staleBefore < now && MustGo(w, a, now, staleBefore)
      then k in t.cleanups && t == w.(cleanups := w.cleanups[k := t.cleanups[k]]) && Notes(w, a, t.cleanups[k])
      else t == w
  {
  }

  lemma BatchIsListed(w: World, now: int, staleBefore: int, take: nat, batch: seq<AssetId>)
    requires IsBatch(w, now, staleBefore, take, batch)
    ensures |batch| <= take && forall a :: a in batch ==> a in w.assets && IsCandidate(w.users, a, w.assets[a], now, staleBefore)
    ensures forall i, j :: 0 <= i < j < |batch| ==> batch[i] != batch[j]
  {
    var list :| IsListing(w, now, staleBefore, list) && batch == if |list| <= take then list else list[..take];
    forall a | a in batch ensures a in w.assets && IsCandidate(w.users, a, w.assets[a], now, staleBefore) {
      assert a in list;
    }
  }

  /** How many of the first `n` cleanups have deleted their asset, and how many had an incoming object. */
  ghost function Deleted(cleanups: map<CleanupId, Cleanup>, ids: nat -> CleanupId, from: nat, n: nat): nat
  {
    if n == 0 then 0
    else
      var k := ids(from + n - 1);
      Deleted(cleanups, ids, from, n - 1) + if k in cleanups && cleanups[k].phase == Done(true) then 1 else 0
  }

  ghost function Cleared(cleanups: map<CleanupId, Cleanup>, ids: nat -> CleanupId, from: nat, n: nat): nat
  {
    if n == 0 then 0
    else
      var k := ids(from + n - 1);
      Cleared(cleanups, ids, from, n - 1) + if k in cleanups && cleanups[k].row.incomingKey.Some? then 1 else 0
  }

  lemma {:induction false} SameCounts(before: map<CleanupId, Cleanup>, after: map<CleanupId, Cleanup>, ids: nat -> CleanupId, from: nat, n: nat)
    requires forall i :: from <= i < from + n ==> ids(i) in before && ids(i) in after && after[ids(i)] == before[ids(i)]
    ensures Deleted(after, ids, from, n) == Deleted(before, ids, from, n)
    ensures Cleared(after, ids, from, n) == Cleared(before, ids, from, n)
    decreases n
  {
    if n > 0 { SameCounts(before, after, ids, from, n - 1); }
  }

  // ---- What a sweep does, step by step ------------------------------------------------------

  type Outside = (nat, World) -> World

  /** The listing notes its candidates, all in one await. */
  function Picks(ids: nat -> CleanupId, from: nat, batch: seq<AssetId>, now: int, staleBefore: int): seq<Event> {
    seq(|batch|, j requires 0 <= j < |batch| => Picking(ids(from + j), batch[j], now, staleBefore))
  }

  function SweepsIncoming(row: Asset, k: CleanupId, now: int): seq<seq<Event>> {
    if row.incomingKey.Some? then [[Sweeping(k, now)], [Sweeping(k, now)]] else []
  }

  function SweepsReady(row: Asset, k: CleanupId, now: int): seq<seq<Event>> {
    (if row.readyKey.Some? then [[Sweeping(k, now)]] else []) + [[Sweeping(k, now)]]
  }

  /** The awaits of one candidate: two for an incoming object and its key, one for the ready object, one for the row. */
  function Sweeps(c: Cleanup, k: CleanupId, now: int): seq<seq<Event>> {
    SweepsIncoming(c.row, k, now) + if c.isCurrent then [] else SweepsReady(c.row, k, now)
  }

  function AllSweeps(candidates: seq<Cleanup>, ids: nat -> CleanupId, from: nat, n: nat, now: int): seq<seq<Event>>
    requires n <= |candidates|
  {
    if n == 0 then [] else AllSweeps(candidates, ids, from, n - 1, now) + Sweeps(candidates[n - 1], ids(from + n - 1), now)
  }

  /** On the way from `w` to `t` there was a moment without that object. */
  ghost predicate WasGone(w: World, t: World, key: Option<Key>) {
    key.Some? ==> exists v :: R.Leads(Stepper(), w, v) && R.Leads(Stepper(), v, t) && key.value !in v.objects
  }

  lemma StillGone(w: World, v: World, t: World, u: World, key: Option<Key>)
    requires R.Leads(Stepper(), w, v) && WasGone(v, t, key) && R.Leads(Stepper(), t, u)
    ensures WasGone(w, u, key)
  {
    hide R.Leads;
    if key.Some? {
      var x :| R.Leads(Stepper(), v, x) && R.Leads(Stepper(), x, t) && key.value !in x.objects;
      R.LeadsOn(Stepper(), w, v, x);
      R.LeadsOn(Stepper(), x, t, u);
    }
  }

  /** Nobody else does anything. */
  ghost predicate Quiet(outside: Outside) {
    forall k, w :: outside(k, w) == w
  }

  /** Without interference a candidate's incoming object goes, and unless it was current also its public object and its row. */
  ghost predicate Swept(w: World, t: World, c: Cleanup) {
    && t.users == w.users
    && t.objects == w.objects - (if c.row.incomingKey.Some? then {c.row.incomingKey.value} else {})
         - (if !c.isCurrent && c.row.readyKey.Some? then {c.row.readyKey.value} else {})
    && t.assets.Keys == w.assets.Keys - (if c.isCurrent || IsCurrent(w.users, c.asset) then {} else {c.asset})
    && (forall b :: b in t.assets && b != c.asset ==> t.assets[b] == w.assets[b])
    && (c.asset in t.assets ==> t.assets[c.asset].status == w.assets[c.asset].status && KeyIsCleared(t, c))
  }

  /** The candidate's row has its incoming key no more. */
  ghost predicate KeyIsCleared(t: World, c: Cleanup)
    requires c.asset in t.assets
  {
    c.row.incomingKey.Some? ==> t.assets[c.asset].incomingKey != c.row.incomingKey
  }

  class AvatarCleanupService {
    const repository: AvatarRepository
    /** What the others have made of the world by the time await number k is answered. */
    const outside: Outside
    /** What the listing query returns for an instant and a staleness bound. */
    const listing: (World, int, int) -> seq<AssetId>
    const batchSize: nat
    /** The names of this service's own cleanups. */
    const ids: nat -> CleanupId

    var objects: set<Key>
    var runs: map<RunId, Run>
    var cleanups: map<CleanupId, Cleanup>
    var issued: set<AssetId>
    var named: nat
    var awaits: nat

    function View(): World reads this, repository {
      World(repository.users, repository.assets, objects, runs, cleanups, issued)
    }

    constructor (repository: AvatarRepository, outside: Outside, listing: (World, int, int) -> seq<AssetId>, batchSize: nat,
                 ids: nat -> CleanupId)
      requires repository.users == map[] && repository.assets == map[]
      ensures View() == START && this.repository == repository && this.outside == outside && this.listing == listing
      ensures this.batchSize == batchSize && this.ids == ids
    {
      this.repository, this.outside, this.listing, this.batchSize, this.ids := repository, outside, listing, batchSize, ids;
      objects, runs, cleanups, issued, named, awaits := {}, map[], map[], {}, 0, 0;
    }

    /** The others take steps, but leave this service's cleanups alone; the listing answers its query. */
    ghost predicate Fair() {
      && (forall i: nat, j: nat :: ids(i) == ids(j) ==> i == j)
      && (forall k: nat, w: World :: R.Leads(Stepper(), w, outside(k, w)))
      && (forall k: nat, w: World, i: nat :: ids(i) in w.cleanups <==> ids(i) in outside(k, w).cleanups)
      && (forall k: nat, w: World, i: nat :: ids(i) in w.cleanups ==> outside(k, w).cleanups[ids(i)] == w.cleanups[ids(i)])
      && (forall w, now, staleBefore :: IsBatch(w, now, staleBefore, batchSize, listing(w, now, staleBefore)))
    }

    ghost predicate Unused() reads this {
      forall i :: i >= named ==> ids(i) !in cleanups
    }

    /** This service's cleanups other than number `i` are as they were. */
    twostate predicate OthersKept(i: nat) reads this {
      forall j :: j != i ==> (ids(j) in cleanups <==> ids(j) in old(cleanups)) && (ids(j) in cleanups ==> cleanups[ids(j)] == old(cleanups)[ids(j)])
    }

    method Await()
      requires Fair()
      modifies this, repository
      ensures View() == outside(old(awaits), old(View())) && awaits == old(awaits) + 1 && named == old(named)
      ensures R.Leads(Stepper(), old(View()), View())
      ensures forall i :: (ids(i) in cleanups <==> ids(i) in old(cleanups)) && (ids(i) in cleanups ==> cleanups[ids(i)] == old(cleanups)[ids(i)])
    {
      hide R.Leads, IsBatch;
      var w := outside(awaits, View());
      repository.users, repository.assets := w.users, w.assets;
      objects, runs, cleanups, issued, awaits := w.objects, w.runs, w.cleanups, w.issued, awaits + 1;
    }

    /** Waits for cleanup number `i` to get its next answer and takes that step. */
    method DeleteObject(i: nat, now: int)
      requires Fair() && ids(i) in cleanups && (cleanups[ids(i)].phase.DeletingIncoming? || cleanups[ids(i)].phase.DeletingReady?)
      requires var c := cleanups[ids(i)]; if c.phase.DeletingIncoming? then c.row.incomingKey.Some? else c.row.readyKey.Some?
      modifies this, repository
      ensures R.Plays(Stepper(), outside, old(View()), old(awaits), [[Sweeping(ids(i), now)]], View(), awaits)
      ensures named == old(named) && OthersKept(i) && ids(i) in cleanups
      ensures var c := old(cleanups)[ids(i)];
        && cleanups[ids(i)] == c.(phase := if c.phase.DeletingIncoming? then ClearingKey else DeletingAsset)
        && (if c.phase.DeletingIncoming? then c.row.incomingKey.value else c.row.readyKey.value) !in objects
      ensures var seen, c := outside(old(awaits), old(View())), old(cleanups)[ids(i)];
        && repository.users == seen.users && repository.assets == seen.assets
        && objects == seen.objects - {if c.phase.DeletingIncoming? then c.row.incomingKey.value else c.row.readyKey.value}
    {
      hide R.Leads, IsBatch, R.Plays;
      R.OneAwait(Stepper(), outside, View(), awaits, Sweeping(ids(i), now));
      Await();
      var k := ids(i);
      var c := cleanups[k];
      if c.phase.DeletingIncoming? {
        objects := objects - {c.row.incomingKey.value};
        cleanups := cleanups[k := c.(phase := ClearingKey)];
      } else {
        objects := objects - {c.row.readyKey.value};
        cleanups := cleanups[k := c.(phase := DeletingAsset)];
      }
    }

    method ClearKey(i: nat, now: int)
      requires Fair() && ids(i) in cleanups && cleanups[ids(i)].phase.ClearingKey? && cleanups[ids(i)].row.incomingKey.Some?
      modifies this, repository
      ensures R.Plays(Stepper(), outside, old(View()), old(awaits), [[Sweeping(ids(i), now)]], View(), awaits)
      ensures named == old(named) && OthersKept(i) && ids(i) in cleanups
      ensures var c := old(cleanups)[ids(i)]; cleanups[ids(i)] == c.(phase := AfterIncoming(c.row, c.isCurrent))
      ensures var seen, c := outside(old(awaits), old(View())), old(cleanups)[ids(i)];
        && repository.users == seen.users && objects == seen.objects
        && repository.assets ==
             if c.asset in seen.assets && seen.assets[c.asset].incomingKey == c.row.incomingKey
             then seen.assets[c.asset := seen.assets[c.asset].(incomingKey := None, updatedAt := now)] else seen.assets
    {
      hide R.Leads, IsBatch, R.Plays;
      R.OneAwait(Stepper(), outside, View(), awaits, Sweeping(ids(i), now));
      Await();
      var k := ids(i);
      var c := cleanups[k];
      repository.ClearIncomingObjectKey(c.asset, c.row.incomingKey.value, now);
      cleanups := cleanups[k := c.(phase := AfterIncoming(c.row, c.isCurrent))];
    }

    method DeleteAsset(i: nat, now: int) returns (deleted: bool)
      requires Fair() && ids(i) in cleanups && cleanups[ids(i)].phase.DeletingAsset?
      modifies this, repository
      ensures R.Plays(Stepper(), outside, old(View()), old(awaits), [[Sweeping(ids(i), now)]], View(), awaits)
      ensures named == old(named) && OthersKept(i) && ids(i) in cleanups
      ensures cleanups[ids(i)] == old(cleanups)[ids(i)].(phase := Done(deleted))
      ensures var seen, a := outside(old(awaits), old(View())), old(cleanups)[ids(i)].asset;
        && repository.users == seen.users && objects == seen.objects
        && (deleted <==> a in seen.assets && forall u :: u in seen.users ==> seen.users[u].avatarAssetId != Some(a))
        && repository.assets == if deleted then seen.assets - {a} else seen.assets
    {
      hide R.Leads, IsCurrent, IsBatch, R.Plays;
      R.OneAwait(Stepper(), outside, View(), awaits, Sweeping(ids(i), now));
      Await();
      var k := ids(i);
      deleted := repository.DeleteUnreferencedAsset(cleanups[k].asset);
      cleanups := cleanups[k := cleanups[k].(phase := Done(deleted))];
    }

    /** The incoming object, then its key. */
    method DeleteIncoming(i: nat, candidate: Cleanup, now: int)
      requires Fair() && IsListed(cleanups, ids(i), candidate) && candidate.row.incomingKey.Some?
      modifies this, repository
      ensures R.Plays(Stepper(), outside, old(View()), old(awaits), [[Sweeping(ids(i), now)], [Sweeping(ids(i), now)]], View(), awaits)
      ensures named == old(named) && OthersKept(i) && ids(i) in cleanups
      ensures cleanups[ids(i)] == candidate.(phase := AfterIncoming(candidate.row, candidate.isCurrent))
      ensures WasGone(old(View()), View(), candidate.row.incomingKey)
      ensures Quiet(outside) ==>
        && repository.users == old(repository.users) && repository.assets.Keys == old(repository.assets.Keys)
        && (forall b :: b in repository.assets && b != candidate.asset ==> repository.assets[b] == old(repository.assets)[b])
        && (candidate.asset in repository.assets ==>
             && repository.assets[candidate.asset].status == old(repository.assets)[candidate.asset].status
             && KeyIsCleared(View(), candidate))
        && objects == old(objects) - {candidate.row.incomingKey.value}
    {
      hide R.Leads, R.Plays, IsBatch, IsCurrent;
      ghost var start, from, step := View(), awaits, [[Sweeping(ids(i), now)]];
      DeleteObject(i, now);
      ghost var v, k := View(), awaits;
      ClearKey(i, now);
      R.PlaysOn(Stepper(), outside, start, from, step, v, k, step, View(), awaits);
      assert step + step == [[Sweeping(ids(i), now)], [Sweeping(ids(i), now)]];
      R.PlaysLeads(Stepper(), outside, start, from, step, v, k);
      R.PlaysLeads(Stepper(), outside, v, k, step, View(), awaits);
      assert candidate.row.incomingKey.value !in v.objects;
    }

    /** The public object, if there is one, then the row. */
    method DeleteReady(i: nat, candidate: Cleanup, now: int) returns (deleted: bool)
      requires Fair() && ids(i) in cleanups && !candidate.isCurrent
      requires cleanups[ids(i)] == candidate.(phase := AfterIncoming(candidate.row, false))
      modifies this, repository
      ensures R.Plays(Stepper(), outside, old(View()), old(awaits), SweepsReady(candidate.row, ids(i), now), View(), awaits)
      ensures named == old(named) && OthersKept(i) && ids(i) in cleanups && cleanups[ids(i)] == candidate.(phase := Done(deleted))
      ensures WasGone(old(View()), View(), candidate.row.readyKey)
      ensures Quiet(outside) ==>
        && repository.users == old(repository.users)
        && objects == old(objects) - (if candidate.row.readyKey.Some? then {candidate.row.readyKey.value} else {})
        && repository.assets == old(repository.assets) - (if IsCurrent(repository.users, candidate.asset) then {} else {candidate.asset})
        && deleted == (candidate.asset in old(repository.assets) && !IsCurrent(repository.users, candidate.asset))
    {
      hide R.Leads, R.Plays, IsBatch;
      ghost var start, from, step := View(), awaits, [[Sweeping(ids(i), now)]];
      if candidate.row.readyKey.None? {
        deleted := DeleteAsset(i, now);
        assert [] + step == step;
        assert deleted || repository.assets == repository.assets - {candidate.asset} || IsCurrent(repository.users, candidate.asset);
        return;
      }
      DeleteObject(i, now);
      ghost var v, k := View(), awaits;
      deleted := DeleteAsset(i, now);
      R.PlaysOn(Stepper(), outside, start, from, step, v, k, step, View(), awaits);
      R.PlaysLeads(Stepper(), outside, start, from, step, v, k);
      R.PlaysLeads(Stepper(), outside, v, k, step, View(), awaits);
      assert deleted || repository.assets == repository.assets - {candidate.asset} || IsCurrent(repository.users, candidate.asset);
      assert candidate.row.readyKey.value !in v.objects;
    }

    /** One candidate from listing to deletion: its incoming object and key and, unless it was current, its public object and
        its row, in this order and nothing else. */
    method CleanupCandidate(i: nat, candidate: Cleanup, now: int) returns (deletedAssets: nat, clearedIncomingObjects: nat)
      requires Fair() && IsListed(cleanups, ids(i), candidate)
      modifies this, repository
      ensures R.Plays(Stepper(), outside, old(View()), old(awaits), Sweeps(candidate, ids(i), now), View(), awaits)
      ensures named == old(named) && OthersKept(i) && ids(i) in cleanups
      ensures cleanups[ids(i)] == candidate.(phase := Done(deletedAssets == 1)) && deletedAssets <= 1
      ensures clearedIncomingObjects == if candidate.row.incomingKey.Some? then 1 else 0
      ensures R.Leads(Stepper(), old(View()), View()) && WasGone(old(View()), View(), candidate.row.incomingKey)
      ensures !candidate.isCurrent ==> WasGone(old(View()), View(), candidate.row.readyKey)
      ensures Quiet(outside) ==> Swept(old(View()), View(), candidate)
      ensures Quiet(outside) ==> (deletedAssets == 1 <==>
        !candidate.isCurrent && candidate.asset in old(repository.assets) && !IsCurrent(old(repository.users), candidate.asset))
    {
      hide R.Leads, R.Plays, IsBatch, IsCurrent, WasGone;
      ghost var start, from := View(), awaits;
      clearedIncomingObjects := 0;
      R.NothingPlayed(Stepper(), outside, start, from);
      NoneGone(start, start, candidate.row.incomingKey);
      if candidate.row.incomingKey.Some? {
        DeleteIncoming(i, candidate, now);
        clearedIncomingObjects := 1;
      }
      ghost var middle, k := View(), awaits;
      R.PlaysLeads(Stepper(), outside, start, from, SweepsIncoming(candidate.row, ids(i), now), middle, k);
      if candidate.isCurrent {
        assert SweepsIncoming(candidate.row, ids(i), now) + [] == SweepsIncoming(candidate.row, ids(i), now);
        return 0, clearedIncomingObjects;
      }
      var deleted := DeleteReady(i, candidate, now);
      ghost var incoming, ready := SweepsIncoming(candidate.row, ids(i), now), SweepsReady(candidate.row, ids(i), now);
      R.PlaysOn(Stepper(), outside, start, from, incoming, middle, k, ready, View(), awaits);
      R.PlaysLeads(Stepper(), outside, middle, k, SweepsReady(candidate.row, ids(i), now), View(), awaits);
      GoneThroughout(start, middle, View(), candidate.row.incomingKey, candidate.row.readyKey);
      return if deleted then 1 else 0, clearedIncomingObjects;
    }

    /** Notes the candidates of an answer, in its order. */
    method Note(batch: seq<AssetId>, now: int, staleBefore: int) returns (candidates: seq<Cleanup>)
      requires Fair() && Unused() && staleBefore < now
      requires forall a :: a in batch ==> a in repository.assets && IsCandidate(repository.users, a, repository.assets[a], now, staleBefore)
      modifies this
      ensures View() == R.Resume(Stepper(), old(View()), Picks(ids, old(named), batch, now, staleBefore))
      ensures View() == old(View()).(cleanups := cleanups) && awaits == old(awaits) && Unused() && named == old(named) + |candidates|
      ensures |candidates| == |batch| && forall j :: 0 <= j < |batch| ==>
        Notes(old(View()), batch[j], candidates[j]) && IsListed(cleanups, ids(old(named) + j), candidates[j])
    {
      hide IsCandidate, IsBatch, FirstPhase, Step, R.Resume, R.Leads, Notes, IsCurrent;
      ghost var seen := View();
      var from := named;
      ghost var picks := Picks(ids, from, batch, now, staleBefore);
      candidates := [];
      NothingPicked(seen, picks);
      for j := 0 to |batch|
        invariant View() == R.Resume(Stepper(), seen, picks[..j]) && Unused() && named == from + j && awaits == old(awaits)
        invariant View() == seen.(cleanups := cleanups) && |candidates| == j
        invariant forall i :: 0 <= i < j ==> Notes(seen, batch[i], candidates[i]) && IsListed(cleanups, ids(from + i), candidates[i])
      {
        var c, a := ids(named), batch[j];
        assert a in batch;
        OneMorePick(seen, picks, j);
        PickStep(View(), c, a, now, staleBefore);
        var row, isCurrent := repository.assets[a], IsCurrent(repository.users, a);
        var candidate := Cleanup(a, row, isCurrent, FirstPhase(row, isCurrent));
        SameNote(View(), seen, a, candidate);
        cleanups := cleanups[c := candidate];
        candidates := candidates + [candidate];
        named := named + 1;
      }
      assert picks[..|batch|] == picks;
    }

    /** The listing, at one instant: every candidate of the answer is noted as it is then, in the order of the answer. */
    method ListCleanupCandidates(now: int, staleBefore: int) returns (candidates: seq<Cleanup>)
      requires Fair() && Unused() && staleBefore < now
      modifies this, repository
      ensures var seen := outside(old(awaits), old(View())); var batch := listing(seen, now, staleBefore);
        && |candidates| == |batch| && (forall j :: 0 <= j < |batch| ==> Notes(seen, batch[j], candidates[j]))
        && R.Plays(Stepper(), outside, old(View()), old(awaits), [Picks(ids, old(named), batch, now, staleBefore)], View(), awaits)
        && View() == seen.(cleanups := cleanups)
      ensures Unused() && named == old(named) + |candidates|
      ensures forall j :: 0 <= j < |candidates| ==> IsListed(cleanups, ids(old(named) + j), candidates[j])
    {
      hide R.Leads, IsCandidate, R.Played, R.Resume, IsBatch, MustGo, Notes, IsListed, Picks;
      ghost var start, k := View(), awaits;
      Await();
      var batch := listing(View(), now, staleBefore);
      assert IsBatch(View(), now, staleBefore, batchSize, batch);
      BatchIsListed(View(), now, staleBefore, batchSize, batch);
      R.OneAwaitSteps(Stepper(), outside, start, k, Picks(ids, named, batch, now, staleBefore));
      candidates := Note(batch, now, staleBefore);
    }

    /** The candidates one after the other. */
    method CleanupCandidates(from: nat, candidates: seq<Cleanup>, now: int) returns (deletedAssets: nat, clearedIncomingObjects: nat)
      requires Fair() && Unused() && named == from + |candidates|
      requires forall i :: 0 <= i < |candidates| ==> IsListed(cleanups, ids(from + i), candidates[i])
      requires forall c :: c in candidates ==> c.isCurrent == IsCurrent(repository.users, c.asset)
      modifies this, repository
      ensures R.Plays(Stepper(), outside, old(View()), old(awaits), AllSweeps(candidates, ids, from, |candidates|, now), View(), awaits)
      ensures Unused() && named == old(named)
      ensures deletedAssets == Deleted(cleanups, ids, from, |candidates|)
      ensures clearedIncomingObjects == Cleared(cleanups, ids, from, |candidates|)
      ensures forall i :: 0 <= i < |candidates| ==>
        IsFinished(candidates[i], cleanups, ids(from + i)) && LostObjects(old(View()), View(), candidates[i])
      ensures Quiet(outside) ==> forall i :: 0 <= i < |candidates| ==> IsRemoved(View(), candidates[i])
    {
      hide R.Leads, Deleted, Cleared, FirstPhase, R.Plays, IsBatch, Sweeps, LostObjects, WasGone;
      hide Step, IsCurrent, IsFinished, IsRemoved, Fewer, Swept;
      ghost var start, k := View(), awaits;
      deletedAssets, clearedIncomingObjects := 0, 0;
      NoneYet(cleanups, ids, from);
      R.NothingPlayed(Stepper(), outside, start, k);
      NothingRemoved(start);
      R.Here(Stepper(), start);
      for j := 0 to |candidates|
        invariant R.Plays(Stepper(), outside, start, k, AllSweeps(candidates, ids, from, j, now), View(), awaits)
        invariant R.Leads(Stepper(), start, View()) && Unused() && named == from + |candidates|
        invariant forall i :: j <= i < |candidates| ==> IsListed(cleanups, ids(from + i), candidates[i])
        invariant forall i :: 0 <= i < j ==> IsFinished(candidates[i], cleanups, ids(from + i)) && LostObjects(start, View(), candidates[i])
        invariant deletedAssets == Deleted(cleanups, ids, from, j)
        invariant clearedIncomingObjects == Cleared(cleanups, ids, from, j)
        invariant Quiet(outside) ==> Fewer(start, View()) && forall i :: 0 <= i < j ==> IsRemoved(View(), candidates[i])
      {
        label L:
        ghost var before, b := View(), awaits;
        var deleted, cleared := CleanupCandidate(from + j, candidates[j], now);
        ghost var sweeps := Sweeps(candidates[j], ids(from + j), now);
        R.PlaysOn(Stepper(), outside, start, k, AllSweeps(candidates, ids, from, j, now), before, b, sweeps, View(), awaits);
        assert LostObjects(before, View(), candidates[j]) by { NowLost(before, View(), candidates[j]); }
        StillLost(start, before, View(), candidates, j);
        R.LeadsOn(Stepper(), start, before, View());
        OneMoreFinished(old@L(cleanups), cleanups, ids, from, candidates, j);
        SameCounts(old@L(cleanups), cleanups, ids, from, j);
        OneMoreCounted(cleanups, ids, from, j);
        if Quiet(outside) { SweptRemoved(start, before, View(), candidates, j); }
        deletedAssets, clearedIncomingObjects := deletedAssets + deleted, clearedIncomingObjects + cleared;
      }
    }

    /** One sweep over the listing. Its answer, taken at one instant, is inspected whole; each candidate loses its incoming
        object and, unless it was current, its public object and its row, and nothing else is done. The counters tell how many
        candidates were inspected, lost their row, and had an incoming object. */
    method RunOnce(now: int, staleBefore: int) returns (candidates: seq<Cleanup>, deletedAssets: nat, clearedIncomingObjects: nat)
      requires Fair() && Unused() && Avatars.Valid(View()) && staleBefore < now
      modifies this, repository
      ensures var seen := outside(old(awaits), old(View())); var batch := listing(seen, now, staleBefore);
        && |candidates| == |batch| && (forall j :: 0 <= j < |batch| ==> Notes(seen, batch[j], candidates[j]))
        && R.Plays(Stepper(), outside, old(View()), old(awaits),
                 [Picks(ids, old(named), batch, now, staleBefore)] + AllSweeps(candidates, ids, old(named), |candidates|, now), View(), awaits)
      ensures R.Leads(Stepper(), old(View()), View()) && Avatars.Valid(View()) && Unused() && named == old(named) + |candidates|
      ensures deletedAssets == Deleted(cleanups, ids, old(named), |candidates|)
      ensures clearedIncomingObjects == Cleared(cleanups, ids, old(named), |candidates|)
      ensures forall j :: 0 <= j < |candidates| ==>
        IsFinished(candidates[j], cleanups, ids(old(named) + j)) && LostObjects(old(View()), View(), candidates[j])
      ensures Quiet(outside) ==> forall j :: 0 <= j < |candidates| ==> IsRemoved(View(), candidates[j])
    {
      hide R.Leads, Avatars.Valid, Deleted, Cleared, Step, R.Plays, IsBatch, AllSweeps, Picks, LostObjects, IsListed, IsFinished, Notes, IsRemoved;
      var from := named;
      ghost var start, k := View(), awaits;
      candidates := ListCleanupCandidates(now, staleBefore);
      ghost var listed, at := View(), awaits;
      ghost var picks := [Picks(ids, from, listing(outside(k, start), now, staleBefore), now, staleBefore)];
      forall c | c in candidates ensures c.isCurrent == IsCurrent(repository.users, c.asset) {
        var j :| 0 <= j < |candidates| && candidates[j] == c;
        NotedCurrent(repository.users, outside(k, start), listing(outside(k, start), now, staleBefore)[j], c);
      }
      deletedAssets, clearedIncomingObjects := CleanupCandidates(from, candidates, now);
      ghost var sweeps := AllSweeps(candidates, ids, from, |candidates|, now);
      R.PlaysOn(Stepper(), outside, start, k, picks, listed, at, sweeps, View(), awaits);
      R.PlaysLeads(Stepper(), outside, start, k, picks, listed, at);
      R.PlaysLeads(Stepper(), outside, start, k, picks + sweeps, View(), awaits);
      LostSince(start, listed, View(), candidates);
      LeadsToValid(start, View());
    }
  }

  lemma NotedCurrent(users: Users, w: World, a: AssetId, candidate: Cleanup)
    requires Notes(w, a, candidate) && users == w.users
    ensures candidate.isCurrent == IsCurrent(users, candidate.asset)
  {
  }

  ghost predicate Fewer(w: World, t: World) {
    t.users == w.users && t.assets.Keys <= w.assets.Keys && t.objects <= w.objects
  }

  lemma NowLost(w: World, t: World, c: Cleanup)
    requires WasGone(w, t, c.row.incomingKey) && (!c.isCurrent ==> WasGone(w, t, c.row.readyKey))
    ensures LostObjects(w, t, c)
  {
    hide WasGone;
  }

  /** The candidate is done with, and nothing else of its note has changed. */
  ghost predicate IsFinished(candidate: Cleanup, cleanups: map<CleanupId, Cleanup>, k: CleanupId) {
    k in cleanups && cleanups[k].phase.Done? && cleanups[k] == candidate.(phase := cleanups[k].phase)
  }

  ghost predicate LostObjects(w: World, t: World, candidate: Cleanup) {
    WasGone(w, t, candidate.row.incomingKey) && (!candidate.isCurrent ==> WasGone(w, t, candidate.row.readyKey))
  }

  ghost predicate IsRemoved(t: World, candidate: Cleanup) {
    !candidate.isCurrent ==> candidate.asset !in t.assets && (candidate.row.readyKey.Some? ==> candidate.row.readyKey.value !in t.objects)
  }

  lemma NoneGone(w: World, t: World, key: Option<Key>)
    ensures key.None? ==> WasGone(w, t, key)
  {
  }

  lemma GoneThroughout(w: World, v: World, t: World, first: Option<Key>, second: Option<Key>)
    requires R.Leads(Stepper(), w, v) && R.Leads(Stepper(), v, t) && WasGone(w, v, first) && WasGone(v, t, second)
    ensures R.Leads(Stepper(), w, t) && WasGone(w, t, first) && WasGone(w, t, second)
  {
    hide R.Leads, WasGone;
    R.Here(Stepper(), w);
    R.Here(Stepper(), t);
    StillGone(w, w, v, t, first);
    StillGone(w, v, t, t, second);
    R.LeadsOn(Stepper(), w, v, t);
  }

  /** What was gone before number `j` was gone later, and so were the objects of number `j`. */
  lemma StillLost(w: World, v: World, t: World, candidates: seq<Cleanup>, j: nat)
    requires j < |candidates| && R.Leads(Stepper(), w, v) && R.Leads(Stepper(), v, t)
    requires forall i :: 0 <= i < j ==> LostObjects(w, v, candidates[i])
    requires LostObjects(v, t, candidates[j])
    ensures forall i :: 0 <= i <= j ==> LostObjects(w, t, candidates[i])
  {
    hide R.Leads, WasGone;
    R.Here(Stepper(), w);
    R.Here(Stepper(), t);
    forall i | 0 <= i <= j ensures LostObjects(w, t, candidates[i]) {
      var first, second := candidates[i].row.incomingKey, candidates[i].row.readyKey;
      if i < j {
        StillGone(w, w, v, t, first);
        if !candidates[i].isCurrent { StillGone(w, w, v, t, second); }
      } else {
        StillGone(w, v, t, t, first);
        if !candidates[i].isCurrent { StillGone(w, v, t, t, second); }
      }
    }
  }

  /** Cleanup number `j` is finished and no other one has changed. */
  lemma OneMoreFinished(before: map<CleanupId, Cleanup>, after: map<CleanupId, Cleanup>, ids: nat -> CleanupId, from: nat,
                        candidates: seq<Cleanup>, j: nat)
    requires j < |candidates|
    requires forall i: nat :: i != from + j ==> (ids(i) in after <==> ids(i) in before) && (ids(i) in after ==> after[ids(i)] == before[ids(i)])
    requires ids(from + j) in after && after[ids(from + j)].phase.Done?
    requires after[ids(from + j)] == candidates[j].(phase := after[ids(from + j)].phase)
    requires forall i :: 0 <= i < j ==> IsFinished(candidates[i], before, ids(from + i))
    ensures forall i :: 0 <= i <= j ==> IsFinished(candidates[i], after, ids(from + i))
    ensures forall i :: from <= i < from + j ==> ids(i) in before && ids(i) in after && after[ids(i)] == before[ids(i)]
  {
    forall i | from <= i < from + j ensures ids(i) in before { assert IsFinished(candidates[i - from], before, ids(from + (i - from))); }
  }

  lemma NothingRemoved(w: World)
    ensures Fewer(w, w)
  {
  }

  /** Without interference what is removed stays removed. */
  lemma SweptRemoved(w: World, v: World, t: World, candidates: seq<Cleanup>, j: nat)
    requires j < |candidates| && Swept(v, t, candidates[j]) && Fewer(w, v) && forall i :: 0 <= i < j ==> IsRemoved(v, candidates[i])
    requires candidates[j].isCurrent == IsCurrent(w.users, candidates[j].asset)
    ensures Fewer(w, t) && forall i :: 0 <= i <= j ==> IsRemoved(t, candidates[i])
  {
  }

  lemma LostSince(w: World, v: World, t: World, candidates: seq<Cleanup>)
    requires R.Leads(Stepper(), w, v) && forall c :: c in candidates ==> LostObjects(v, t, c)
    ensures forall c :: c in candidates ==> LostObjects(w, t, c)
  {
    hide R.Leads, WasGone;
    R.Here(Stepper(), t);
    forall c | c in candidates ensures LostObjects(w, t, c) {
      StillGone(w, v, t, t, c.row.incomingKey);
      if !c.isCurrent { StillGone(w, v, t, t, c.row.readyKey); }
    }
  }

  lemma PickStep(w: World, k: CleanupId, a: AssetId, now: int, staleBefore: int)
    requires k !in w.cleanups && a in w.assets && staleBefore < now && IsCandidate(w.users, a, w.assets[a], now, staleBefore)
    ensures Step(w, Picking(k, a, now, staleBefore)) ==
      var row, isCurrent := w.assets[a], IsCurrent(w.users, a);
      w.(cleanups := w.cleanups[k := Cleanup(a, row, isCurrent, FirstPhase(row, isCurrent))])
    ensures var row, isCurrent := w.assets[a], IsCurrent(w.users, a); Notes(w, a, Cleanup(a, row, isCurrent, FirstPhase(row, isCurrent)))
  {
  }

  lemma SameNote(w: World, seen: World, a: AssetId, candidate: Cleanup)
    requires Notes(w, a, candidate) && seen.users == w.users && seen.assets == w.assets
    ensures Notes(seen, a, candidate)
  {
  }

  lemma OneMorePick(seen: World, picks: seq<Event>, j: nat)
    requires j < |picks|
    ensures R.Resume(Stepper(), seen, picks[..j + 1]) == Step(R.Resume(Stepper(), seen, picks[..j]), picks[j])
  {
    hide Step;
    assert picks[..j + 1][..j] == picks[..j];
  }

  lemma NothingPicked(seen: World, picks: seq<Event>)
    ensures R.Resume(Stepper(), seen, picks[..0]) == seen
  {
  }

  lemma {:induction false} DeletedBounded(cleanups: map<CleanupId, Cleanup>, ids: nat -> CleanupId, from: nat, n: nat)
    ensures Deleted(cleanups, ids, from, n) <= n
    decreases n
  {
    if n > 0 { DeletedBounded(cleanups, ids, from, n - 1); }
  }

  lemma NoneYet(cleanups: map<CleanupId, Cleanup>, ids: nat -> CleanupId, from: nat)
    ensures Deleted(cleanups, ids, from, 0) == 0 && Cleared(cleanups, ids, from, 0) == 0
  {
  }

  lemma OneMoreCounted(cleanups: map<CleanupId, Cleanup>, ids: nat -> CleanupId, from: nat, n: nat)
    requires ids(from + n) in cleanups
    ensures Deleted(cleanups, ids, from, n + 1) == Deleted(cleanups, ids, from, n) + if cleanups[ids(from + n)].phase == Done(true) then 1 else 0
    ensures Cleared(cleanups, ids, from, n + 1) == Cleared(cleanups, ids, from, n) + if cleanups[ids(from + n)].row.incomingKey.Some? then 1 else 0
  {
  }
}
