/** Avatar assets and the users they belong to: the transactions of the avatar repository, the runs of an avatar's
    completeUpload, and the cleanup that works through a listing while everything else goes on. */
module Avatars {
  import opened Prelude
  import C = ChatDb
  import R = Runs

  type UserId = nat
  type AssetId = nat
  type CleanupId = nat
  type RunId = nat
  type Status = C.Status

  datatype Key = Incoming(asset: AssetId) | Public(asset: AssetId)

  datatype Asset = Asset(
    owner: UserId, status: Status, publicUrl: Option<string>, incomingKey: Option<Key>, readyKey: Option<Key>,
    uploadExpiresAt: int, updatedAt: int)

  /** `active` stands for an ACTIVE status without a deletion time. */
  datatype User = User(active: bool, avatarAssetId: Option<AssetId>, avatarUrl: Option<string>)

  type Users = map<UserId, User>
  type Assets = map<AssetId, Asset>

  // ---- The repository ---------------------------------------------------------------------

  predicate IsActive(users: Users, u: UserId) {
    u in users && users[u].active
  }

  /** Somebody's current avatar. */
  predicate IsCurrent(users: Users, a: AssetId) {
    exists u :: u in users && users[u].avatarAssetId == Some(a)
  }

  predicate Matches(assets: Assets, owner: UserId, a: AssetId, status: Status) {
    a in assets && assets[a].owner == owner && assets[a].status == status
  }

  function WithStatus(assets: Assets, a: AssetId, status: Status, now: int): Assets
    requires a in assets
  {
    assets[a := assets[a].(status := status, updatedAt := now)]
  }

  function CancelPending(assets: Assets, owner: UserId, now: int): Assets {
    map a | a in assets ::
      if assets[a].owner == owner && assets[a].status == C.Pending then assets[a].(status := C.Cancelled, updatedAt := now) else assets[a]
  }

  function CreatePending(users: Users, assets: Assets, owner: UserId, a: AssetId, publicUrl: string, uploadExpiresAt: int,
                         now: int): Option<Assets> {
    if !IsActive(users, owner) then None
    else Some(CancelPending(assets, owner, now)[a :=
      Asset(owner, C.Pending, Some(publicUrl), Some(Incoming(a)), Some(Public(a)), uploadExpiresAt, now)])
  }

  function Claim(assets: Assets, owner: UserId, a: AssetId, claimedAt: int, now: int): Assets {
    if Matches(assets, owner, a, C.Pending) && assets[a].uploadExpiresAt > claimedAt then WithStatus(assets, a, C.Processing, now) else assets
  }

  function Release(assets: Assets, owner: UserId, a: AssetId, claimedAt: int, now: int): Assets {
    if Matches(assets, owner, a, C.Processing) && assets[a].uploadExpiresAt > claimedAt then WithStatus(assets, a, C.Pending, now) else assets
  }

  function MarkRejected(assets: Assets, owner: UserId, a: AssetId, now: int): Assets {
    if Matches(assets, owner, a, C.Pending) || Matches(assets, owner, a, C.Processing) then WithStatus(assets, a, C.Rejected, now) else assets
  }

  /** Both rows change, or neither. */
  function Complete(users: Users, assets: Assets, owner: UserId, a: AssetId, now: int): (Users, Assets) {
    if Matches(assets, owner, a, C.Processing) && IsActive(users, owner)
    then (users[owner := users[owner].(avatarAssetId := Some(a), avatarUrl := assets[a].publicUrl)], WithStatus(assets, a, C.Ready, now))
    else (users, assets)
  }

  function RemoveCurrent(users: Users, owner: UserId): Users {
    if owner in users then users[owner := users[owner].(avatarAssetId := None, avatarUrl := None)] else users
  }

  function ClearIncomingKey(assets: Assets, a: AssetId, key: Key, now: int): Assets {
    if a in assets && assets[a].incomingKey == Some(key) then assets[a := assets[a].(incomingKey := None, updatedAt := now)] else assets
  }

  function DeleteUnreferenced(users: Users, assets: Assets, a: AssetId): Assets {
    if IsCurrent(users, a) then assets else assets - {a}
  }

  /** The where clause of the cleanup listing. */
  predicate IsCandidate(users: Users, a: AssetId, row: Asset, now: int, staleBefore: int) {
    || (row.status == C.Pending && row.uploadExpiresAt <= now && row.updatedAt <= staleBefore)
    || (row.status in {C.Processing, C.Rejected, C.Cancelled} && row.updatedAt <= staleBefore)
    || (row.status == C.Ready && !IsCurrent(users, a))
    || (row.status == C.Ready && row.incomingKey.Some?)
  }

  // ---- The world ----------------------------------------------------------------------------

  /** Where a run of completeUpload stands: the await it is about to make. `row` is the record it read first. */
  datatype Stage =
    | Finding
    | At(row: Asset, claimedAt: int, phase: UploadPhase)
    | Ended

  datatype UploadPhase = Claiming | Heading | Getting | Converting | Storing | Completing | Releasing | Rejecting

  datatype Run = Run(asset: AssetId, owner: UserId, stage: Stage)

  datatype Conversion = Converted | Invalid | ConversionFailed

  /** How the outside answers one await: the clock, storage faults (a failed put may still have stored), whether
      metadata and body match the declaration, and the image processor. */
  datatype Answer = Answer(now: int, fault: bool, storedAnyway: bool, matches: bool, conversion: Conversion)

  /** Where the cleanup of one listed candidate stands: the await it is about to make. */
  datatype Phase = DeletingIncoming | ClearingKey | DeletingReady | DeletingAsset | Done(deleted: bool)

  /** `row` and `isCurrent` are what the listing saw. */
  datatype Cleanup = Cleanup(asset: AssetId, row: Asset, isCurrent: bool, phase: Phase)

  datatype World = World(
    users: Users, assets: Assets, objects: set<Key>, runs: map<RunId, Run>, cleanups: map<CleanupId, Cleanup>, issued: set<AssetId>)

  const START := World(map[], map[], {}, map[], map[], {})

  function ToStage(w: World, r: RunId, stage: Stage): World
    requires r in w.runs
  {
    w.(runs := w.runs[r := w.runs[r].(stage := stage)])
  }

  /** One await of run `r`. */
  function Advance(w: World, r: RunId, x: Answer): World
    requires r in w.runs
  {
    var run := w.runs[r];
    match run.stage
    case Finding =>
      if !(run.asset in w.assets && w.assets[run.asset].owner == run.owner) then ToStage(w, r, Ended)
      else
        var row := w.assets[run.asset];
        if row.status != C.Pending || row.uploadExpiresAt <= x.now then ToStage(w, r, Ended) else ToStage(w, r, At(row, x.now, Claiming))
    case At(row, claimedAt, phase) => Process(w, r, x, row, claimedAt, phase)
    case Ended => w
  }

  function Process(w: World, r: RunId, x: Answer, row: Asset, claimedAt: int, phase: UploadPhase): World
    requires r in w.runs
  {
    var a, owner := w.runs[r].asset, w.runs[r].owner;
    match phase
    case Claiming =>
      var claimed := Matches(w.assets, owner, a, C.Pending) && w.assets[a].uploadExpiresAt > claimedAt;
      ToStage(w.(assets := Claim(w.assets, owner, a, claimedAt, x.now)), r, if claimed then At(row, claimedAt, Heading) else Ended)
    case Heading | Getting =>
      var next := if phase == Heading then Getting else Converting;
      if row.incomingKey.None? || row.readyKey.None? then ToStage(w, r, Ended)
      else if x.fault || row.incomingKey.value !in w.objects then ToStage(w, r, At(row, claimedAt, Releasing))
      else ToStage(w, r, At(row, claimedAt, if x.matches then next else Rejecting))
    case Converting => (
      match x.conversion
      case Converted => ToStage(w, r, At(row, claimedAt, Storing))
      case Invalid => ToStage(w, r, At(row, claimedAt, Rejecting))
      case ConversionFailed => ToStage(w, r, Ended)
    )
    case Storing =>
      if row.readyKey.None? then ToStage(w, r, Ended)
      else
        var stored := w.(objects := w.objects + {row.readyKey.value});
        if x.fault then ToStage(if x.storedAnyway then stored else w, r, At(row, claimedAt, Releasing))
        else ToStage(stored, r, At(row, claimedAt, Completing))
    case Completing =>
      var (users, assets) := Complete(w.users, w.assets, owner, a, x.now);
      ToStage(w.(users := users, assets := assets), r, Ended)
    case Releasing => ToStage(w.(assets := Release(w.assets, owner, a, claimedAt, x.now)), r, Ended)
    case Rejecting => ToStage(w.(assets := MarkRejected(w.assets, owner, a, x.now)), r, Ended)
  }

  function AfterIncoming(row: Asset, isCurrent: bool): Phase {
    if isCurrent then Done(false) else if row.readyKey.Some? then DeletingReady else DeletingAsset
  }

  function FirstPhase(row: Asset, isCurrent: bool): Phase {
    if row.incomingKey.Some? then DeletingIncoming else AfterIncoming(row, isCurrent)
  }

  /** Listing one candidate; the stale age is positive. */
  function Pick(w: World, k: CleanupId, a: AssetId, now: int, staleBefore: int): World {
    if k in w.cleanups || a !in w.assets || staleBefore >= now || !IsCandidate(w.users, a, w.assets[a], now, staleBefore) then w
    else
      var row, isCurrent := w.assets[a], IsCurrent(w.users, a);
      w.(cleanups := w.cleanups[k := Cleanup(a, row, isCurrent, FirstPhase(row, isCurrent))])
  }

  function To(w: World, k: CleanupId, phase: Phase): World
    requires k in w.cleanups
  {
    w.(cleanups := w.cleanups[k := w.cleanups[k].(phase := phase)])
  }

  /** One await of cleanup `k`. */
  function Sweep(w: World, k: CleanupId, now: int): World
    requires k in w.cleanups
  {
    var c := w.cleanups[k];
    match c.phase
    case DeletingIncoming =>
      if c.row.incomingKey.None? then To(w, k, AfterIncoming(c.row, c.isCurrent))
      else To(w.(objects := w.objects - {c.row.incomingKey.value}), k, ClearingKey)
    case ClearingKey =>
      if c.row.incomingKey.None? then To(w, k, AfterIncoming(c.row, c.isCurrent))
      else To(w.(assets := ClearIncomingKey(w.assets, c.asset, c.row.incomingKey.value, now)), k, AfterIncoming(c.row, c.isCurrent))
    case DeletingReady =>
      if c.row.readyKey.None? then To(w, k, DeletingAsset)
      else To(w.(objects := w.objects - {c.row.readyKey.value}), k, DeletingAsset)
    case DeletingAsset =>
      To(w.(assets := DeleteUnreferenced(w.users, w.assets, c.asset)), k, Done(c.asset in w.assets && !IsCurrent(w.users, c.asset)))
    case Done(_) => w
  }

  datatype Event =
    | SettingUser(u: UserId, active: bool)
    | CreatingPending(owner: UserId, a: AssetId, publicUrl: string, uploadExpiresAt: int, now: int)
    | ClientPutting(a: AssetId)
    | Starting(r: RunId, owner: UserId, a: AssetId)
    | Running(r: RunId, answer: Answer)
    | RemovingCurrent(owner: UserId)
    | Picking(k: CleanupId, a: AssetId, now: int, staleBefore: int)
    | Sweeping(k: CleanupId, now: int)

  function Step(w: World, e: Event): World {
    match e
    case SettingUser(u, active) =>
      w.(users := w.users[u := if u in w.users then w.users[u].(active := active) else User(active, None, None)])
    case CreatingPending(owner, a, publicUrl, uploadExpiresAt, now) =>
      var assets := CreatePending(w.users, w.assets, owner, a, publicUrl, uploadExpiresAt, now);
      if a in w.issued || assets.None? then w else w.(assets := assets.value, issued := w.issued + {a})
    case ClientPutting(a) => w.(objects := w.objects + {Incoming(a)})
    case Starting(r, owner, a) => if r in w.runs then w else w.(runs := w.runs[r := Run(a, owner, Finding)])
    case Running(r, x) => if r in w.runs then Advance(w, r, x) else w
    case RemovingCurrent(owner) => w.(users := RemoveCurrent(w.users, owner))
    case Picking(k, a, now, staleBefore) => Pick(w, k, a, now, staleBefore)
    case Sweeping(k, now) => if k in w.cleanups then Sweep(w, k, now) else w
  }

  function Stepper(): (World, Event) -> World {
    (w: World, e: Event) => Step(w, e)
  }

  function After(events: seq<Event>): World {
    R.Resume(Stepper(), START, events)
  }

  // ---- The invariant --------------------------------------------------------------------------

  /** A user has no avatar, or a READY one of their own with its public URL. */
  ghost predicate Agrees(assets: Assets, u: UserId, user: User) {
    match user.avatarAssetId
    case None => user.avatarUrl.None?
    case Some(a) =>
      && a in assets && assets[a].status == C.Ready && assets[a].owner == u
      && user.avatarUrl.Some? && assets[a].publicUrl == user.avatarUrl
  }

  ghost predicate RowOk(a: AssetId, row: Asset) {
    row.publicUrl.Some? && row.readyKey == Some(Public(a)) && (row.incomingKey.Some? ==> row.incomingKey == Some(Incoming(a)))
  }

  predicate Settled(status: Status) {
    status == C.Ready || status == C.Rejected || status == C.Cancelled
  }

  /** What a cleanup knows of its candidate: issued, and if it had settled by the listing, not current now either. */
  ghost predicate CleanupOk(users: Users, assets: Assets, issued: set<AssetId>, c: Cleanup) {
    && c.asset in issued && RowOk(c.asset, c.row)
    && (Settled(c.row.status) && c.asset in assets ==> assets[c.asset].status == c.row.status)
    && (Settled(c.row.status) && !c.isCurrent ==> !IsCurrent(users, c.asset))
    && (c.isCurrent ==> c.phase != DeletingReady && c.phase != DeletingAsset)
  }

  /** A run works on an issued asset, with the keys of the record it read. */
  ghost predicate RunOk(issued: set<AssetId>, run: Run) {
    run.stage.At? ==> run.asset in issued && RowOk(run.asset, run.stage.row)
  }

  ghost predicate Valid(w: World) {
    && (forall u :: u in w.users ==> Agrees(w.assets, u, w.users[u]))
    && (forall a :: a in w.assets ==> a in w.issued && RowOk(a, w.assets[a]))
    && (forall k :: k in w.cleanups ==> CleanupOk(w.users, w.assets, w.issued, w.cleanups[k]))
    && (forall r :: r in w.runs ==> RunOk(w.issued, w.runs[r]))
  }

  // ---- Steps --------------------------------------------------------------------------------------

  /** Settled rows stay as they are but for the incoming key; what is settled and nobody's avatar never becomes one. */
  ghost predicate Keeps(w: World, t: World) {
    && w.issued <= t.issued
    && (forall a :: a in w.issued && a in t.assets ==>
         a in w.assets && (Settled(w.assets[a].status) ==> t.assets[a].status == w.assets[a].status))
    && (forall a :: a in w.issued && !IsCurrent(w.users, a) && (a in w.assets ==> Settled(w.assets[a].status)) ==>
         !IsCurrent(t.users, a))
  }

  ghost predicate Safe(w: World, t: World) {
    Valid(t) && Keeps(w, t)
  }

  lemma CleanupStays(w: World, t: World, c: Cleanup)
    requires CleanupOk(w.users, w.assets, w.issued, c) && Keeps(w, t)
    ensures CleanupOk(t.users, t.assets, t.issued, c)
  {
    hide IsCurrent, RowOk;
  }

  /** A step of the tables alone: users agree, rows are sound, nothing settled is taken back. */
  lemma TablesMoved(w: World, t: World)
    requires Valid(w) && Keeps(w, t) && t.cleanups == w.cleanups && t.runs == w.runs
    requires forall u :: u in t.users ==> Agrees(t.assets, u, t.users[u])
    requires forall a :: a in t.assets ==> a in t.issued && RowOk(a, t.assets[a])
    ensures Safe(w, t)
  {
    hide CleanupOk, RowOk, Agrees, Keeps;
    forall k | k in t.cleanups ensures CleanupOk(t.users, t.assets, t.issued, t.cleanups[k]) { CleanupStays(w, t, w.cleanups[k]); }
    assert w.issued <= t.issued by { IssuedGrow(w, t); }
  }

  lemma IssuedGrow(w: World, t: World)
    requires Keeps(w, t)
    ensures w.issued <= t.issued
  {
  }

  lemma Unmoved(w: World)
    requires Valid(w)
    ensures Safe(w, w)
  {
    hide CleanupOk, RunOk, RowOk, Agrees, IsCurrent;
  }

  /** Rows changed by a guarded update: settled ones keep their status, and READY ones all that users rely on. */
  ghost predicate RowsMove(before: Assets, after: Assets, issued: set<AssetId>) {
    && (forall a :: a in after ==> a in issued && RowOk(a, after[a]))
    && (forall a :: a in after && a in before ==> (Settled(before[a].status) ==> after[a].status == before[a].status))
    && (forall a :: a in before && before[a].status == C.Ready ==>
         a in after && after[a].owner == before[a].owner && after[a].publicUrl == before[a].publicUrl)
  }

  lemma AssetsMoved(w: World, t: World)
    requires Valid(w) && t == w.(assets := t.assets, issued := t.issued) && w.issued <= t.issued
    requires RowsMove(w.assets, t.assets, t.issued) && forall a :: a in t.assets && a in w.issued ==> a in w.assets
    ensures Safe(w, t)
  {
    hide IsCurrent, CleanupOk, RunOk, RowOk;
    forall u | u in t.users ensures Agrees(t.assets, u, t.users[u]) { assert Agrees(w.assets, u, w.users[u]); }
    TablesMoved(w, t);
  }

  /** One row with another status than before, which had not settled. */
  lemma StatusKeeps(w: World, a: AssetId, status: Status, now: int)
    requires Valid(w) && a in w.assets && !Settled(w.assets[a].status)
    ensures Safe(w, w.(assets := WithStatus(w.assets, a, status, now)))
  {
    hide IsCurrent, CleanupOk, RunOk, Agrees, Safe;
    AssetsMoved(w, w.(assets := WithStatus(w.assets, a, status, now)));
  }

  lemma CreatingKeeps(w: World, e: Event)
    requires Valid(w) && e.CreatingPending?
    ensures Safe(w, Step(w, e))
  {
    hide IsCurrent, CleanupOk, RunOk, Agrees, Safe, CancelPending;
    Unmoved(w);
    if e.a !in w.issued {
      PendingCancelled(w.assets, e.owner, e.now);
      AssetsMoved(w, Step(w, e));
    }
  }

  lemma PendingCancelled(assets: Assets, owner: UserId, now: int)
    ensures var t := CancelPending(assets, owner, now);
      t.Keys == assets.Keys && forall a :: a in assets ==>
        && t[a] == assets[a].(status := t[a].status, updatedAt := t[a].updatedAt)
        && (Settled(assets[a].status) ==> t[a].status == assets[a].status)
  {
  }

  lemma KeyClearedKeeps(w: World, a: AssetId, key: Key, now: int)
    requires Valid(w)
    ensures Safe(w, w.(assets := ClearIncomingKey(w.assets, a, key, now)))
  {
    hide IsCurrent, CleanupOk, RunOk, Agrees, Safe;
    AssetsMoved(w, w.(assets := ClearIncomingKey(w.assets, a, key, now)));
  }

  lemma DeletedKeeps(w: World, a: AssetId)
    requires Valid(w)
    ensures Safe(w, w.(assets := DeleteUnreferenced(w.users, w.assets, a)))
  {
    hide CleanupOk, RunOk, RowOk;
    var t := w.(assets := DeleteUnreferenced(w.users, w.assets, a));
    forall u | u in t.users ensures Agrees(t.assets, u, t.users[u]) { assert Agrees(w.assets, u, w.users[u]); }
    TablesMoved(w, t);
  }

  lemma ObjectsAreFree(w: World, objects: set<Key>)
    requires Valid(w)
    ensures Safe(w, w.(objects := objects))
  {
    hide CleanupOk, RunOk, Agrees, RowOk, IsCurrent;
  }

  /** Asset and user together. */
  lemma CompleteKeeps(w: World, owner: UserId, a: AssetId, now: int)
    requires Valid(w)
    ensures var (users, assets) := Complete(w.users, w.assets, owner, a, now); Safe(w, w.(users := users, assets := assets))
  {
    hide CleanupOk, RunOk, RowOk, Safe;
    Unmoved(w);
    if Matches(w.assets, owner, a, C.Processing) && IsActive(w.users, owner) {
      var (users, assets) := Complete(w.users, w.assets, owner, a, now);
      var t := w.(users := users, assets := assets);
      assert w.assets[a].publicUrl.Some? by { PublicUrlIsSet(w, a); }
      forall u | u in t.users ensures Agrees(t.assets, u, t.users[u]) { assert Agrees(w.assets, u, w.users[u]); }
      forall b | b in t.assets ensures b in t.issued && RowOk(b, t.assets[b]) { SameKeys(b, w.assets[b], t.assets[b]); }
      CompletedCurrent(w.users, owner, a, w.assets[a].publicUrl);
      TablesMoved(w, t);
    }
  }

  /** Making an asset somebody's avatar makes no other one an avatar. */
  lemma CompletedCurrent(users: Users, owner: UserId, a: AssetId, url: Option<string>)
    requires owner in users
    ensures var after := users[owner := users[owner].(avatarAssetId := Some(a), avatarUrl := url)];
      forall b: AssetId :: b != a && !IsCurrent(users, b) ==> !IsCurrent(after, b)
  {
    var after := users[owner := users[owner].(avatarAssetId := Some(a), avatarUrl := url)];
    forall b: AssetId | b != a && !IsCurrent(users, b) ensures !IsCurrent(after, b) {
      forall u | u in after ensures after[u].avatarAssetId != Some(b) { assert u in users; }
    }
  }

  lemma PublicUrlIsSet(w: World, a: AssetId)
    requires Valid(w) && a in w.assets
    ensures w.assets[a].publicUrl.Some?
  {
  }

  lemma SameKeys(a: AssetId, before: Asset, after: Asset)
    requires RowOk(a, before) && after.publicUrl == before.publicUrl
    requires after.readyKey == before.readyKey && after.incomingKey == before.incomingKey
    ensures RowOk(a, after)
  {
  }

  lemma UserKeeps(w: World, e: Event)
    requires Valid(w) && (e.SettingUser? || e.RemovingCurrent?)
    ensures Safe(w, Step(w, e))
  {
    hide CleanupOk, RunOk, RowOk;
    var t := Step(w, e);
    forall u | u in t.users ensures Agrees(t.assets, u, t.users[u]) { if u in w.users { assert Agrees(w.assets, u, w.users[u]); } }
    forall a: AssetId | !IsCurrent(w.users, a) ensures !IsCurrent(t.users, a) {
      forall u | u in t.users ensures t.users[u].avatarAssetId != Some(a) { assert u in w.users ==> w.users[u].avatarAssetId != Some(a); }
    }
    TablesMoved(w, t);
  }

  lemma PickingKeeps(w: World, e: Event)
    requires Valid(w) && e.Picking?
    ensures Safe(w, Step(w, e))
  {
    hide Agrees, RowOk, RunOk, IsCurrent, IsCandidate;
    Unmoved(w);
    var t := Step(w, e);
    forall k | k in t.cleanups ensures CleanupOk(t.users, t.assets, t.issued, t.cleanups[k]) {
      if k in w.cleanups { assert CleanupOk(w.users, w.assets, w.issued, w.cleanups[k]); }
    }
  }

  lemma Transitive(w: World, v: World, t: World)
    requires Keeps(w, v) && Keeps(v, t)
    ensures Keeps(w, t)
  {
    hide IsCurrent;
  }

  /** A cleanup moves on, with nothing else changed. */
  lemma PhaseKeeps(w: World, k: CleanupId, phase: Phase)
    requires Valid(w) && k in w.cleanups && (w.cleanups[k].isCurrent ==> phase != DeletingReady && phase != DeletingAsset)
    ensures Safe(w, To(w, k, phase))
  {
    hide Agrees, RowOk, RunOk, IsCurrent;
    Unmoved(w);
    var t := To(w, k, phase);
    forall j | j in t.cleanups ensures CleanupOk(t.users, t.assets, t.issued, t.cleanups[j]) {
      assert CleanupOk(w.users, w.assets, w.issued, w.cleanups[j]);
    }
  }

  lemma SweepingKeeps(w: World, k: CleanupId, now: int)
    requires Valid(w) && k in w.cleanups
    ensures Safe(w, Sweep(w, k, now))
  {
    hide Valid, Keeps, IsCurrent, DeleteUnreferenced, ClearIncomingKey;
    var t, c := Sweep(w, k, now), w.cleanups[k];
    var v := w.(assets := t.assets, objects := t.objects);
    assert Safe(w, v) by {
      if t.objects != w.objects { ObjectsAreFree(w, t.objects); }
      else if c.phase.ClearingKey? && c.row.incomingKey.Some? { KeyClearedKeeps(w, c.asset, c.row.incomingKey.value, now); }
      else if c.phase.DeletingAsset? { DeletedKeeps(w, c.asset); }
      else { Unmoved(w); }
    }
    if c.phase.Done? {
      assert t == v;
    } else {
      KnowsItsPhase(w, k);
      PhaseKeeps(v, k, t.cleanups[k].phase);
      assert t == To(v, k, t.cleanups[k].phase);
      Transitive(w, v, t);
    }
  }

  lemma KnowsItsPhase(w: World, k: CleanupId)
    requires Valid(w) && k in w.cleanups
    ensures w.cleanups[k].isCurrent ==> w.cleanups[k].phase != DeletingReady && w.cleanups[k].phase != DeletingAsset
  {
    assert CleanupOk(w.users, w.assets, w.issued, w.cleanups[k]);
  }

  // ---- Steps of a run ---------------------------------------------------------------------------------

  /** A run moves on, with nothing else changed. */
  lemma StageKeeps(w: World, v: World, r: RunId, stage: Stage)
    requires Valid(w) && Safe(w, v) && v.runs == w.runs && r in w.runs
    requires stage.At? ==> RunOk(v.issued, v.runs[r].(stage := stage))
    ensures Safe(w, ToStage(v, r, stage))
  {
    hide Agrees, RowOk, CleanupOk, IsCurrent;
    var t := ToStage(v, r, stage);
    forall q | q in t.runs ensures RunOk(t.issued, t.runs[q]) { if q != r { assert RunOk(v.issued, v.runs[q]); } }
  }

  lemma ClaimKeeps(w: World, owner: UserId, a: AssetId, claimedAt: int, now: int)
    requires Valid(w)
    ensures Safe(w, w.(assets := Claim(w.assets, owner, a, claimedAt, now)))
    ensures Safe(w, w.(assets := Release(w.assets, owner, a, claimedAt, now)))
    ensures Safe(w, w.(assets := MarkRejected(w.assets, owner, a, now)))
  {
    hide Valid, Safe, WithStatus;
    Unmoved(w);
    if a in w.assets && !Settled(w.assets[a].status) {
      StatusKeeps(w, a, C.Processing, now);
      StatusKeeps(w, a, C.Pending, now);
      StatusKeeps(w, a, C.Rejected, now);
    }
  }

  /** Reading the incoming object and converting it touch no table. */
  lemma ReadingKeeps(w: World, r: RunId, x: Answer)
    requires Valid(w) && r in w.runs && w.runs[r].stage.At?
    requires w.runs[r].stage.phase in {Heading, Getting, Converting}
    ensures Safe(w, Advance(w, r, x))
  {
    hide Valid, Safe, RowOk;
    RunIsOk(w, r);
    Unmoved(w);
    var stage := Advance(w, r, x).runs[r].stage;
    StageKeeps(w, w, r, stage);
    assert Advance(w, r, x) == ToStage(w, r, stage);
  }

  lemma StoringKeeps(w: World, r: RunId, x: Answer)
    requires Valid(w) && r in w.runs && w.runs[r].stage.At? && w.runs[r].stage.phase.Storing?
    ensures Safe(w, Advance(w, r, x))
  {
    hide Valid, Safe, RowOk;
    RunIsOk(w, r);
    var t := Advance(w, r, x);
    var v := w.(objects := t.objects);
    ObjectsAreFree(w, t.objects);
    StageKeeps(w, v, r, t.runs[r].stage);
    assert t == ToStage(v, r, t.runs[r].stage);
  }

  lemma TransactionKeeps(w: World, r: RunId, x: Answer)
    requires Valid(w) && r in w.runs && w.runs[r].stage.At?
    requires w.runs[r].stage.phase in {Claiming, Completing, Releasing, Rejecting}
    ensures Safe(w, Advance(w, r, x))
  {
    hide Valid, Safe, Claim, Release, MarkRejected, Complete, RowOk, Matches;
    var run, t := w.runs[r], Advance(w, r, x);
    RunIsOk(w, r);
    var v := w.(users := t.users, assets := t.assets);
    assert Safe(w, v) by {
      if run.stage.phase.Completing? { CompleteKeeps(w, run.owner, run.asset, x.now); }
      else { ClaimKeeps(w, run.owner, run.asset, run.stage.claimedAt, x.now); }
    }
    StageKeeps(w, v, r, t.runs[r].stage);
    assert t == ToStage(v, r, t.runs[r].stage);
  }

  lemma RunIsOk(w: World, r: RunId)
    requires Valid(w) && r in w.runs
    ensures RunOk(w.issued, w.runs[r])
  {
  }

  lemma FindingKeeps(w: World, r: RunId, x: Answer)
    requires Valid(w) && r in w.runs && w.runs[r].stage.Finding?
    ensures Safe(w, Advance(w, r, x))
  {
    hide Safe, RowOk, Agrees, CleanupOk, Keeps;
    Unmoved(w);
    StageKeeps(w, w, r, Advance(w, r, x).runs[r].stage);
  }

  lemma RunningKeeps(w: World, r: RunId, x: Answer)
    requires Valid(w) && r in w.runs
    ensures Safe(w, Advance(w, r, x))
  {
    hide Valid, Safe, Process;
    match w.runs[r].stage
    case Finding => FindingKeeps(w, r, x);
    case At(_, _, phase) =>
      if phase in {Heading, Getting, Converting} { ReadingKeeps(w, r, x); }
      else if phase == Storing { StoringKeeps(w, r, x); }
      else { TransactionKeeps(w, r, x); }
    case Ended => Unmoved(w);
  }

  lemma StartingKeeps(w: World, e: Event)
    requires Valid(w) && e.Starting?
    ensures Safe(w, Step(w, e))
  {
    hide RowOk, Agrees, CleanupOk, IsCurrent;
    Unmoved(w);
  }

  lemma StepKeeps(w: World, e: Event)
    requires Valid(w)
    ensures Safe(w, Step(w, e))
  {
    hide Valid, Safe, Sweep, Pick, Advance, RemoveCurrent, CreatePending;
    match e
    case SettingUser(_, _) => UserKeeps(w, e);
    case RemovingCurrent(_) => UserKeeps(w, e);
    case CreatingPending(_, _, _, _, _) => CreatingKeeps(w, e);
    case ClientPutting(a) => ObjectsAreFree(w, w.objects + {Incoming(a)});
    case Starting(_, _, _) => StartingKeeps(w, e);
    case Running(r, x) => if r in w.runs { RunningKeeps(w, r, x); } else { Unmoved(w); }
    case Picking(_, _, _, _) => PickingKeeps(w, e);
    case Sweeping(k, now) => if k in w.cleanups { SweepingKeeps(w, k, now); } else { Unmoved(w); }
  }

  // ---- All runs -----------------------------------------------------------------------------------

  /** Whatever a valid world leads to is valid. */
  lemma LeadsToValid(w: World, t: World)
    requires Valid(w) && R.Leads(Stepper(), w, t)
    ensures Valid(t)
  {
    hide Step, Valid;
    var valid := (v: World) => Valid(v);
    forall v, e | valid(v) ensures valid(Stepper()(v, e)) { StepKeeps(v, e); assert Safe(v, Step(v, e)); }
    R.LeadsKeeps(Stepper(), valid, w, t);
  }

  /** In every reachable world each user has no avatar, or an existing READY asset of their own with its public URL. */
  lemma AvatarsAlwaysAgree(events: seq<Event>)
    ensures Valid(After(events))
    ensures forall u :: u in After(events).users ==> Agrees(After(events).assets, u, After(events).users[u])
  {
    hide Step;
    LeadsToValid(START, After(events));
  }

  ghost predicate Retired(w: World, a: AssetId) {
    a in w.issued && !IsCurrent(w.users, a) && (a in w.assets ==> Settled(w.assets[a].status))
  }

  /** A READY avatar that nobody uses is never used again, whatever happens. */
  lemma RetiredForGood(events: seq<Event>, more: seq<Event>, a: AssetId)
    requires a in After(events).assets && After(events).assets[a].status == C.Ready && !IsCurrent(After(events).users, a)
    ensures !IsCurrent(After(events + more).users, a)
  {
    hide Step, IsCurrent;
    AvatarsAlwaysAgree(events);
    var kept := (v: World) => Valid(v) && Retired(v, a);
    assert kept(After(events));
    forall v, e | kept(v) ensures kept(Stepper()(v, e)) { StepKeeps(v, e); }
    R.InvariantKept(Stepper(), kept, After(events), more);
    R.ResumeConcat(Stepper(), START, events, more);
  }

  // ---- The public object of a current avatar ------------------------------------------------------------

  /** Some cleanup has listed the asset while it was PENDING or PROCESSING. */
  ghost predicate Exposed(cleanups: map<CleanupId, Cleanup>, a: AssetId) {
    exists k :: k in cleanups && cleanups[k].asset == a && !Settled(cleanups[k].row.status)
  }

  ghost predicate Unharmed(w: World, a: AssetId) {
    Public(a) in w.objects || Exposed(w.cleanups, a)
  }

  /** A run is about to complete an asset that can still be completed. */
  ghost predicate Finishing(w: World, r: RunId) {
    && r in w.runs && w.runs[r].stage.At? && w.runs[r].stage.phase.Completing?
    && w.runs[r].asset in w.assets && !Settled(w.assets[w.runs[r].asset].status)
  }

  ghost predicate ObjectsThere(w: World) {
    && (forall u :: u in w.users && w.users[u].avatarAssetId.Some? ==> Unharmed(w, w.users[u].avatarAssetId.value))
    && (forall r :: r in w.runs && Finishing(w, r) ==> Unharmed(w, w.runs[r].asset))
  }

  lemma ExposureStays(w: World, e: Event, a: AssetId)
    requires Exposed(w.cleanups, a)
    ensures Exposed(Step(w, e).cleanups, a)
  {
    var k :| k in w.cleanups && w.cleanups[k].asset == a && !Settled(w.cleanups[k].row.status);
    ListingStays(w, e, k);
  }

  lemma ListingStays(w: World, e: Event, k: CleanupId)
    requires k in w.cleanups
    ensures k in Step(w, e).cleanups
    ensures Step(w, e).cleanups[k].asset == w.cleanups[k].asset && Step(w, e).cleanups[k].row == w.cleanups[k].row
  {
    hide IsCandidate, Advance, CreatePending, DeleteUnreferenced, ClearIncomingKey, IsCurrent, AfterIncoming, FirstPhase;
    if e.Running? && e.r in w.runs { AdvanceFrame(w, e.r, e.answer); }
  }

  /** A run neither lists anything nor deletes an object, and moves no other run. */
  lemma AdvanceFrame(w: World, r: RunId, x: Answer)
    requires r in w.runs
    ensures var t := Advance(w, r, x); t.cleanups == w.cleanups && t.issued == w.issued && w.objects <= t.objects
  {
    hide Claim, Release, MarkRejected, Complete, Matches;
  }

  /** Only a cleanup that listed the asset itself deletes its public object; the asset is then exposed, or nobody's
      avatar and settled. */
  lemma OnlyOwnCleanupDeletes(w: World, e: Event, a: AssetId)
    requires Valid(w) && Unharmed(w, a)
    ensures Unharmed(Step(w, e), a) || (!IsCurrent(w.users, a) && (a in w.assets ==> Settled(w.assets[a].status)))
  {
    hide Advance, IsCandidate, CreatePending, DeleteUnreferenced, ClearIncomingKey, IsCurrent, Exposed, Agrees;
    if Exposed(w.cleanups, a) {
      ExposureStays(w, e, a);
    } else {
      if e.Running? && e.r in w.runs { AdvanceFrame(w, e.r, e.answer); }
      if e.Sweeping? && e.k in w.cleanups && w.cleanups[e.k].asset == a {
        assert CleanupOk(w.users, w.assets, w.issued, w.cleanups[e.k]);
        NotExposed(w.cleanups, a, e.k);
      } else if e.Sweeping? && e.k in w.cleanups {
        assert CleanupOk(w.users, w.assets, w.issued, w.cleanups[e.k]);
      }
    }
  }

  lemma NotExposed(cleanups: map<CleanupId, Cleanup>, a: AssetId, k: CleanupId)
    requires !Exposed(cleanups, a) && k in cleanups && cleanups[k].asset == a
    ensures Settled(cleanups[k].row.status)
  {
  }

  lemma BecomesCurrent(w: World, e: Event, a: AssetId)
    requires !IsCurrent(w.users, a) && IsCurrent(Step(w, e).users, a)
    ensures e.Running? && Finishing(w, e.r) && w.runs[e.r].asset == a
  {
    hide IsCandidate, CreatePending, DeleteUnreferenced, ClearIncomingKey, Claim, Release, MarkRejected, Sweep, Pick;
    var u :| u in Step(w, e).users && Step(w, e).users[u].avatarAssetId == Some(a);
    assert u in w.users ==> w.users[u].avatarAssetId != Some(a);
    SweepFrame(w, e);
  }

  lemma SweepFrame(w: World, e: Event)
    ensures e.Sweeping? && e.k in w.cleanups ==>
      var t := Sweep(w, e.k, e.now); t.users == w.users && t.runs == w.runs && t.issued == w.issued
    ensures e.Picking? ==>
      var t := Pick(w, e.k, e.a, e.now, e.staleBefore);
      t.users == w.users && t.runs == w.runs && t.issued == w.issued && t.assets == w.assets
  {
    hide IsCandidate, DeleteUnreferenced, ClearIncomingKey, IsCurrent;
  }

  /** A run gets to its last transaction only by having stored the object. */
  lemma BecomesFinishing(w: World, e: Event, r: RunId)
    requires Valid(w) && Finishing(Step(w, e), r)
    ensures Step(w, e).runs[r].asset in w.issued
    ensures
      || (r in w.runs && Finishing(w, r) && w.runs[r].asset == Step(w, e).runs[r].asset)
      || Public(Step(w, e).runs[r].asset) in Step(w, e).objects
  {
    hide Valid, Keeps, RowOk, RunOk;
    var t := Step(w, e);
    StepKeeps(w, e);
    ReachesCompleting(w, e, r);
    RunIsOk(w, r);
    StaysUnsettled(w, t, t.runs[r].asset) by { KnownAsset(w, r); }
    KnownKeys(w, r);
  }

  lemma KnownAsset(w: World, r: RunId)
    requires r in w.runs && RunOk(w.issued, w.runs[r]) && w.runs[r].stage.At?
    ensures w.runs[r].asset in w.issued
  {
  }

  lemma KnownKeys(w: World, r: RunId)
    requires r in w.runs && RunOk(w.issued, w.runs[r]) && w.runs[r].stage.At?
    ensures w.runs[r].asset in w.issued && w.runs[r].stage.row.readyKey == Some(Public(w.runs[r].asset))
  {
  }

  lemma StaysUnsettled(w: World, t: World, a: AssetId)
    requires Keeps(w, t) && a in w.issued && a in t.assets && !Settled(t.assets[a].status)
    ensures a in w.assets && !Settled(w.assets[a].status)
  {
  }

  ghost predicate AtCompleting(w: World, r: RunId) {
    r in w.runs && w.runs[r].stage.At? && w.runs[r].stage.phase.Completing?
  }

  lemma AdvanceReaches(w: World, q: RunId, x: Answer, r: RunId)
    requires q in w.runs && AtCompleting(Advance(w, q, x), r)
    ensures r in w.runs && w.runs[r].asset == Advance(w, q, x).runs[r].asset && w.runs[r].stage.At?
    ensures AtCompleting(w, r) || (w.runs[r].stage.row.readyKey.Some? && w.runs[r].stage.row.readyKey.value in Advance(w, q, x).objects)
  {
    hide Claim, Release, MarkRejected, Complete, Matches;
  }

  lemma ReachesCompleting(w: World, e: Event, r: RunId)
    requires AtCompleting(Step(w, e), r)
    ensures r in w.runs && w.runs[r].asset == Step(w, e).runs[r].asset && w.runs[r].stage.At?
    ensures AtCompleting(w, r) || (w.runs[r].stage.row.readyKey.Some? && w.runs[r].stage.row.readyKey.value in Step(w, e).objects)
  {
    hide CreatePending, Sweep, Pick, Advance, AtCompleting;
    SweepFrame(w, e);
    if e.Running? && e.r in w.runs { AdvanceReaches(w, e.r, e.answer, r); } else { SameRunsSame(w, Step(w, e), r); }
  }

  lemma SameRunsSame(w: World, t: World, r: RunId)
    requires AtCompleting(t, r) && forall q :: q in t.runs && !t.runs[q].stage.Finding? ==> q in w.runs && w.runs[q] == t.runs[q]
    ensures AtCompleting(w, r) && w.runs[r] == t.runs[r]
  {
  }

  lemma StepKeepsObjects(w: World, e: Event)
    requires Valid(w) && ObjectsThere(w)
    ensures ObjectsThere(Step(w, e))
  {
    hide Valid, Step, Unharmed, Finishing, Keeps;
    var t := Step(w, e);
    forall u | u in t.users && t.users[u].avatarAssetId.Some? ensures Unharmed(t, t.users[u].avatarAssetId.value) {
      var a := t.users[u].avatarAssetId.value;
      if IsCurrent(w.users, a) {
        var v :| v in w.users && w.users[v].avatarAssetId == Some(a);
        assert Unharmed(w, a);
        OnlyOwnCleanupDeletes(w, e, a);
      } else {
        BecomesCurrent(w, e, a);
        FinishingIsUnsettled(w, e.r);
        OnlyOwnCleanupDeletes(w, e, a);
      }
    }
    forall r | r in t.runs && Finishing(t, r) ensures Unharmed(t, t.runs[r].asset) {
      BecomesFinishing(w, e, r);
      FinishingIsUnsettled(t, r);
      if r in w.runs && Finishing(w, r) && w.runs[r].asset == t.runs[r].asset {
        FinishingIsUnsettled(w, r);
        OnlyOwnCleanupDeletes(w, e, t.runs[r].asset);
      } else {
        Stored(t, t.runs[r].asset);
      }
    }
  }

  lemma FinishingIsUnsettled(w: World, r: RunId)
    requires Finishing(w, r)
    ensures r in w.runs && w.runs[r].asset in w.assets && !Settled(w.assets[w.runs[r].asset].status)
  {
  }

  lemma Stored(w: World, a: AssetId)
    requires Public(a) in w.objects
    ensures Unharmed(w, a)
  {
  }

  /** In every reachable world the public object of every current avatar is there, unless cleanup listed the asset while
      it was still PENDING or PROCESSING. */
  lemma CurrentObjectsThere(events: seq<Event>, u: UserId)
    requires u in After(events).users && After(events).users[u].avatarAssetId.Some?
    ensures var w, a := After(events), After(events).users[u].avatarAssetId.value;
      Public(a) in w.objects || exists k :: k in w.cleanups && w.cleanups[k].asset == a && !Settled(w.cleanups[k].row.status)
  {
    hide Step, Valid;
    var sound := (v: World) => Valid(v) && ObjectsThere(v);
    assert sound(START) by { StartIsSound(); }
    forall v, e | sound(v) ensures sound(Stepper()(v, e)) { StepKeeps(v, e); assert Safe(v, Step(v, e)); StepKeepsObjects(v, e); }
    R.InvariantKept(Stepper(), sound, START, events);
    assert Unharmed(After(events), After(events).users[u].avatarAssetId.value);
  }

  lemma StartIsSound()
    ensures Valid(START) && ObjectsThere(START)
  {
  }

  // ---- Which candidates may be swept ----------------------------------------------------------------------

  /** The next await of cleanup `k` deletes the public object of a current avatar of `u`. */
  ghost predicate Hurts(w: World, k: CleanupId, now: int, u: UserId) {
    && k in w.cleanups && u in w.users && w.users[u].avatarAssetId.Some?
    && Public(w.users[u].avatarAssetId.value) in w.objects
    && Public(w.users[u].avatarAssetId.value) !in Sweep(w, k, now).objects
  }

  ghost predicate Reachable(w: World) {
    R.Leads(Stepper(), START, w)
  }

  ghost predicate CanHurt(status: Status) {
    exists w, k, now, u :: Reachable(w) && Hurts(w, k, now, u) && w.cleanups[k].row.status == status
  }

  lemma SettledCandidatesAreSafe(w: World, k: CleanupId, now: int, u: UserId)
    requires Valid(w) && k in w.cleanups && Settled(w.cleanups[k].row.status)
    ensures !Hurts(w, k, now, u)
  {
    assert CleanupOk(w.users, w.assets, w.issued, w.cleanups[k]);
  }

  lemma StartIsReachable()
    ensures Reachable(START)
  {
    R.Here(Stepper(), START);
  }

  lemma Then(w: World, e: Event) returns (t: World)
    requires Reachable(w)
    ensures Reachable(t) && t == Step(w, e)
  {
    t := Step(w, e);
    R.OneStep(Stepper(), START, w, e);
  }

  function AsOf(now: int): Answer {
    Answer(now, false, false, true, Converted)
  }

  /** The row of asset 1 of user 0, declared at 0 and expiring at 10. */
  function Declared(status: Status, incomingKey: Option<Key>, updatedAt: int): Asset {
    Asset(0, status, Some("url"), incomingKey, Some(Public(1)), 10, updatedAt)
  }

  /** Declared, uploaded by the client, and found by run 5, which takes its time at 1. */
  lemma Uploaded() returns (w: World)
    ensures Reachable(w)
    ensures w == World(map[0 := User(true, None, None)], map[1 := Declared(C.Pending, Some(Incoming(1)), 0)], {Incoming(1)},
      map[5 := Run(1, 0, At(Declared(C.Pending, Some(Incoming(1)), 0), 1, Claiming))], map[], {1})
  {
    hide Reachable;
    StartIsReachable();
    w := Then(START, SettingUser(0, true));
    w := Then(w, CreatingPending(0, 1, "url", 10, 0));
    assert w.assets == map[1 := Declared(C.Pending, Some(Incoming(1)), 0)];
    w := Then(w, ClientPutting(1));
    w := Then(w, Starting(5, 0, 1));
    w := Then(w, Running(5, AsOf(1)));
  }

  /** Listed at 20 as PENDING or, after its claim at 2, as PROCESSING, with a stale age of 10; the claim is made by then. */
  lemma ListedThenClaimed(status: Status) returns (w: World)
    requires !Settled(status)
    ensures Reachable(w) && w.users == map[0 := User(true, None, None)] && w.objects == {Incoming(1)} && w.issued == {1}
    ensures exists at :: w.assets == map[1 := Declared(C.Processing, Some(Incoming(1)), at)]
    ensures w.runs == map[5 := Run(1, 0, At(Declared(C.Pending, Some(Incoming(1)), 0), 1, Heading))]
    ensures w.cleanups.Keys == {7} && w.cleanups[7].asset == 1 && !w.cleanups[7].isCurrent && w.cleanups[7].phase == DeletingIncoming
    ensures w.cleanups[7].row.status == status && RowOk(1, w.cleanups[7].row) && w.cleanups[7].row.incomingKey == Some(Incoming(1))
  {
    hide Reachable;
    w := Uploaded();
    var claimedAt := if status == C.Processing then 2 else 21;
    if status == C.Processing { w := Then(w, Running(5, AsOf(claimedAt))); }
    assert !IsCurrent(w.users, 1);
    w := Then(w, Picking(7, 1, 20, 10));
    assert w.cleanups[7].row.status == status;
    if status == C.Pending { w := Then(w, Running(5, AsOf(claimedAt))); }
    assert w.assets == map[1 := Declared(C.Processing, Some(Incoming(1)), claimedAt)];
  }

  /** The slow upload reads, converts, stores and completes only now. */
  lemma CompletedAfterListing(status: Status) returns (w: World)
    requires !Settled(status)
    ensures Reachable(w) && w.users == map[0 := User(true, Some(1), Some("url"))] && w.objects == {Incoming(1), Public(1)}
    ensures w.assets == map[1 := Declared(C.Ready, Some(Incoming(1)), 26)]
    ensures w.cleanups.Keys == {7} && w.cleanups[7].asset == 1 && !w.cleanups[7].isCurrent && w.cleanups[7].phase == DeletingIncoming
    ensures w.cleanups[7].row.status == status && RowOk(1, w.cleanups[7].row) && w.cleanups[7].row.incomingKey == Some(Incoming(1))
  {
    hide Reachable;
    w := ListedThenClaimed(status);
    w := Then(w, Running(5, AsOf(22)));
    w := Then(w, Running(5, AsOf(23)));
    w := Then(w, Running(5, AsOf(24)));
    w := Then(w, Running(5, AsOf(25)));
    w := Then(w, Running(5, AsOf(26)));
  }

  /** An asset listed as PROCESSING may be completed, by a slow upload, before the sweep comes to it. So may one listed as
      PENDING and expired: the upload took its time before the expiry and claims after the listing. */
  lemma UnsettledCandidatesHurt(status: Status)
    requires !Settled(status)
    ensures CanHurt(status)
  {
    hide Reachable;
    var w := CompletedAfterListing(status);
    w := Then(w, Sweeping(7, 27));
    w := Then(w, Sweeping(7, 28));
    assert Hurts(w, 7, 29, 0);
  }

  /** Cleanup never deletes the public object of a current avatar, whatever happens between the listing and the
      deletion, exactly if the candidate was listed as READY, REJECTED or CANCELLED. */
  lemma CleanupSafety(status: Status)
    ensures CanHurt(status) <==> !Settled(status)
  {
    hide Step, Sweep, Valid;
    if !Settled(status) {
      UnsettledCandidatesHurt(status);
    } else if w, k, now, u :| Reachable(w) && Hurts(w, k, now, u) && w.cleanups[k].row.status == status {
      StartIsSound();
      LeadsToValid(START, w);
      SettledCandidatesAreSafe(w, k, now, u);
    }
  }
}
