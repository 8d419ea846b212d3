/** What every run of the upload life cycle keeps, whatever the interleaving. */
module UploadSafety {
  import opened Prelude
  import opened Uploads
  import C = ChatDb

  // ---- The invariant -----------------------------------------------------------------

  /** The columns that createUpload writes once and for all. */
  ghost predicate SameIntent(intent: Asset, row: Asset) {
    && row.owner == intent.owner && row.conversation == intent.conversation && row.fileName == intent.fileName
    && row.kind == intent.kind && row.declaredType == intent.declaredType && row.declaredSize == intent.declaredSize
    && row.uploadExpiresAt == intent.uploadExpiresAt && row.readyKey == intent.readyKey && row.thumbnailKey == intent.thumbnailKey
    && (row.incomingKey == intent.incomingKey || (row.incomingKey.None? && row.status == C.Ready))
  }

  ghost predicate Declared(a: AssetId, row: Asset) {
    && row.kind == KindOf(row.declaredType) && row.declaredSize <= MaximumBytes(row.kind)
    && row.readyKey == Some(Original(a)) && row.incomingKey == Some(Incoming(a))
    && row.thumbnailKey == if row.kind == Image then Some(Thumbnail(a)) else None
  }

  ghost predicate Fits(row: Asset, f: Findings) {
    && f.size == row.declaredSize && f.contentType == row.declaredType
    && (f.width.Some? <==> row.kind == Image) && (f.height.Some? <==> row.kind == Image)
  }

  /** A READY row describes exactly what was declared; any other row describes nothing yet. */
  ghost predicate Described(row: Asset) {
    if row.status == C.Ready then
      && row.actualSize.Some? && row.detectedType.Some?
      && Fits(row, Findings(row.detectedType.value, row.actualSize.value, row.width, row.height))
    else row.actualSize.None? && row.detectedType.None? && row.width.None? && row.height.None?
  }

  function One(b: bool): nat { if b then 1 else 0 }

  /** Every claim has ended in exactly one way, or has not ended. */
  ghost predicate Conserved(t: Tally, status: Status) {
    && t.claims == t.releases + t.resets + t.rejections + t.completions + One(status == C.Processing)
    && t.completions == One(status == C.Ready)
  }

  type Accepted = set<(AssetId, Bytes)>

  ghost predicate RowOk(row: Asset, intents: Assets, tallies: map<AssetId, Tally>, a: AssetId) {
    && a in intents && SameIntent(intents[a], row) && Described(row)
    && Conserved(TallyOf(tallies, a), row.status)
  }

  ghost predicate AssetsOk(assets: Assets, intents: Assets, tallies: map<AssetId, Tally>) {
    forall a :: a in assets ==> RowOk(assets[a], intents, tallies, a)
  }

  ghost predicate IntentsOk(intents: Assets, tallies: map<AssetId, Tally>) {
    forall a :: a in intents ==> Declared(a, intents[a]) && TallyOf(tallies, a).completions <= 1
  }

  /** The stored objects of an asset are there until cleanup picks the asset. */
  ghost predicate Present(objects: map<Key, Object>, intents: Assets, picked: set<AssetId>, a: AssetId) {
    || a in picked
    || (Original(a) in objects && (a in intents && intents[a].kind == Image ==> Thumbnail(a) in objects))
  }

  ghost predicate PresentOk(assets: Assets, objects: map<Key, Object>, intents: Assets, picked: set<AssetId>) {
    forall a :: a in assets && assets[a].status == C.Ready ==> Present(objects, intents, picked, a)
  }

  /** Bytes that may be handed out as the file of `a`: of the declared size and type, scanned clean, and valid if a PDF. */
  ghost predicate Genuine(setup: Setup, clean: Accepted, valid: Accepted, a: AssetId, row: Asset, body: Bytes) {
    && Typed(setup, row, body) && (a, body) in clean && (row.kind == Pdf ==> (a, body) in valid)
  }

  ghost predicate Typed(setup: Setup, row: Asset, body: Bytes) {
    |body| == row.declaredSize && setup.detect(body) == Some(row.declaredType)
  }

  ghost predicate GenuineObject(setup: Setup, clean: Accepted, valid: Accepted, a: AssetId, row: Asset, o: Object) {
    Genuine(setup, clean, valid, a, row, o.body) && o.contentType == Some(row.declaredType)
  }

  ghost predicate ObjectsOk(setup: Setup, objects: map<Key, Object>, intents: Assets, clean: Accepted, valid: Accepted) {
    forall a :: a in intents && intents[a].kind != Image && Original(a) in objects ==>
      GenuineObject(setup, clean, valid, a, intents[a], objects[Original(a)])
  }

  ghost predicate TablesOk(setup: Setup, w: World) {
    && AssetsOk(w.assets, w.history.intents, w.history.tallies) && IntentsOk(w.history.intents, w.history.tallies)
    && PresentOk(w.assets, w.objects, w.history.intents, w.history.picked)
    && ObjectsOk(setup, w.objects, w.history.intents, w.history.clean, w.history.valid)
  }

  /** What a run knows at each await about the row it read. */
  ghost predicate PhaseOk(setup: Setup, objects: map<Key, Object>, h: History, a: AssetId, row: Asset, phase: Phase) {
    match phase
    case Claiming | Refetching | Heading | Getting | Rejecting(_) | Releasing | ReleasingForRetry(_) | FindingCompleted => true
    case Detecting(body) => |body| == row.declaredSize
    case Converting(body) => Typed(setup, row, body) && row.kind == Image
    case PuttingOriginal(body, image) => Typed(setup, row, body) && row.kind == Image && image.contentType == row.declaredType
    case PuttingThumbnail(body, image) =>
      Typed(setup, row, body) && row.kind == Image && image.contentType == row.declaredType && (a in h.picked || Original(a) in objects)
    case Validating(body) => Typed(setup, row, body) && row.kind == Pdf
    case Scanning(body) => Typed(setup, row, body) && row.kind != Image && (row.kind == Pdf ==> (a, body) in h.valid)
    case PuttingFile(body) => Genuine(setup, h.clean, h.valid, a, row, body) && row.kind != Image
    case Completing(findings) => Fits(row, findings) && Present(objects, h.intents, h.picked, a)
    case RemovingIncoming => row.status == C.Ready
    case ClearingKey => row.status == C.Ready && row.incomingKey.Some?
  }

  /** A record of `a` that some run has read. */
  ghost predicate Known(intents: Assets, a: AssetId, row: Asset) {
    a in intents && SameIntent(intents[a], row) && Described(row)
  }

  ghost predicate StaysReady(assets: Assets, a: AssetId, row: Asset) {
    row.status == C.Ready && a in assets ==> assets[a].status == C.Ready
  }

  /** Unless it found the asset READY, a run took its time before the upload expired. */
  ghost predicate InTime(row: Asset, claimedAt: int, phase: Phase) {
    phase.RemovingIncoming? || phase.ClearingKey? || claimedAt < row.uploadExpiresAt
  }

  ghost predicate RunOk(setup: Setup, w: World, run: Run) {
    match run.stage
    case Admitting | Finding | Finished(Err(_)) => true
    case At(row, claimedAt, phase) =>
      && Known(w.history.intents, run.asset, row) && PhaseOk(setup, w.objects, w.history, run.asset, row, phase)
      && StaysReady(w.assets, run.asset, row) && InTime(row, claimedAt, phase)
    case Finished(Ok(row)) => Known(w.history.intents, run.asset, row) && row.status == C.Ready
  }

  ghost predicate Valid(setup: Setup, w: World) {
    TablesOk(setup, w) && forall r :: r in w.runs ==> RunOk(setup, w, w.runs[r])
  }

  // ---- What no step takes back -------------------------------------------------------------

  /** READY, REJECTED and CANCELLED are absorbing: only the incoming key of a READY row may still be cleared. */
  ghost predicate Absorbed(before: Asset, after: Asset) {
    && (before.status == C.Ready ==> after == before.(incomingKey := after.incomingKey, updatedAt := after.updatedAt))
    && (before.status == C.Rejected || before.status == C.Cancelled ==> after == before)
  }

  /** Rows do not come back: ids are used once. */
  ghost predicate RowsGrow(before: Assets, after: Assets, intents: Assets) {
    forall a :: a in after && a in intents ==> a in before && Absorbed(before[a], after[a])
  }

  ghost predicate HistoryGrows(before: History, after: History) {
    && (forall a :: a in before.intents ==> a in after.intents && after.intents[a] == before.intents[a])
    && before.clean <= after.clean && before.valid <= after.valid && before.picked <= after.picked
  }

  ghost predicate ObjectsGrow(before: map<Key, Object>, after: map<Key, Object>, picked: set<AssetId>) {
    forall k: Key :: k in before && !k.Incoming? && k.asset !in picked ==> k in after
  }

  ghost predicate Grows(w: World, t: World) {
    && RowsGrow(w.assets, t.assets, w.history.intents) && HistoryGrows(w.history, t.history)
    && ObjectsGrow(w.objects, t.objects, t.history.picked)
  }

  /** A step from `w` to `t` that keeps all guarantees. */
  ghost predicate Safe(setup: Setup, w: World, t: World) {
    Valid(setup, t) && Grows(w, t)
  }

  lemma RowsStay(assets: Assets, intents: Assets, tallies: map<AssetId, Tally>)
    requires AssetsOk(assets, intents, tallies)
    ensures RowsGrow(assets, assets, intents)
  {
    hide RowOk;
  }

  lemma HistoryStays(h: History)
    ensures HistoryGrows(h, h)
  {
  }

  lemma RunStays(setup: Setup, w: World, t: World, run: Run)
    requires RunOk(setup, w, run) && Grows(w, t)
    ensures RunOk(setup, t, run)
  {
    hide SameIntent, Described, Typed, Fits;
  }

  /** A step of run `r`: the tables stay sound, nothing is taken back, and the run is where it may be. */
  lemma OneRunMoved(setup: Setup, w: World, t: World, r: RunId)
    requires Valid(setup, w) && r in w.runs && r in t.runs && t.runs == w.runs[r := t.runs[r]]
    requires Grows(w, t) && TablesOk(setup, t) && RunOk(setup, t, t.runs[r])
    ensures Safe(setup, w, t)
  {
    hide RunOk, TablesOk, Grows;
    forall q | q in t.runs ensures RunOk(setup, t, t.runs[q]) {
      if q != r { RunStays(setup, w, t, w.runs[q]); }
    }
  }

  /** A step that leaves the runs alone. */
  lemma RunsUntouched(setup: Setup, w: World, t: World)
    requires Valid(setup, w) && t.runs == w.runs && Grows(w, t) && TablesOk(setup, t)
    ensures Safe(setup, w, t)
  {
    hide RunOk, TablesOk, Grows;
    forall q | q in t.runs ensures RunOk(setup, t, t.runs[q]) { RunStays(setup, w, t, w.runs[q]); }
  }

  /** Two worlds that differ in their runs only. */
  ghost predicate SameTables(w: World, t: World) {
    t.assets == w.assets && t.objects == w.objects && t.history == w.history
  }

  lemma SameTablesSame(setup: Setup, w: World, s: World, t: World, run: Run)
    requires SameTables(s, t)
    ensures Grows(w, s) == Grows(w, t) && TablesOk(setup, s) == TablesOk(setup, t) && RunOk(setup, s, run) == RunOk(setup, t, run)
  {
    hide AssetsOk, IntentsOk, PresentOk, ObjectsOk, RowsGrow, HistoryGrows, ObjectsGrow, Known, PhaseOk, StaysReady;
  }

  lemma NothingMoved(setup: Setup, w: World)
    requires Valid(setup, w)
    ensures Safe(setup, w, w)
  {
    hide RunOk, AssetsOk, IntentsOk, PresentOk, ObjectsOk, RowsGrow, HistoryGrows;
    RowsStay(w.assets, w.history.intents, w.history.tallies);
    HistoryStays(w.history);
  }

  /** A step of run `r` that touches nothing but the run itself. */
  lemma OnlyRunMoved(setup: Setup, w: World, t: World, r: RunId)
    requires Valid(setup, w) && r in w.runs && r in t.runs && t.runs == w.runs[r := t.runs[r]] && SameTables(w, t)
    requires RunOk(setup, w, t.runs[r])
    ensures Safe(setup, w, t)
  {
    hide RunOk, TablesOk, Grows;
    NothingMoved(setup, w);
    SameTablesSame(setup, w, w, t, t.runs[r]);
    OneRunMoved(setup, w, t, r);
  }

  /** A step of run `r` that also takes the tables from `w` to those of `s`. */
  lemma RunMovedWith(setup: Setup, w: World, s: World, t: World, r: RunId)
    requires Valid(setup, w) && r in w.runs && r in t.runs && t.runs == w.runs[r := t.runs[r]] && SameTables(s, t)
    requires Grows(w, s) && TablesOk(setup, s) && RunOk(setup, s, t.runs[r])
    ensures Safe(setup, w, t)
  {
    hide RunOk, TablesOk, Grows;
    SameTablesSame(setup, w, s, t, t.runs[r]);
    OneRunMoved(setup, w, t, r);
  }

  // ---- Changes of one table -----------------------------------------------------------------

  /** Storing an object under a key of asset `a`; as the original of a file it must be genuine. */
  lemma ObjectStored(setup: Setup, w: World, a: AssetId, key: Key, o: Object)
    requires TablesOk(setup, w) && a in w.history.intents && key.asset == a && !key.Incoming?
    requires key.Original? && w.history.intents[a].kind != Image ==>
      GenuineObject(setup, w.history.clean, w.history.valid, a, w.history.intents[a], o)
    ensures var s := w.(objects := w.objects[key := o]); Grows(w, s) && TablesOk(setup, s)
  {
    hide GenuineObject, AssetsOk, IntentsOk, HistoryGrows, RowsGrow;
    RowsStay(w.assets, w.history.intents, w.history.tallies);
    HistoryStays(w.history);
  }

  /** Whatever happens to incoming objects concerns nobody's guarantees. */
  lemma IncomingChanged(setup: Setup, w: World, objects: map<Key, Object>, a: AssetId)
    requires TablesOk(setup, w)
    requires forall k: Key :: k != Incoming(a) ==> (k in objects <==> k in w.objects) && (k in objects ==> objects[k] == w.objects[k])
    ensures var s := w.(objects := objects); Grows(w, s) && TablesOk(setup, s)
  {
    hide GenuineObject, AssetsOk, IntentsOk, HistoryGrows, RowsGrow;
    RowsStay(w.assets, w.history.intents, w.history.tallies);
    HistoryStays(w.history);
  }

  lemma MoreAccepted(setup: Setup, w: World, s: World)
    requires TablesOk(setup, w) && s.assets == w.assets && s.objects == w.objects
    requires s.history == w.history.(clean := s.history.clean, valid := s.history.valid)
    requires w.history.clean <= s.history.clean && w.history.valid <= s.history.valid
    ensures Grows(w, s) && TablesOk(setup, s)
  {
    hide Typed, AssetsOk, IntentsOk, PresentOk, RowsGrow;
    RowsStay(w.assets, w.history.intents, w.history.tallies);
  }

  /** A guarded update is safe if the new row fits the intent and the count of its moves. */
  lemma RowMoved(setup: Setup, w: World, a: AssetId, row: Asset, cause: Cause)
    requires TablesOk(setup, w) && a in w.assets && Absorbed(w.assets[a], row)
    requires RowOk(row, w.history.intents, Recorded(w.history, a, w.assets[a].status, cause).tallies, a)
    requires row.status == C.Ready ==> Present(w.objects, w.history.intents, w.history.picked, a)
    ensures var s := Moved(w, a, row, cause); Grows(w, s) && TablesOk(setup, s)
  {
    hide RowOk, Absorbed, ObjectsOk, Present, Declared, HistoryGrows, Counted;
    var s := Moved(w, a, row, cause);
    assert TallyOf(s.history.tallies, a).completions <= 1 by { hide *; AtMostOneCompletion(row, w.history.intents, s.history.tallies, a); }
    forall b | b in w.assets && b != a ensures RowOk(w.assets[b], w.history.intents, s.history.tallies, b) {
      SameTally(w.assets[b], w.history.intents, w.history.tallies, s.history.tallies, b);
    }
    RowsStay(w.assets, w.history.intents, w.history.tallies);
    assert HistoryGrows(w.history, s.history) by { SameFacts(w.history, s.history); }
  }

  lemma AtMostOneCompletion(row: Asset, intents: Assets, tallies: map<AssetId, Tally>, a: AssetId)
    requires RowOk(row, intents, tallies, a)
    ensures TallyOf(tallies, a).completions <= 1
  {
  }

  lemma SameTally(row: Asset, intents: Assets, before: map<AssetId, Tally>, after: map<AssetId, Tally>, a: AssetId)
    requires RowOk(row, intents, before, a) && TallyOf(after, a) == TallyOf(before, a)
    ensures RowOk(row, intents, after, a)
  {
  }

  lemma SameFacts(h: History, g: History)
    requires g.intents == h.intents && g.clean == h.clean && g.valid == h.valid && g.picked == h.picked
    ensures HistoryGrows(h, g)
  {
  }

  lemma KeyCleared(setup: Setup, w: World, a: AssetId, now: int)
    requires TablesOk(setup, w) && a in w.assets && w.assets[a].status == C.Ready
    ensures var s := w.(assets := w.assets[a := w.assets[a].(incomingKey := None, updatedAt := now)]); Grows(w, s) && TablesOk(setup, s)
  {
    hide ObjectsOk, IntentsOk, HistoryGrows, Present, RowOk, Absorbed;
    var row := w.assets[a].(incomingKey := None, updatedAt := now);
    assert RowOk(row, w.history.intents, w.history.tallies, a) && Absorbed(w.assets[a], row) by {
      assert RowOk(w.assets[a], w.history.intents, w.history.tallies, a);
      ClearedRow(w.assets[a], w.history.intents, w.history.tallies, a, now);
    }
    RowsStay(w.assets, w.history.intents, w.history.tallies);
    HistoryStays(w.history);
  }

  lemma ClearedRow(row: Asset, intents: Assets, tallies: map<AssetId, Tally>, a: AssetId, now: int)
    requires RowOk(row, intents, tallies, a) && row.status == C.Ready
    ensures var cleared := row.(incomingKey := None, updatedAt := now); RowOk(cleared, intents, tallies, a) && Absorbed(row, cleared)
  {
  }

  // ---- Steps of a run --------------------------------------------------------------------

  lemma RowIsKnown(w: World, a: AssetId)
    requires AssetsOk(w.assets, w.history.intents, w.history.tallies) && a in w.assets
    ensures Known(w.history.intents, a, w.assets[a])
  {
    hide SameIntent, Described, Conserved;
  }

  lemma BeginKeeps(setup: Setup, w: World, r: RunId, x: Answer)
    requires Valid(setup, w) && r in w.runs && !w.runs[r].stage.At?
    ensures Safe(setup, w, Begin(w, r, x))
  {
    hide AssetsOk, IntentsOk, PresentOk, ObjectsOk, Known, Safe;
    var run := w.runs[r];
    if run.stage.Finding? && IsOwned(w.assets, run.asset, run.owner, run.conversation) { RowIsKnown(w, run.asset); }
    if run.stage.Finished? { NothingMoved(setup, w); } else { OnlyRunMoved(setup, w, Begin(w, r, x), r); }
  }

  lemma ReadKeeps(setup: Setup, w: World, r: RunId, x: Answer, matches: Object -> bool, onwards: Object -> Phase)
    requires Valid(setup, w) && r in w.runs && w.runs[r].stage.At?
    requires !w.runs[r].stage.phase.RemovingIncoming? && !w.runs[r].stage.phase.ClearingKey?
    requires forall o :: matches(o) ==> PhaseOk(setup, w.objects, w.history, w.runs[r].asset, w.runs[r].stage.row, onwards(o))
    ensures Safe(setup, w, Read(w, r, x, matches, onwards))
  {
    hide TablesOk, Known, StaysReady, PhaseOk, Safe;
    assert RunOk(setup, w, w.runs[r]);
    EndingIsFine(setup, w, w.runs[r]);
    OnlyRunMoved(setup, w, Read(w, r, x, matches, onwards), r);
  }

  /** Reading the incoming object and looking at its contents. */
  lemma ReadingKeeps(setup: Setup, w: World, r: RunId, x: Answer)
    requires Valid(setup, w) && r in w.runs && w.runs[r].stage.At?
    requires w.runs[r].stage.phase.Heading? || w.runs[r].stage.phase.Getting? || w.runs[r].stage.phase.Detecting?
    ensures Safe(setup, w, Process(setup, w, r, x))
  {
    hide TablesOk, Known, StaysReady, Safe, Read, MetadataMatches;
    var row := w.runs[r].stage.row;
    match w.runs[r].stage.phase
    case Heading => ReadKeeps(setup, w, r, x, (o: Object) => MetadataMatches(row, o), (o: Object) => Getting);
    case Getting => ReadKeeps(setup, w, r, x, (o: Object) => BodyMatches(row, o), (o: Object) => Detecting(o.body));
    case Detecting(body) =>
      assert RunOk(setup, w, w.runs[r]);
      OnlyRunMoved(setup, w, Process(setup, w, r, x), r);
  }

  lemma ConvertingKeeps(setup: Setup, w: World, r: RunId, x: Answer)
    requires Valid(setup, w) && r in w.runs && w.runs[r].stage.At? && w.runs[r].stage.phase.Converting?
    ensures Safe(setup, w, Process(setup, w, r, x))
  {
    hide TablesOk, Known, StaysReady, Typed, Safe;
    assert RunOk(setup, w, w.runs[r]);
    OnlyRunMoved(setup, w, Process(setup, w, r, x), r);
  }

  lemma PutKeeps(setup: Setup, w: World, r: RunId, x: Answer, key: Option<Key>, o: Object, onwards: Phase)
    requires Valid(setup, w) && r in w.runs && w.runs[r].stage.At?
    requires !w.runs[r].stage.phase.RemovingIncoming? && !w.runs[r].stage.phase.ClearingKey?
    requires var run := w.runs[r]; key.Some? ==>
      && key.value.asset == run.asset && !key.value.Incoming?
      && (key.value.Original? && run.stage.row.kind != Image ==>
           GenuineObject(setup, w.history.clean, w.history.valid, run.asset, run.stage.row, o))
      && PhaseOk(setup, w.objects[key.value := o], w.history, run.asset, run.stage.row, onwards)
    ensures Safe(setup, w, Put(w, r, x, key, o, onwards))
  {
    hide TablesOk, StaysReady, PhaseOk, Grows, Safe, GenuineObject;
    var run, t := w.runs[r], Put(w, r, x, key, o, onwards);
    assert RunOk(setup, w, run);
    EndingIsFine(setup, w, run);
    if key.None? || t.objects == w.objects {
      if t.objects == w.objects && key.Some? && x.fault == NoFault { assert w.objects[key.value := o] == w.objects; }
      OnlyRunMoved(setup, w, t, r);
    } else {
      var s := w.(objects := w.objects[key.value := o]);
      SameFile(setup, w.history.clean, w.history.valid, w.history.intents, run.asset, run.stage.row, o);
      ObjectStored(setup, w, run.asset, key.value, o);
      EndingIsFine(setup, s, run);
      RunMovedWith(setup, w, s, t, r);
    }
  }

  lemma SameFile(setup: Setup, clean: Accepted, valid: Accepted, intents: Assets, a: AssetId, row: Asset, o: Object)
    requires Known(intents, a, row)
    ensures GenuineObject(setup, clean, valid, a, row, o) == GenuineObject(setup, clean, valid, a, intents[a], o)
    ensures row.kind == intents[a].kind
  {
  }

  lemma EndingIsFine(setup: Setup, w: World, run: Run)
    requires run.stage.At?
    ensures forall e :: PhaseOk(setup, w.objects, w.history, run.asset, run.stage.row, ReleasingForRetry(e))
    ensures forall e :: PhaseOk(setup, w.objects, w.history, run.asset, run.stage.row, Rejecting(e))
    ensures PhaseOk(setup, w.objects, w.history, run.asset, run.stage.row, Releasing)
  {
  }

  lemma IntentIsDeclared(intents: Assets, tallies: map<AssetId, Tally>, a: AssetId)
    requires IntentsOk(intents, tallies) && a in intents
    ensures Declared(a, intents[a])
  {
  }

  lemma TypedSize(setup: Setup, row: Asset, body: Bytes)
    requires Typed(setup, row, body)
    ensures |body| == row.declaredSize
  {
  }

  lemma PuttingKeeps(setup: Setup, w: World, r: RunId, x: Answer)
    requires Valid(setup, w) && r in w.runs && w.runs[r].stage.At?
    requires w.runs[r].stage.phase.PuttingOriginal? || w.runs[r].stage.phase.PuttingThumbnail? || w.runs[r].stage.phase.PuttingFile?
    ensures Safe(setup, w, Process(setup, w, r, x))
  {
    hide AssetsOk, PresentOk, ObjectsOk, IntentsOk, Typed, Described, Safe, Put;
    var run := w.runs[r];
    var a, row := run.asset, run.stage.row;
    assert RunOk(setup, w, run);
    IntentIsDeclared(w.history.intents, w.history.tallies, a);
    match run.stage.phase
    case PuttingOriginal(body, image) =>
      PutKeeps(setup, w, r, x, row.readyKey, StoredAs(image.original, Webp), PuttingThumbnail(body, image));
    case PuttingThumbnail(body, image) =>
      TypedSize(setup, row, body);
      PutKeeps(setup, w, r, x, row.thumbnailKey, StoredAs(image.thumbnail, Webp),
               Completing(Findings(image.contentType, |body|, Some(image.width), Some(image.height))));
    case PuttingFile(body) =>
      TypedSize(setup, row, body);
      PutKeeps(setup, w, r, x, row.readyKey, StoredAs(body, row.declaredType), Completing(Findings(row.declaredType, |body|, None, None)));
  }

  /** Noting that the PDF check or the scan accepted a body. */
  lemma AcceptingKeeps(setup: Setup, w: World, r: RunId, x: Answer)
    requires Valid(setup, w) && r in w.runs && w.runs[r].stage.At?
    requires w.runs[r].stage.phase.Validating? || w.runs[r].stage.phase.Scanning?
    ensures Safe(setup, w, Process(setup, w, r, x))
  {
    hide TablesOk, Known, StaysReady, Typed, Grows, Safe;
    var t, run := Process(setup, w, r, x), w.runs[r];
    assert RunOk(setup, w, run);
    if t.history == w.history {
      OnlyRunMoved(setup, w, t, r);
    } else {
      var s := w.(history := t.history);
      MoreAccepted(setup, w, s);
      RunStays(setup, w, s, run);
      RunMovedWith(setup, w, s, t, r);
    }
  }

  /** The moves that make a claim, end one, or reject an asset before one: none of them can meet a READY row. */
  lemma Demoted(setup: Setup, w: World, a: AssetId, status: Status, cause: Cause, now: int)
    requires TablesOk(setup, w) && a in w.assets
    requires
      var from := w.assets[a].status;
      || (cause == Claim && from == C.Pending && status == C.Processing)
      || (cause == Release && from == C.Processing && status == C.Pending)
      || (cause == Reject && (from == C.Pending || from == C.Processing) && status == C.Rejected)
    ensures var s := MovedTo(w, a, status, cause, now); Grows(w, s) && TablesOk(setup, s)
  {
    hide ObjectsOk, IntentsOk, PresentOk, Grows;
    assert RowOk(w.assets[a], w.history.intents, w.history.tallies, a);
    RowMoved(setup, w, a, w.assets[a].(status := status, updatedAt := now), cause);
  }

  lemma ClaimKeeps(setup: Setup, w: World, r: RunId, x: Answer)
    requires Valid(setup, w) && r in w.runs && w.runs[r].stage.At? && w.runs[r].stage.phase.Claiming?
    ensures Safe(setup, w, Settle(w, r, x))
  {
    hide TablesOk, Known, Grows, StaysReady, Safe, Moved;
    var t, run := Settle(w, r, x), w.runs[r];
    assert RunOk(setup, w, run);
    if (run.owner, run.conversation) in w.members && CanClaim(w.assets, run.asset, run.owner, run.conversation, run.stage.claimedAt) {
      var s := MovedTo(w, run.asset, C.Processing, Claim, x.now);
      Demoted(setup, w, run.asset, C.Processing, Claim, x.now);
      RunStays(setup, w, s, run);
      assert s.runs == w.runs by { MovedRuns(w, run.asset, C.Processing, Claim, x.now); }
      RunMovedWith(setup, w, s, t, r);
    } else {
      OnlyRunMoved(setup, w, t, r);
    }
  }

  lemma MovedRuns(w: World, a: AssetId, status: Status, cause: Cause, now: int)
    requires a in w.assets
    ensures MovedTo(w, a, status, cause, now).runs == w.runs
  {
  }

  lemma CompletingKeeps(setup: Setup, w: World, r: RunId, x: Answer)
    requires Valid(setup, w) && r in w.runs && w.runs[r].stage.At? && w.runs[r].stage.phase.Completing?
    ensures Safe(setup, w, Settle(w, r, x))
  {
    hide AssetsOk, IntentsOk, PresentOk, ObjectsOk, Grows, Safe, Present, Completed, Known;
    var t, run := Settle(w, r, x), w.runs[r];
    var a := run.asset;
    assert RunOk(setup, w, run);
    if (run.owner, run.conversation) in w.members && CanComplete(w.assets, a, run.owner, run.conversation) {
      var row := Completed(w.assets[a], run.stage.phase.findings, x.now);
      var s := Moved(w, a, row, Completion);
      CompletedRow(w, a, run.stage.row, run.stage.phase.findings, x.now);
      RowMoved(setup, w, a, row, Completion);
      RunStays(setup, w, s, run);
      RunMovedWith(setup, w, s, t, r);
    } else {
      OnlyRunMoved(setup, w, t, r);
    }
  }

  /** The findings fit the row that is PROCESSING now, because they fit the record the run read: same intent. */
  lemma CompletedRow(w: World, a: AssetId, seen: Asset, f: Findings, now: int)
    requires AssetsOk(w.assets, w.history.intents, w.history.tallies) && a in w.assets && w.assets[a].status == C.Processing
    requires Known(w.history.intents, a, seen) && Fits(seen, f)
    ensures var row := Completed(w.assets[a], f, now);
      && RowOk(row, w.history.intents, Recorded(w.history, a, w.assets[a].status, Completion).tallies, a)
      && Absorbed(w.assets[a], row)
  {
    assert RowOk(w.assets[a], w.history.intents, w.history.tallies, a);
  }

  /** Giving up: rejecting or releasing the asset, and failing. */
  lemma EndingKeeps(setup: Setup, w: World, r: RunId, x: Answer)
    requires Valid(setup, w) && r in w.runs && w.runs[r].stage.At?
    requires w.runs[r].stage.phase.Rejecting? || w.runs[r].stage.phase.Releasing? || w.runs[r].stage.phase.ReleasingForRetry?
    ensures Safe(setup, w, Settle(w, r, x))
  {
    hide TablesOk, Known, Grows, Safe;
    var t, run := Settle(w, r, x), w.runs[r];
    if SameTables(w, t) {
      OnlyRunMoved(setup, w, t, r);
    } else {
      var (status, cause) := if run.stage.phase.Rejecting? then (C.Rejected, Reject) else (C.Pending, Release);
      Demoted(setup, w, run.asset, status, cause, x.now);
      RunMovedWith(setup, w, MovedTo(w, run.asset, status, cause, x.now), t, r);
    }
  }

  lemma RefindingKeeps(setup: Setup, w: World, r: RunId, x: Answer)
    requires Valid(setup, w) && r in w.runs && w.runs[r].stage.At?
    requires w.runs[r].stage.phase.Refetching? || w.runs[r].stage.phase.FindingCompleted?
    ensures Safe(setup, w, Settle(w, r, x))
  {
    hide AssetsOk, IntentsOk, PresentOk, ObjectsOk, Known, Safe;
    if w.runs[r].asset in w.assets { RowIsKnown(w, w.runs[r].asset); }
    OnlyRunMoved(setup, w, Settle(w, r, x), r);
  }

  lemma RemovingKeeps(setup: Setup, w: World, r: RunId, x: Answer)
    requires Valid(setup, w) && r in w.runs && w.runs[r].stage.At? && w.runs[r].stage.phase.RemovingIncoming?
    ensures Safe(setup, w, Settle(w, r, x))
  {
    hide AssetsOk, IntentsOk, PresentOk, ObjectsOk, Grows, Described, Safe;
    var t, run := Settle(w, r, x), w.runs[r];
    assert RunOk(setup, w, run);
    if t.objects == w.objects {
      if run.stage.row.incomingKey.Some? && x.fault == NoFault { assert w.objects - {run.stage.row.incomingKey.value} == w.objects; }
      OnlyRunMoved(setup, w, t, r);
    } else {
      IntentIsDeclared(w.history.intents, w.history.tallies, run.asset);
      var s := w.(objects := w.objects - {Incoming(run.asset)});
      IncomingChanged(setup, w, s.objects, run.asset);
      RunStays(setup, w, s, run);
      RunMovedWith(setup, w, s, t, r);
    }
  }

  lemma ClearingKeeps(setup: Setup, w: World, r: RunId, x: Answer)
    requires Valid(setup, w) && r in w.runs && w.runs[r].stage.At? && w.runs[r].stage.phase.ClearingKey?
    ensures Safe(setup, w, Settle(w, r, x))
  {
    hide TablesOk, Grows, Known, Safe;
    var t, run := Settle(w, r, x), w.runs[r];
    var a := run.asset;
    assert RunOk(setup, w, run);
    if a in w.assets && w.assets[a].incomingKey == run.stage.row.incomingKey {
      var s := w.(assets := w.assets[a := w.assets[a].(incomingKey := None, updatedAt := x.now)]);
      KeyCleared(setup, w, a, x.now);
      RunStays(setup, w, s, run);
      RunMovedWith(setup, w, s, t, r);
    } else {
      OnlyRunMoved(setup, w, t, r);
    }
  }

  lemma AdvanceKeeps(setup: Setup, w: World, r: RunId, x: Answer)
    requires Valid(setup, w) && r in w.runs
    ensures Safe(setup, w, Advance(setup, w, r, x))
  {
    hide Safe, Valid, Process, Settle, Begin;
    if !w.runs[r].stage.At? {
      BeginKeeps(setup, w, r, x);
    } else {
      match w.runs[r].stage.phase
      case Heading | Getting | Detecting(_) => ReadingKeeps(setup, w, r, x);
      case Converting(_) => ConvertingKeeps(setup, w, r, x);
      case PuttingOriginal(_, _) | PuttingThumbnail(_, _) | PuttingFile(_) => PuttingKeeps(setup, w, r, x);
      case Validating(_) | Scanning(_) => AcceptingKeeps(setup, w, r, x);
      case Claiming => ClaimKeeps(setup, w, r, x);
      case Completing(_) => CompletingKeeps(setup, w, r, x);
      case Rejecting(_) | Releasing | ReleasingForRetry(_) => EndingKeeps(setup, w, r, x);
      case Refetching | FindingCompleted => RefindingKeeps(setup, w, r, x);
      case RemovingIncoming => RemovingKeeps(setup, w, r, x);
      case ClearingKey => ClearingKeeps(setup, w, r, x);
    }
  }

  // ---- Steps of everybody else -------------------------------------------------------------

  lemma CreateUploadKeeps(setup: Setup, w: World, a: AssetId, q: Request, now: int)
    requires Valid(setup, w)
    ensures Safe(setup, w, CreateUpload(w, a, q, now))
  {
    hide TablesOk, Safe, Intent;
    if Accepts(w, a, q) {
      IntentIsFine(a, q, now);
      RowAdded(setup, w, a, Intent(a, q, now));
      RunsUntouched(setup, w, CreateUpload(w, a, q, now));
    } else {
      NothingMoved(setup, w);
    }
  }

  lemma IntentIsFine(a: AssetId, q: Request, now: int)
    requires q.contentType.Some? && q.size <= MaximumBytes(KindOf(q.contentType.value))
    ensures Declared(a, Intent(a, q, now)) && Described(Intent(a, q, now)) && Intent(a, q, now).status == C.Pending
  {
  }

  lemma RowAdded(setup: Setup, w: World, a: AssetId, row: Asset)
    requires TablesOk(setup, w) && Fresh(w, a) && Declared(a, row) && Described(row) && row.status == C.Pending
    ensures var s := w.(assets := w.assets[a := row], history := w.history.(intents := w.history.intents[a := row]));
      Grows(w, s) && TablesOk(setup, s)
  {
    hide RowOk, Described, Declared, GenuineObject, Absorbed, Conserved;
    var s := w.(assets := w.assets[a := row], history := w.history.(intents := w.history.intents[a := row]));
    RowsStay(w.assets, w.history.intents, w.history.tallies);
    forall b | b in s.assets ensures RowOk(s.assets[b], s.history.intents, s.history.tallies, b) {
      if b == a { NewRow(row, s.history.intents, s.history.tallies, a); }
      else { SameIntentThere(s.assets[b], w.history.intents, s.history.intents, w.history.tallies, b); }
    }
  }

  lemma NewRow(row: Asset, intents: Assets, tallies: map<AssetId, Tally>, a: AssetId)
    requires a in intents && intents[a] == row && Described(row) && row.status == C.Pending && a !in tallies
    ensures RowOk(row, intents, tallies, a)
  {
  }

  lemma SameIntentThere(row: Asset, before: Assets, after: Assets, tallies: map<AssetId, Tally>, a: AssetId)
    requires RowOk(row, before, tallies, a) && forall b :: b in before ==> b in after && after[b] == before[b]
    ensures RowOk(row, after, tallies, a)
  {
  }

  lemma ResetKeeps(setup: Setup, w: World, staleBefore: int, now: int)
    requires Valid(setup, w)
    ensures Safe(setup, w, ResetStale(w, staleBefore, now))
  {
    hide RunOk, RowOk, Absorbed, ObjectsOk, HistoryGrows, Present, Declared, Safe;
    var t := ResetStale(w, staleBefore, now);
    forall a | a in t.assets
      ensures RowOk(t.assets[a], t.history.intents, t.history.tallies, a) && Absorbed(w.assets[a], t.assets[a])
        && (t.assets[a].status == C.Ready ==> w.assets[a].status == C.Ready)
    {
      RowReset(w, a, staleBefore, now);
    }
    SameFacts(w.history, t.history);
    RunsUntouched(setup, w, t);
  }

  lemma RowReset(w: World, a: AssetId, staleBefore: int, now: int)
    requires a in w.assets && RowOk(w.assets[a], w.history.intents, w.history.tallies, a)
    ensures var t := ResetStale(w, staleBefore, now);
      && RowOk(t.assets[a], t.history.intents, t.history.tallies, a) && Absorbed(w.assets[a], t.assets[a])
      && (t.assets[a].status == C.Ready ==> w.assets[a].status == C.Ready)
  {
    hide Fits;
  }

  lemma PickingKeeps(setup: Setup, w: World, a: AssetId)
    requires TablesOk(setup, w)
    ensures var s := w.(history := w.history.(picked := w.history.picked + {a})); Grows(w, s) && TablesOk(setup, s)
  {
    hide RowOk, ObjectsOk, IntentsOk, Absorbed;
    RowsStay(w.assets, w.history.intents, w.history.tallies);
  }

  lemma ObjectDeletedKeeps(setup: Setup, w: World, key: Key)
    requires TablesOk(setup, w) && key.asset in w.history.picked
    ensures var s := w.(objects := w.objects - {key}); Grows(w, s) && TablesOk(setup, s)
  {
    hide AssetsOk, RowOk, GenuineObject, IntentsOk, Absorbed, HistoryGrows;
    RowsStay(w.assets, w.history.intents, w.history.tallies);
    HistoryStays(w.history);
  }

  lemma AssetDeletedKeeps(setup: Setup, w: World, a: AssetId)
    requires TablesOk(setup, w)
    ensures var s := w.(assets := w.assets - {a}); Grows(w, s) && TablesOk(setup, s)
  {
    hide RowOk, ObjectsOk, IntentsOk, Absorbed, Present, HistoryGrows;
    RowsStay(w.assets, w.history.intents, w.history.tallies);
    HistoryStays(w.history);
  }

  lemma CleanupKeeps(setup: Setup, w: World, e: Event)
    requires Valid(setup, w) && (e.PickingForCleanup? || e.CleanupDeletingObject? || e.CleanupDeletingAsset?)
    ensures Safe(setup, w, Step(setup, w, e))
  {
    hide RunOk, TablesOk, Grows, Safe;
    NothingMoved(setup, w);
    var t := Step(setup, w, e);
    if t != w {
      match e {
        case PickingForCleanup(a) => PickingKeeps(setup, w, a);
        case CleanupDeletingObject(key) => ObjectDeletedKeeps(setup, w, key);
        case CleanupDeletingAsset(a) => AssetDeletedKeeps(setup, w, a);
      }
      RunsUntouched(setup, w, t);
    }
  }

  lemma ClientKeeps(setup: Setup, w: World, a: AssetId, upload: Object)
    requires Valid(setup, w)
    ensures Safe(setup, w, w.(objects := w.objects[Incoming(a) := upload]))
  {
    hide TablesOk, Grows, RunOk;
    var t := w.(objects := w.objects[Incoming(a) := upload]);
    IncomingChanged(setup, w, t.objects, a);
    RunsUntouched(setup, w, t);
  }

  lemma StartingKeeps(setup: Setup, w: World, e: Event)
    requires Valid(setup, w) && (e.Starting? || e.ChangingMembers?)
    ensures Safe(setup, w, Step(setup, w, e))
  {
    hide TablesOk, Grows, RunOk;
    var t := Step(setup, w, e);
    NothingMoved(setup, w);
    forall q | q in w.runs ensures RunOk(setup, t, w.runs[q]) { SameTablesSame(setup, w, w, t, w.runs[q]); }
    assert e.Starting? && e.r in t.runs && e.r !in w.runs ==> RunOk(setup, t, t.runs[e.r]) by {
      if e.Starting? { AdmittingIsFine(setup, t, Run(e.a, e.owner, e.conversation, Admitting)); }
    }
    SameTablesSame(setup, w, w, t, Run(0, 0, 0, Admitting));
  }

  lemma AdmittingIsFine(setup: Setup, w: World, run: Run)
    requires run.stage.Admitting?
    ensures RunOk(setup, w, run)
  {
  }

  lemma StepKeeps(setup: Setup, w: World, e: Event)
    requires Valid(setup, w)
    ensures Safe(setup, w, Step(setup, w, e))
  {
    hide Safe, Valid, Advance, CreateUpload, ResetStale;
    NothingMoved(setup, w);
    match e
    case CreatingUpload(a, request, now) => CreateUploadKeeps(setup, w, a, request, now);
    case Starting(_, _, _, _) => StartingKeeps(setup, w, e);
    case ChangingMembers(_) => StartingKeeps(setup, w, e);
    case Running(r, x) => if r in w.runs { AdvanceKeeps(setup, w, r, x); }
    case ClientPutting(a, upload) => ClientKeeps(setup, w, a, upload);
    case ResettingStale(staleBefore, now) => ResetKeeps(setup, w, staleBefore, now);
    case _ => CleanupKeeps(setup, w, e);
  }
  lemma {:induction false} AlwaysValid(setup: Setup, events: seq<Event>)
    ensures Valid(setup, After(setup, events))
    decreases |events|
  {
    hide Valid, Step;
    if events == [] {
      StartIsValid(setup);
    } else {
      AlwaysValid(setup, events[..|events| - 1]);
      StepKeeps(setup, After(setup, events[..|events| - 1]), events[|events| - 1]);
      assert Valid(setup, After(setup, events)) by { assert Safe(setup, After(setup, events[..|events| - 1]), After(setup, events)); }
    }
  }

  lemma StartIsValid(setup: Setup)
    ensures Valid(setup, START)
  {
  }

  /** Under any interleaving, from any reachable world: READY and REJECTED rows keep their status and, but for
      the incoming key, everything else; no row ever comes back. */
  lemma SettledStaysSettled(setup: Setup, events: seq<Event>, e: Event, a: AssetId)
    requires var before := After(setup, events).assets; a in before && (before[a].status == C.Ready || before[a].status == C.Rejected)
    requires a in After(setup, events + [e]).assets
    ensures Absorbed(After(setup, events).assets[a], After(setup, events + [e]).assets[a])
  {
    hide Valid, Step;
    AlwaysValid(setup, events);
    var w := After(setup, events);
    StepKeeps(setup, w, e);
    assert (events + [e])[..|events|] == events;
    assert a in w.history.intents by { ReachableRow(setup, w, a); }
  }

  lemma ReachableRow(setup: Setup, w: World, a: AssetId)
    requires Valid(setup, w) && a in w.assets
    ensures RowOk(w.assets[a], w.history.intents, w.history.tallies, a)
  {
    hide RowOk;
  }

  /** Under any interleaving, on every asset the successful claims equal the releases, stale resets, rejections
      from PROCESSING and completions, plus one if the asset is PROCESSING now; and it completes at most once. */
  lemma ClaimsAreAccountedFor(setup: Setup, events: seq<Event>, a: AssetId)
    ensures var w := After(setup, events); a in w.assets ==>
      var t := TallyOf(w.history.tallies, a);
      && t.claims == t.releases + t.resets + t.rejections + t.completions + (if w.assets[a].status == C.Processing then 1 else 0)
      && (t.completions == 1 <==> w.assets[a].status == C.Ready)
    ensures a in After(setup, events).history.intents ==> TallyOf(After(setup, events).history.tallies, a).completions <= 1
  {
    hide Step;
    AlwaysValid(setup, events);
    var w := After(setup, events);
    if a in w.assets { ReachableRow(setup, w, a); }
  }

  /** Every reachable READY row describes the file that was declared: its size, within the limit of its kind, its
      type, mapping to its kind, and dimensions and a thumbnail exactly if it is an image. */
  lemma ReadyIsAsDeclared(setup: Setup, events: seq<Event>, a: AssetId)
    requires a in After(setup, events).assets && After(setup, events).assets[a].status == C.Ready
    ensures var row := After(setup, events).assets[a];
      && row.actualSize == Some(row.declaredSize) && row.declaredSize <= MaximumBytes(row.kind)
      && row.detectedType == Some(row.declaredType) && row.kind == KindOf(row.declaredType) && row.readyKey == Some(Original(a))
      && (row.width.Some? <==> row.kind == Image) && (row.height.Some? <==> row.kind == Image)
      && (row.thumbnailKey.Some? <==> row.kind == Image)
  {
    hide Step;
    AlwaysValid(setup, events);
    var w := After(setup, events);
    ReachableRow(setup, w, a);
    IntentIsDeclared(w.history.intents, w.history.tallies, a);
  }

  /** However clients rewrite incoming objects and runs overlap: the object under the ready key of a PDF or office
      file only ever holds bytes of the declared size and type that a scan found clean, and that the PDF check
      accepted if it is a PDF; and while the asset is READY it is there until cleanup picks the asset. */
  lemma ReadyFileIsGenuine(setup: Setup, events: seq<Event>, a: AssetId)
    requires a in After(setup, events).history.intents && After(setup, events).history.intents[a].kind != Image
    ensures var w := After(setup, events);
      && (Original(a) in w.objects ==>
            var row, file := w.history.intents[a], w.objects[Original(a)];
            && |file.body| == row.declaredSize && setup.detect(file.body) == Some(row.declaredType)
            && file.contentType == Some(row.declaredType)
            && (a, file.body) in w.history.clean && (row.kind == Pdf ==> (a, file.body) in w.history.valid))
      && (a in w.assets && w.assets[a].status == C.Ready && a !in w.history.picked ==> Original(a) in w.objects)
  {
    hide Step, RowOk, RunOk, IntentsOk;
    AlwaysValid(setup, events);
  }

  /** Until cleanup picks it, a READY asset of any kind has its object, and an image its thumbnail too. */
  lemma ReadyObjectsArePresent(setup: Setup, events: seq<Event>, a: AssetId)
    requires var w := After(setup, events); a in w.assets && w.assets[a].status == C.Ready && a !in w.history.picked
    ensures var w := After(setup, events);
      Original(a) in w.objects && (w.assets[a].kind == Image ==> Thumbnail(a) in w.objects)
  {
    hide After, RunOk, IntentsOk, ObjectsOk;
    AlwaysValid(setup, events);
    RowIsKnown(After(setup, events), a);
  }

  /** The time check of releaseProcessing never stands in a run's way: it releases whenever its asset is still PROCESSING. */
  lemma ReleaseIsInTime(setup: Setup, events: seq<Event>, r: RunId)
    requires var w := After(setup, events); r in w.runs && w.runs[r].stage.At? && w.runs[r].stage.phase.Releasing?
    ensures var w := After(setup, events); var run := w.runs[r];
      CanRelease(w.assets, run.asset, run.owner, run.stage.claimedAt) <==> IsProcessing(w.assets, run.asset, run.owner)
  {
    hide After, RowOk, PhaseOk, ObjectsOk, PresentOk;
    AlwaysValid(setup, events);
    var w := After(setup, events);
    var run := w.runs[r];
    assert RunOk(setup, w, run);
    if run.asset in w.assets { RowIsKnown(w, run.asset); }
  }

  // ---- What the history stands for ---------------------------------------------------------

  /** The step by which a run scans `body` for asset `a` and is told it is clean. */
  ghost predicate ScansClean(w: World, e: Event, a: AssetId, body: Bytes) {
    && e.Running? && e.r in w.runs && e.answer.scan == Clean
    && w.runs[e.r].asset == a && w.runs[e.r].stage.At? && w.runs[e.r].stage.phase == Scanning(body)
  }

  ghost predicate FindsValid(w: World, e: Event, a: AssetId, body: Bytes) {
    && e.Running? && e.r in w.runs && e.answer.pdfValid
    && w.runs[e.r].asset == a && w.runs[e.r].stage.At? && w.runs[e.r].stage.phase == Validating(body)
  }

  /** Reading and putting move only their own run, and accept nothing. */
  lemma ReadFrame(w: World, r: RunId, x: Answer, matches: Object -> bool, onwards: Object -> Phase)
    requires r in w.runs && w.runs[r].stage.At?
    ensures var t := Read(w, r, x, matches, onwards); t.history == w.history && r in t.runs && t.runs == w.runs[r := t.runs[r]]
  {
  }

  lemma PutFrame(w: World, r: RunId, x: Answer, key: Option<Key>, o: Object, onwards: Phase)
    requires r in w.runs && w.runs[r].stage.At?
    ensures var t := Put(w, r, x, key, o, onwards); t.history == w.history && r in t.runs && t.runs == w.runs[r := t.runs[r]]
  {
  }

  /** The processing between claim and decision moves only its own run. */
  lemma ProcessFrame(setup: Setup, w: World, r: RunId, x: Answer)
    requires r in w.runs && w.runs[r].stage.At?
    ensures var t := Process(setup, w, r, x); r in t.runs && t.runs == w.runs[r := t.runs[r]]
    ensures !w.runs[r].stage.phase.Scanning? && !w.runs[r].stage.phase.Validating? ==> Process(setup, w, r, x).history == w.history
  {
    hide Read, Put, Dispatch, MetadataMatches, BodyMatches, StoredAs;
    var row := w.runs[r].stage.row;
    match w.runs[r].stage.phase
    case Heading => ReadFrame(w, r, x, (o: Object) => MetadataMatches(row, o), (o: Object) => Getting);
    case Getting => ReadFrame(w, r, x, (o: Object) => BodyMatches(row, o), (o: Object) => Detecting(o.body));
    case PuttingOriginal(body, image) => PutFrame(w, r, x, row.readyKey, StoredAs(image.original, Webp), PuttingThumbnail(body, image));
    case PuttingThumbnail(body, image) =>
      PutFrame(w, r, x, row.thumbnailKey, StoredAs(image.thumbnail, Webp),
               Completing(Findings(image.contentType, |body|, Some(image.width), Some(image.height))));
    case PuttingFile(body) =>
      PutFrame(w, r, x, row.readyKey, StoredAs(body, row.declaredType), Completing(Findings(row.declaredType, |body|, None, None)));
    case _ =>
  }

  lemma AcceptedByProcess(setup: Setup, w: World, r: RunId, x: Answer, a: AssetId, body: Bytes)
    requires r in w.runs && w.runs[r].stage.At?
    ensures var h := Process(setup, w, r, x).history;
      && ((a, body) in h.clean ==> (a, body) in w.history.clean || ScansClean(w, Running(r, x), a, body))
      && ((a, body) in h.valid ==> (a, body) in w.history.valid || FindsValid(w, Running(r, x), a, body))
  {
    hide Read, Put, Dispatch;
    ProcessFrame(setup, w, r, x);
  }

  lemma AcceptedOtherwise(w: World, r: RunId, x: Answer)
    requires r in w.runs
    ensures var h := Begin(w, r, x).history; h.clean == w.history.clean && h.valid == w.history.valid
    ensures w.runs[r].stage.At? ==> var h := Settle(w, r, x).history; h.clean == w.history.clean && h.valid == w.history.valid
  {
    hide Completed, CanClaim, CanRelease, CanReject, CanComplete, IsOwned, IsProcessing, Counted, TallyOf;
  }

  lemma AcceptedByStep(setup: Setup, w: World, e: Event, a: AssetId, body: Bytes)
    ensures (a, body) in Step(setup, w, e).history.clean ==> (a, body) in w.history.clean || ScansClean(w, e, a, body)
    ensures (a, body) in Step(setup, w, e).history.valid ==> (a, body) in w.history.valid || FindsValid(w, e, a, body)
  {
    hide Process, Begin, Settle, Accepts, Intent, Reset, IsStale, TallyOf, Counted, ScansClean, FindsValid;
    if e.Running? && e.r in w.runs {
      AcceptedOtherwise(w, e.r, e.answer);
      if w.runs[e.r].stage.At? { AcceptedByProcess(setup, w, e.r, e.answer, a, body); }
    }
  }

  /** A body counts as clean only because some run scanned it for this asset, and as valid likewise. */
  lemma {:induction false} AcceptedByRun(setup: Setup, events: seq<Event>, a: AssetId, body: Bytes)
    ensures (a, body) in After(setup, events).history.clean ==>
      exists i :: 0 <= i < |events| && ScansClean(After(setup, events[..i]), events[i], a, body)
    ensures (a, body) in After(setup, events).history.valid ==>
      exists i :: 0 <= i < |events| && FindsValid(After(setup, events[..i]), events[i], a, body)
    decreases |events|
  {
    hide Step, ScansClean, FindsValid;
    if events != [] {
      var last := |events| - 1;
      var before := events[..last];
      AcceptedByRun(setup, before, a, body);
      AcceptedByStep(setup, After(setup, before), events[last], a, body);
      assert forall i :: 0 <= i < last ==> before[i] == events[i] && before[..i] == events[..i];
    }
  }

  // ---- The chat tables' view -----------------------------------------------------------------

  /** On the attachment rows the chat transactions see, a step of the life cycle changes no more than they allow for. */
  lemma LifecycleSeenByChat(setup: Setup, events: seq<Event>, e: Event, a: AssetId, seen: C.Attachment)
    requires a in After(setup, events).assets && a in After(setup, events + [e]).assets
    requires seen.status == After(setup, events).assets[a].status && seen.actualSize == After(setup, events).assets[a].actualSize
    ensures var row := After(setup, events + [e]).assets[a]; C.LifecycleAllows(seen, row.status, row.actualSize)
  {
    hide Step;
    AlwaysValid(setup, events + [e]);
    ReachableRow(setup, After(setup, events + [e]), a);
    if seen.status == C.Ready { SettledStaysSettled(setup, events, e, a); }
  }
}
