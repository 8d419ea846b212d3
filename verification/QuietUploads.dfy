/** What completeUpload makes of each answer it may get when nobody else interferes: which exception, and the row it leaves. */
module QuietUploads {
  import opened Prelude
  import opened Uploads
  import opened UploadPlays
  import C = ChatDb
  import R = Runs
  import S = UploadSafety

  /** One call of completeUpload: the world it finds, its run, and the number of its first await. */
  datatype Call = Call(setup: Setup, outside: Outside, r: RunId, before: World, from: nat, a: AssetId, owner: UserId, c: ConversationId)

  function Started(w: World, r: RunId, a: AssetId, owner: UserId, c: ConversationId): World {
    w.(runs := w.runs[r := Run(a, owner, c, Admitting)])
  }

  /** The answer to the call's await number `n`. */
  function Answered(q: Call, n: nat): Answer {
    q.outside(q.from + n).1
  }

  function WorldAt(q: Call, n: nat): World {
    Played(q.setup, q.outside, q.r, Started(q.before, q.r, q.a, q.owner, q.c), q.from, n)
  }

  /** A sound world, a fresh run, and nobody else doing anything. */
  ghost predicate Quiet(q: Call) {
    S.Valid(q.setup, q.before) && q.r !in q.before.runs && forall k :: q.outside(k).0 == []
  }

  lemma Begun(q: Call)
    ensures WorldAt(q, 0) == Started(q.before, q.r, q.a, q.owner, q.c)
  {
  }

  lemma NextAwait(q: Call, n: nat)
    requires Quiet(q) && q.r in WorldAt(q, n).runs
    ensures WorldAt(q, n + 1) == Advance(q.setup, WorldAt(q, n), q.r, Answered(q, n))
  {
    hide Advance, S.Valid;
    var w := WorldAt(q, n);
    assert Waited(q.setup, q.outside, w, q.from + n) == w;
  }

  ghost predicate HasOutcome(q: Call, t: World, outcome: Result<Asset, Error>) {
    q.r in t.runs && t.runs[q.r] == Run(q.a, q.owner, q.c, Finished(outcome))
  }

  /** Once the run has finished it stays as it is, so the end of a call is its first finished world. */
  lemma {:induction false} FinishedStays(q: Call, n: nat, m: nat, outcome: Result<Asset, Error>)
    requires Quiet(q) && n <= m && HasOutcome(q, WorldAt(q, n), outcome)
    ensures WorldAt(q, m) == WorldAt(q, n)
    decreases m
  {
    hide S.Valid, WorldAt, Process, Settle, Quiet;
    if n < m {
      FinishedStays(q, n, m - 1, outcome);
      NextAwait(q, m - 1);
    }
  }

  // ---- Where the call stands -----------------------------------------------------------------

  /** The call's row is there, waiting for its upload, and the caller is a member. */
  ghost predicate IsPending(q: Call) {
    && (q.owner, q.c) in q.before.members && q.a in q.before.assets
    && q.before.assets[q.a].owner == q.owner && q.before.assets[q.a].conversation == q.c
    && q.before.assets[q.a].status == C.Pending && Answered(q, 1).now < q.before.assets[q.a].uploadExpiresAt
  }

  /** Nobody's row but the call's has changed, and nobody's objects. */
  ghost predicate OthersUntouched(q: Call, t: World) {
    && t.members == q.before.members && t.assets.Keys == q.before.assets.Keys
    && (forall b :: b in t.assets && b != q.a ==> t.assets[b] == q.before.assets[b])
    && (forall k: Key :: k.asset != q.a ==> (k in t.objects <==> k in q.before.objects) && (k in t.objects ==> t.objects[k] == q.before.objects[k]))
  }

  ghost predicate StandsAt(q: Call, t: World, phase: Phase)
    requires IsPending(q)
  {
    && OthersUntouched(q, t) && q.a in t.assets && q.r in t.runs
    && t.assets[q.a] == q.before.assets[q.a].(status := C.Processing, updatedAt := t.assets[q.a].updatedAt)
    && t.runs[q.r] == Run(q.a, q.owner, q.c, At(q.before.assets[q.a], Answered(q, 1).now, phase))
  }

  /** Nothing has been stored or accepted yet. */
  ghost predicate NothingStored(q: Call, t: World) {
    t.objects == q.before.objects && t.history.clean == q.before.history.clean && t.history.valid == q.before.history.valid
  }

  /** The call has ended with that exception, and its row has that status and is otherwise as it was. */
  ghost predicate Ends(q: Call, t: World, e: Error, status: C.Status)
    requires q.a in q.before.assets
  {
    && HasOutcome(q, t, Err(e)) && OthersUntouched(q, t) && q.a in t.assets
    && t.assets[q.a] == q.before.assets[q.a].(status := status, updatedAt := t.assets[q.a].updatedAt)
  }

  lemma RowIsDeclared(q: Call)
    requires S.Valid(q.setup, q.before) && IsPending(q)
    ensures var row := q.before.assets[q.a];
      && row.kind == KindOf(row.declaredType) && row.declaredSize <= MaximumBytes(row.kind)
      && row.incomingKey == Some(Incoming(q.a)) && row.readyKey == Some(Original(q.a))
      && (row.kind == Image ==> row.thumbnailKey == Some(Thumbnail(q.a)))
  {
    hide S.RunOk, S.PresentOk, S.ObjectsOk;
    var h := q.before.history;
    S.RowIsKnown(q.before, q.a);
    S.IntentIsDeclared(h.intents, h.tallies, q.a);
  }

  // ---- Up to the claim --------------------------------------------------------------------------

  /** The early exceptions: nothing at all has changed but the run itself. */
  lemma EarlyExceptions(q: Call)
    requires Quiet(q)
    ensures var w, x := q.before, Answered(q, 1); var own := q.a in w.assets && w.assets[q.a].owner == q.owner && w.assets[q.a].conversation == q.c;
      && ((q.owner, q.c) !in w.members ==> WorldAt(q, 1) == w.(runs := w.runs[q.r := Run(q.a, q.owner, q.c, Finished(Err(ConversationNotFound)))]))
      && ((q.owner, q.c) in w.members && !own ==>
           WorldAt(q, 2) == w.(runs := w.runs[q.r := Run(q.a, q.owner, q.c, Finished(Err(UploadNotFound)))]))
      && ((q.owner, q.c) in w.members && own && w.assets[q.a].status in {C.Processing, C.Rejected, C.Cancelled} ==>
           WorldAt(q, 2) == w.(runs := w.runs[q.r := Run(q.a, q.owner, q.c, Finished(Err(Conflict)))]))
      && ((q.owner, q.c) in w.members && own && w.assets[q.a].status == C.Pending && w.assets[q.a].uploadExpiresAt <= x.now ==>
           WorldAt(q, 2) == w.(runs := w.runs[q.r := Run(q.a, q.owner, q.c, Finished(Err(Expired)))]))
  {
    hide S.Valid, WorldAt;
    Begun(q);
    NextAwait(q, 0);
    NextAwait(q, 1);
  }

  /** A call that finds the row READY returns its record, and clears what is left of the incoming object. */
  lemma AlreadyReady(q: Call)
    requires Quiet(q) && (q.owner, q.c) in q.before.members && q.a in q.before.assets && q.before.assets[q.a].status == C.Ready
    requires q.before.assets[q.a].owner == q.owner && q.before.assets[q.a].conversation == q.c
    ensures var row := q.before.assets[q.a];
      && (row.incomingKey.None? ==>
           HasOutcome(q, WorldAt(q, 3), Ok(row)) && WorldAt(q, 3).assets == q.before.assets && WorldAt(q, 3).objects == q.before.objects)
      && (row.incomingKey.Some? && Answered(q, 2).fault != NoFault ==>
           && HasOutcome(q, WorldAt(q, 3), Err(StorageUnavailable)) && WorldAt(q, 3).assets == q.before.assets
           && WorldAt(q, 3).objects == q.before.objects)
      && (row.incomingKey.Some? && Answered(q, 2).fault == NoFault ==>
           && HasOutcome(q, WorldAt(q, 4), Ok(row)) && WorldAt(q, 4).objects == q.before.objects - {row.incomingKey.value}
           && WorldAt(q, 4).assets == q.before.assets[q.a := row.(incomingKey := None, updatedAt := Answered(q, 3).now)])
  {
    hide S.Valid, WorldAt;
    Begun(q);
    NextAwait(q, 0);
    assert WorldAt(q, 1).runs[q.r].stage == Finding;
    NextAwait(q, 1);
    assert WorldAt(q, 2).runs[q.r].stage == At(q.before.assets[q.a], Answered(q, 1).now, RemovingIncoming);
    NextAwait(q, 2);
    if q.before.assets[q.a].incomingKey.Some? && Answered(q, 2).fault == NoFault { NextAwait(q, 3); }
  }

  lemma IsClaimed(q: Call)
    requires Quiet(q) && IsPending(q)
    ensures StandsAt(q, WorldAt(q, 3), Heading) && NothingStored(q, WorldAt(q, 3))
  {
    hide S.Valid, WorldAt, Counted, TallyOf;
    Begun(q);
    NextAwait(q, 0);
    assert WorldAt(q, 1).runs[q.r].stage == Finding;
    NextAwait(q, 1);
    assert WorldAt(q, 2).runs[q.r].stage == At(q.before.assets[q.a], Answered(q, 1).now, Claiming);
    NextAwait(q, 2);
  }

  // ---- Giving up ------------------------------------------------------------------------------------

  ghost predicate SameStore(t: World, u: World) {
    u.objects == t.objects && u.history.clean == t.history.clean && u.history.valid == t.history.valid
  }

  lemma Rejects(q: Call, n: nat, e: Error)
    requires Quiet(q) && IsPending(q) && StandsAt(q, WorldAt(q, n), Rejecting(e))
    ensures Ends(q, WorldAt(q, n + 1), e, C.Rejected) && SameStore(WorldAt(q, n), WorldAt(q, n + 1))
  {
    hide S.Valid, WorldAt, Counted, TallyOf;
    NextAwait(q, n);
  }

  lemma Releases(q: Call, n: nat)
    requires Quiet(q) && IsPending(q) && StandsAt(q, WorldAt(q, n), Releasing)
    ensures Ends(q, WorldAt(q, n + 1), Incomplete, C.Pending) && SameStore(WorldAt(q, n), WorldAt(q, n + 1))
  {
    hide S.Valid, WorldAt, Counted, TallyOf;
    NextAwait(q, n);
  }

  lemma ReleasesForRetry(q: Call, n: nat, e: Error)
    requires Quiet(q) && IsPending(q) && StandsAt(q, WorldAt(q, n), ReleasingForRetry(e))
    ensures Ends(q, WorldAt(q, n + 1), e, C.Pending) && SameStore(WorldAt(q, n), WorldAt(q, n + 1))
  {
    hide S.Valid, WorldAt, Counted, TallyOf;
    NextAwait(q, n);
  }

  // ---- The two reads ----------------------------------------------------------------------------------

  /** One of the reads: whether the object is found to be as declared decides how the call goes on. */
  lemma ReadStep(q: Call, n: nat, whole: bool)
    requires Quiet(q) && IsPending(q) && NothingStored(q, WorldAt(q, n))
    requires StandsAt(q, WorldAt(q, n), if whole then Getting else Heading)
    ensures var x, row, key := Answered(q, n), q.before.assets[q.a], Incoming(q.a); var t := WorldAt(q, n + 1);
      && NothingStored(q, t)
      && (x.fault == TooLarge ==> StandsAt(q, t, Rejecting(InvalidFile)))
      && (x.fault == Unavailable ==> StandsAt(q, t, ReleasingForRetry(StorageUnavailable)))
      && (x.fault == NoFault && key !in q.before.objects ==> StandsAt(q, t, Releasing))
      && (x.fault == NoFault && key in q.before.objects ==>
           var o := q.before.objects[key];
           if o.contentType == Some(row.declaredType) && o.reportedLength == Some(row.declaredSize) && (whole ==> |o.body| == row.declaredSize)
           then StandsAt(q, t, if whole then Detecting(o.body) else Getting)
           else StandsAt(q, t, Rejecting(InvalidFile)))
  {
    hide S.Valid, WorldAt, KindOf;
    RowIsDeclared(q);
    NextAwait(q, n);
  }

  /** A read fails: the object is too large, the storage is down, the upload is not there yet, or it is not what was declared. */
  lemma ReadExceptions(q: Call, whole: bool)
    requires Quiet(q) && IsPending(q)
    requires whole ==>
      && Incoming(q.a) in q.before.objects && Answered(q, 3).fault == NoFault
      && q.before.objects[Incoming(q.a)].contentType == Some(q.before.assets[q.a].declaredType)
      && q.before.objects[Incoming(q.a)].reportedLength == Some(q.before.assets[q.a].declaredSize)
    ensures var n := if whole then 4 else 3; var x, row, key, t := Answered(q, n), q.before.assets[q.a], Incoming(q.a), WorldAt(q, n + 2);
      && (x.fault == TooLarge ==> Ends(q, t, InvalidFile, C.Rejected) && NothingStored(q, t))
      && (x.fault == Unavailable ==> Ends(q, t, StorageUnavailable, C.Pending) && NothingStored(q, t))
      && (x.fault == NoFault && key !in q.before.objects ==> Ends(q, t, Incomplete, C.Pending) && NothingStored(q, t))
      && (x.fault == NoFault && key in q.before.objects ==>
           var o := q.before.objects[key];
           o.contentType != Some(row.declaredType) || o.reportedLength != Some(row.declaredSize) || (whole && |o.body| != row.declaredSize) ==>
             Ends(q, t, InvalidFile, C.Rejected) && NothingStored(q, t))
  {
    hide S.Valid, WorldAt, StandsAt, Ends;
    var n := if whole then 4 else 3;
    IsClaimed(q);
    ReadStep(q, 3, false);
    if whole { ReadStep(q, 4, true); }
    var x := Answered(q, n);
    if StandsAt(q, WorldAt(q, n + 1), Rejecting(InvalidFile)) { Rejects(q, n + 1, InvalidFile); }
    if x.fault == Unavailable { ReleasesForRetry(q, n + 1, StorageUnavailable); }
    if x.fault == NoFault && Incoming(q.a) !in q.before.objects { Releases(q, n + 1); }
  }

  /** The incoming object is there, is what was declared, and is read without a fault. */
  ghost predicate IsRead(q: Call, body: Bytes)
    requires IsPending(q)
  {
    && Answered(q, 3).fault == NoFault && Answered(q, 4).fault == NoFault
    && Incoming(q.a) in q.before.objects
    && q.before.objects[Incoming(q.a)] == Object(body, Some(q.before.assets[q.a].declaredType), Some(q.before.assets[q.a].declaredSize))
    && |body| == q.before.assets[q.a].declaredSize
  }

  lemma Reads(q: Call, body: Bytes)
    requires Quiet(q) && IsPending(q) && IsRead(q, body)
    ensures StandsAt(q, WorldAt(q, 5), Detecting(body)) && NothingStored(q, WorldAt(q, 5))
  {
    hide S.Valid, WorldAt, StandsAt;
    IsClaimed(q);
    ReadStep(q, 3, false);
    ReadStep(q, 4, true);
  }

  // ---- What the bytes are ---------------------------------------------------------------------------------

  /** Bytes of no known type, of another kind, or of another type than declared are rejected. */
  lemma ContentExceptions(q: Call, body: Bytes)
    requires Quiet(q) && IsPending(q) && IsRead(q, body)
    ensures var detected, row, t := q.setup.detect(body), q.before.assets[q.a], WorldAt(q, 7);
      && (detected.None? ==> Ends(q, t, InvalidFile, C.Rejected) && NothingStored(q, t))
      && (detected.Some? && KindOf(detected.value) != row.kind ==> Ends(q, t, KindMismatch, C.Rejected) && NothingStored(q, t))
      && (detected.Some? && KindOf(detected.value) == row.kind && detected.value != row.declaredType ==>
           Ends(q, t, InvalidFile, C.Rejected) && NothingStored(q, t))
  {
    hide S.Valid, WorldAt, Ends, KindOf;
    var row := q.before.assets[q.a];
    Reads(q, body);
    NextAwait(q, 5);
    var phase := Dispatch(q.setup, row, body);
    assert StandsAt(q, WorldAt(q, 6), phase) && NothingStored(q, WorldAt(q, 6));
    hide StandsAt;
    if phase.Rejecting? { Rejects(q, 6, phase.error); }
  }

  /** A PDF or office file is released for a retry while a processor it needs is not configured. */
  lemma UnconfiguredExceptions(q: Call, body: Bytes)
    requires Quiet(q) && IsPending(q) && IsRead(q, body) && q.setup.detect(body) == Some(q.before.assets[q.a].declaredType)
    requires q.before.assets[q.a].declaredType !in {Jpeg, Png, Webp}
    requires !q.setup.hasScanner || (q.before.assets[q.a].declaredType == PdfDocument && !q.setup.hasPdfProcessor)
    ensures Ends(q, WorldAt(q, 7), ScanUnavailable, C.Pending) && NothingStored(q, WorldAt(q, 7))
  {
    hide S.Valid, WorldAt, Ends;
    RowIsDeclared(q);
    Reads(q, body);
    NextAwait(q, 5);
    assert StandsAt(q, WorldAt(q, 6), ReleasingForRetry(ScanUnavailable)) && NothingStored(q, WorldAt(q, 6));
    hide StandsAt;
    ReleasesForRetry(q, 6, ScanUnavailable);
  }

  /** What the declared type makes of matching bytes. */
  lemma Dispatched(q: Call, body: Bytes)
    requires Quiet(q) && IsPending(q) && IsRead(q, body) && q.setup.detect(body) == Some(q.before.assets[q.a].declaredType)
    ensures var type_, t := q.before.assets[q.a].declaredType, WorldAt(q, 6);
      && NothingStored(q, t)
      && (type_ in {Jpeg, Png, Webp} ==> StandsAt(q, t, Converting(body)))
      && (type_ == PdfDocument && q.setup.hasPdfProcessor && q.setup.hasScanner ==> StandsAt(q, t, Validating(body)))
      && (type_ in {DocxDocument, XlsxDocument, PptxDocument} && q.setup.hasScanner ==> StandsAt(q, t, Scanning(body)))
  {
    hide S.Valid, WorldAt;
    RowIsDeclared(q);
    Reads(q, body);
    NextAwait(q, 5);
  }

  // ---- Images ---------------------------------------------------------------------------------------------

  ghost predicate IsImage(q: Call, body: Bytes)
    requires IsPending(q)
  {
    IsRead(q, body) && q.setup.detect(body) == Some(q.before.assets[q.a].declaredType) && q.before.assets[q.a].declaredType in {Jpeg, Png, Webp}
  }

  /** An image that cannot be processed, or turns out to be of another type, is rejected, and nothing is stored. */
  lemma ImageExceptions(q: Call, body: Bytes)
    requires Quiet(q) && IsPending(q) && IsImage(q, body)
    requires Answered(q, 6).image.None? || Answered(q, 6).image.value.contentType != q.before.assets[q.a].declaredType
    ensures Ends(q, WorldAt(q, 8), InvalidFile, C.Rejected) && NothingStored(q, WorldAt(q, 8))
  {
    hide S.Valid, WorldAt, Ends;
    RowIsDeclared(q);
    Dispatched(q, body);
    NextAwait(q, 6);
    hide StandsAt;
    Rejects(q, 7, InvalidFile);
  }

  ghost predicate IsConverted(q: Call, body: Bytes, image: ImageResult)
    requires IsPending(q)
  {
    IsImage(q, body) && Answered(q, 6).image == Some(image) && image.contentType == q.before.assets[q.a].declaredType
  }

  lemma Converts(q: Call, body: Bytes, image: ImageResult)
    requires Quiet(q) && IsPending(q) && IsConverted(q, body, image)
    ensures StandsAt(q, WorldAt(q, 7), PuttingOriginal(body, image)) && NothingStored(q, WorldAt(q, 7))
  {
    hide S.Valid, WorldAt;
    RowIsDeclared(q);
    Dispatched(q, body);
    NextAwait(q, 6);
  }

  /** What is stored at `phase`, and where the call stands then. */
  ghost predicate Storing(q: Call, phase: Phase, key: Key, o: Object, next: Phase)
    requires IsPending(q)
  {
    var row := q.before.assets[q.a];
    match phase
    case PuttingOriginal(body, image) =>
      key == Original(q.a) && o == Object(image.original, Some(Webp), Some(|image.original|)) && next == PuttingThumbnail(body, image)
    case PuttingThumbnail(body, image) =>
      && key == Thumbnail(q.a) && o == Object(image.thumbnail, Some(Webp), Some(|image.thumbnail|)) && row.kind == Image
      && next == Completing(Findings(image.contentType, |body|, Some(image.width), Some(image.height)))
    case PuttingFile(body) =>
      && key == Original(q.a) && o == Object(body, Some(row.declaredType), Some(|body|))
      && next == Completing(Findings(row.declaredType, |body|, None, None))
    case _ => false
  }

  lemma StoreStep(q: Call, n: nat, phase: Phase, key: Key, o: Object, next: Phase)
    requires Quiet(q) && IsPending(q) && StandsAt(q, WorldAt(q, n), phase) && Storing(q, phase, key, o, next)
    ensures var x, t, u := Answered(q, n), WorldAt(q, n), WorldAt(q, n + 1);
      && u.history.clean == t.history.clean && u.history.valid == t.history.valid
      && u.objects == (if x.fault == NoFault || x.storedAnyway then t.objects[key := o] else t.objects)
      && (if x.fault == NoFault then StandsAt(q, u, next) else StandsAt(q, u, ReleasingForRetry(StorageUnavailable)))
  {
    hide S.Valid, WorldAt;
    RowIsDeclared(q);
    NextAwait(q, n);
  }

  /** A store that fails leaves the row PENDING for a retry, whether or not the object got there. */
  lemma StoreFails(q: Call, n: nat, phase: Phase, key: Key, o: Object, next: Phase)
    requires Quiet(q) && IsPending(q) && StandsAt(q, WorldAt(q, n), phase) && Storing(q, phase, key, o, next)
    requires Answered(q, n).fault != NoFault
    ensures Ends(q, WorldAt(q, n + 2), StorageUnavailable, C.Pending)
  {
    hide S.Valid, WorldAt, Ends, StandsAt, Storing;
    StoreStep(q, n, phase, key, o, next);
    ReleasesForRetry(q, n + 1, StorageUnavailable);
  }

  function Picture(o: Bytes): Object {
    Object(o, Some(Webp), Some(|o|))
  }

  lemma ImageStores(q: Call, body: Bytes, image: ImageResult)
    requires Quiet(q) && IsPending(q) && IsConverted(q, body, image)
    ensures Answered(q, 7).fault != NoFault ==> Ends(q, WorldAt(q, 9), StorageUnavailable, C.Pending)
    ensures Answered(q, 7).fault == NoFault && Answered(q, 8).fault != NoFault ==> Ends(q, WorldAt(q, 10), StorageUnavailable, C.Pending)
    ensures Answered(q, 7).fault == NoFault && Answered(q, 8).fault == NoFault ==>
      && StandsAt(q, WorldAt(q, 9), Completing(Findings(q.before.assets[q.a].declaredType, |body|, Some(image.width), Some(image.height))))
      && WorldAt(q, 9).objects == q.before.objects[Original(q.a) := Picture(image.original)][Thumbnail(q.a) := Picture(image.thumbnail)]
  {
    hide S.Valid, WorldAt, Ends, StandsAt;
    RowIsDeclared(q);
    Converts(q, body, image);
    var findings := Findings(image.contentType, |body|, Some(image.width), Some(image.height));
    if Answered(q, 7).fault != NoFault {
      StoreFails(q, 7, PuttingOriginal(body, image), Original(q.a), Picture(image.original), PuttingThumbnail(body, image));
    } else {
      StoreStep(q, 7, PuttingOriginal(body, image), Original(q.a), Picture(image.original), PuttingThumbnail(body, image));
      if Answered(q, 8).fault != NoFault {
        StoreFails(q, 8, PuttingThumbnail(body, image), Thumbnail(q.a), Picture(image.thumbnail), Completing(findings));
      } else {
        StoreStep(q, 8, PuttingThumbnail(body, image), Thumbnail(q.a), Picture(image.thumbnail), Completing(findings));
      }
    }
  }

  // ---- PDFs and office files ------------------------------------------------------------------------------

  /** A PDF, or an office file, for which all processors are there. */
  ghost predicate IsFile(q: Call, body: Bytes, pdf: bool)
    requires IsPending(q)
  {
    && IsRead(q, body) && q.setup.detect(body) == Some(q.before.assets[q.a].declaredType) && q.setup.hasScanner
    && if pdf then q.setup.hasPdfProcessor && q.before.assets[q.a].declaredType == PdfDocument
       else q.before.assets[q.a].declaredType in {DocxDocument, XlsxDocument, PptxDocument}
  }

  /** A PDF that does not pass the check is rejected, and nothing is stored or accepted. */
  lemma PdfExceptions(q: Call, body: Bytes)
    requires Quiet(q) && IsPending(q) && IsFile(q, body, true) && !Answered(q, 6).pdfValid
    ensures Ends(q, WorldAt(q, 8), InvalidFile, C.Rejected) && NothingStored(q, WorldAt(q, 8))
  {
    hide S.Valid, WorldAt, Ends;
    Dispatched(q, body);
    NextAwait(q, 6);
    hide StandsAt;
    Rejects(q, 7, InvalidFile);
  }

  /** Where a file is scanned: a PDF after its check. */
  function ScanAt(pdf: bool): nat { if pdf then 7 else 6 }

  ghost predicate IsScanned(q: Call, body: Bytes, pdf: bool)
    requires IsPending(q)
  {
    IsFile(q, body, pdf) && (pdf ==> Answered(q, 6).pdfValid)
  }

  lemma ReachesScan(q: Call, body: Bytes, pdf: bool)
    requires Quiet(q) && IsPending(q) && IsScanned(q, body, pdf)
    ensures var t := WorldAt(q, ScanAt(pdf));
      && StandsAt(q, t, Scanning(body)) && t.objects == q.before.objects && t.history.clean == q.before.history.clean
  {
    hide S.Valid, WorldAt;
    Dispatched(q, body);
    if pdf { NextAwait(q, 6); }
  }

  /** A failed scan leaves the row PENDING for a retry, a finding rejects it; either way nothing is stored or accepted. */
  lemma ScanExceptions(q: Call, body: Bytes, pdf: bool)
    requires Quiet(q) && IsPending(q) && IsScanned(q, body, pdf) && Answered(q, ScanAt(pdf)).scan != Clean
    ensures var t := WorldAt(q, ScanAt(pdf) + 2);
      && t.objects == q.before.objects && t.history.clean == q.before.history.clean
      && (Answered(q, ScanAt(pdf)).scan == ScanFailed ==> Ends(q, t, ScanUnavailable, C.Pending))
      && (Answered(q, ScanAt(pdf)).scan == Found ==> Ends(q, t, InvalidFile, C.Rejected))
  {
    hide S.Valid, WorldAt, Ends;
    var n := ScanAt(pdf);
    ReachesScan(q, body, pdf);
    NextAwait(q, n);
    assert SameStore(WorldAt(q, n), WorldAt(q, n + 1));
    assert StandsAt(q, WorldAt(q, n + 1), if Answered(q, n).scan == Found then Rejecting(InvalidFile) else ReleasingForRetry(ScanUnavailable));
    hide StandsAt;
    if Answered(q, n).scan == Found { Rejects(q, n + 1, InvalidFile); } else { ReleasesForRetry(q, n + 1, ScanUnavailable); }
  }

  lemma FileStores(q: Call, body: Bytes, pdf: bool)
    requires Quiet(q) && IsPending(q) && IsScanned(q, body, pdf) && Answered(q, ScanAt(pdf)).scan == Clean
    ensures var n, row := ScanAt(pdf), q.before.assets[q.a];
      if Answered(q, n + 1).fault != NoFault then Ends(q, WorldAt(q, n + 3), StorageUnavailable, C.Pending)
      else
        && StandsAt(q, WorldAt(q, n + 2), Completing(Findings(row.declaredType, |body|, None, None)))
        && WorldAt(q, n + 2).objects == q.before.objects[Original(q.a) := Object(body, Some(row.declaredType), Some(|body|))]
        && WorldAt(q, n + 2).history.clean == q.before.history.clean + {(q.a, body)}
  {
    hide S.Valid, WorldAt, Ends;
    var n, row := ScanAt(pdf), q.before.assets[q.a];
    ReachesScan(q, body, pdf);
    NextAwait(q, n);
    assert StandsAt(q, WorldAt(q, n + 1), PuttingFile(body));
    hide StandsAt;
    var o, next := Object(body, Some(row.declaredType), Some(|body|)), Completing(Findings(row.declaredType, |body|, None, None));
    if Answered(q, n + 1).fault != NoFault {
      StoreFails(q, n + 1, PuttingFile(body), Original(q.a), o, next);
    } else {
      StoreStep(q, n + 1, PuttingFile(body), Original(q.a), o, next);
    }
  }

  // ---- Completion -----------------------------------------------------------------------------------------

  /** The row is READY with these findings, and otherwise as it was but for the incoming key. */
  ghost predicate IsReady(q: Call, t: World, f: Findings, incomingKey: Option<Key>)
    requires q.a in q.before.assets
  {
    && OthersUntouched(q, t) && q.a in t.assets
    && t.assets[q.a] == q.before.assets[q.a].(
         status := C.Ready, detectedType := Some(f.contentType), actualSize := Some(f.size), width := f.width, height := f.height,
         incomingKey := incomingKey, updatedAt := t.assets[q.a].updatedAt)
  }

  /** The same, with the call at an await after its decision, holding the first record or the READY one. */
  ghost predicate ReadyAt(q: Call, t: World, f: Findings, refound: bool, phase: Phase)
    requires IsPending(q)
  {
    && IsReady(q, t, f, Some(Incoming(q.a))) && q.r in t.runs
    && t.runs[q.r] == Run(q.a, q.owner, q.c, At(if refound then t.assets[q.a] else q.before.assets[q.a], Answered(q, 1).now, phase))
  }

  lemma Decides(q: Call, n: nat, f: Findings)
    requires Quiet(q) && IsPending(q) && StandsAt(q, WorldAt(q, n), Completing(f))
    ensures ReadyAt(q, WorldAt(q, n + 1), f, false, FindingCompleted)
    ensures WorldAt(q, n + 1).objects == WorldAt(q, n).objects && WorldAt(q, n + 1).history.clean == WorldAt(q, n).history.clean
  {
    hide S.Valid, WorldAt, Counted, TallyOf;
    RowIsDeclared(q);
    NextAwait(q, n);
  }

  lemma Refinds(q: Call, n: nat, f: Findings)
    requires Quiet(q) && IsPending(q) && ReadyAt(q, WorldAt(q, n), f, false, FindingCompleted)
    ensures ReadyAt(q, WorldAt(q, n + 1), f, true, RemovingIncoming)
    ensures WorldAt(q, n + 1).objects == WorldAt(q, n).objects && WorldAt(q, n + 1).history == WorldAt(q, n).history
  {
    hide S.Valid, WorldAt, Process, Begin, Moved, MovedTo, Completed, CanClaim, CanComplete, CanReject, CanRelease, Picture;
    NextAwait(q, n);
  }

  lemma Removes(q: Call, n: nat, f: Findings)
    requires Quiet(q) && IsPending(q) && ReadyAt(q, WorldAt(q, n), f, true, RemovingIncoming)
    ensures Answered(q, n).fault != NoFault ==>
      && HasOutcome(q, WorldAt(q, n + 1), Err(StorageUnavailable)) && IsReady(q, WorldAt(q, n + 1), f, Some(Incoming(q.a)))
      && WorldAt(q, n + 1).objects == WorldAt(q, n).objects && WorldAt(q, n + 1).history == WorldAt(q, n).history
    ensures Answered(q, n).fault == NoFault ==>
      && IsReady(q, WorldAt(q, n + 1), f, Some(Incoming(q.a)))
      && ReadyAt(q, WorldAt(q, n + 1), f, true, ClearingKey)
      && WorldAt(q, n + 1).objects == WorldAt(q, n).objects - {Incoming(q.a)} && WorldAt(q, n + 1).history == WorldAt(q, n).history
  {
    hide S.Valid, WorldAt, Process, Begin, Moved, MovedTo, Completed, CanClaim, CanComplete, CanReject, CanRelease, Picture;
    NextAwait(q, n);
  }

  lemma Clears(q: Call, n: nat, f: Findings)
    requires Quiet(q) && IsPending(q) && ReadyAt(q, WorldAt(q, n), f, true, ClearingKey)
    ensures q.a in WorldAt(q, n).assets
    ensures IsReady(q, WorldAt(q, n + 1), f, None) && HasOutcome(q, WorldAt(q, n + 1), Ok(WorldAt(q, n).assets[q.a]))
    ensures WorldAt(q, n + 1).objects == WorldAt(q, n).objects && WorldAt(q, n + 1).history == WorldAt(q, n).history
  {
    hide S.Valid, WorldAt, Process, Begin, Moved, MovedTo, Completed, CanClaim, CanComplete, CanReject, CanRelease, Picture;
    NextAwait(q, n);
  }

  /** From the decision on: the row is READY, its incoming object and key go, and the call returns the READY record. When the
      object cannot be removed the call fails, but the row stays READY. */
  lemma Completes(q: Call, n: nat, f: Findings)
    requires Quiet(q) && IsPending(q) && StandsAt(q, WorldAt(q, n), Completing(f))
    ensures Answered(q, n + 2).fault != NoFault ==>
      && HasOutcome(q, WorldAt(q, n + 3), Err(StorageUnavailable)) && IsReady(q, WorldAt(q, n + 3), f, Some(Incoming(q.a)))
      && WorldAt(q, n + 3).objects == WorldAt(q, n).objects && WorldAt(q, n + 3).history.clean == WorldAt(q, n).history.clean
    ensures Answered(q, n + 2).fault == NoFault ==>
      && IsReady(q, WorldAt(q, n + 3), f, Some(Incoming(q.a))) && IsReady(q, WorldAt(q, n + 4), f, None)
      && q.a in WorldAt(q, n + 3).assets && HasOutcome(q, WorldAt(q, n + 4), Ok(WorldAt(q, n + 3).assets[q.a]))
      && WorldAt(q, n + 4).objects == WorldAt(q, n).objects - {Incoming(q.a)}
      && WorldAt(q, n + 4).history.clean == WorldAt(q, n).history.clean
  {
    hide *;
    Decides(q, n, f);
    Refinds(q, n + 1, f);
    Removes(q, n + 2, f);
    if Answered(q, n + 2).fault == NoFault { Clears(q, n + 3, f); }
  }

  // ---- An upload that ends well ---------------------------------------------------------------------------

  /** A matching image that is converted and stored ends READY with the dimensions of the conversion; its two objects are
      there and the incoming one is gone. */
  lemma ImageEndsReady(q: Call, body: Bytes, image: ImageResult)
    requires Quiet(q) && IsPending(q) && IsConverted(q, body, image)
    requires Answered(q, 7).fault == NoFault && Answered(q, 8).fault == NoFault && Answered(q, 11).fault == NoFault
    ensures var t, row := WorldAt(q, 13), q.before.assets[q.a];
      && IsReady(q, t, Findings(row.declaredType, row.declaredSize, Some(image.width), Some(image.height)), None)
      && t.objects == q.before.objects[Original(q.a) := Picture(image.original)][Thumbnail(q.a) := Picture(image.thumbnail)] - {Incoming(q.a)}
      && exists record :: HasOutcome(q, t, Ok(record)) && record == t.assets[q.a].(incomingKey := Some(Incoming(q.a)), updatedAt := record.updatedAt)
  {
    hide S.Valid, WorldAt, StandsAt, Quiet, Answered, OthersUntouched, Picture;
    var findings := Findings(q.before.assets[q.a].declaredType, |body|, Some(image.width), Some(image.height));
    ImageStores(q, body, image);
    Completes(q, 9, findings);
    var record := WorldAt(q, 12).assets[q.a];
    assert HasOutcome(q, WorldAt(q, 13), Ok(record));
  }

  /** A matching PDF or office file that passes its check and its scan ends READY, with its own bytes as the object. */
  lemma FileEndsReady(q: Call, body: Bytes, pdf: bool)
    requires Quiet(q) && IsPending(q) && IsScanned(q, body, pdf) && Answered(q, ScanAt(pdf)).scan == Clean
    requires Answered(q, ScanAt(pdf) + 1).fault == NoFault && Answered(q, ScanAt(pdf) + 4).fault == NoFault
    ensures var t, row := WorldAt(q, ScanAt(pdf) + 6), q.before.assets[q.a];
      && IsReady(q, t, Findings(row.declaredType, row.declaredSize, None, None), None)
      && t.objects == q.before.objects[Original(q.a) := Object(body, Some(row.declaredType), Some(|body|))] - {Incoming(q.a)}
      && t.history.clean == q.before.history.clean + {(q.a, body)}
      && exists record :: HasOutcome(q, t, Ok(record)) && record == t.assets[q.a].(incomingKey := Some(Incoming(q.a)), updatedAt := record.updatedAt)
  {
    hide S.Valid, WorldAt, StandsAt, Quiet, Answered, OthersUntouched;
    var n, findings := ScanAt(pdf) + 2, Findings(q.before.assets[q.a].declaredType, |body|, None, None);
    FileStores(q, body, pdf);
    Completes(q, n, findings);
    var record := WorldAt(q, n + 3).assets[q.a];
    assert HasOutcome(q, WorldAt(q, n + 4), Ok(record));
  }

  /** A call that has come to its end without interference has come to the finished world described above. */
  lemma QuietEnd(q: Call, t: World, until: nat, outcome: Result<Asset, Error>, n: nat, other: Result<Asset, Error>)
    requires Quiet(q) && q.from <= until && t == WorldAt(q, until - q.from) && HasOutcome(q, t, outcome)
    requires HasOutcome(q, WorldAt(q, n), other)
    ensures t == WorldAt(q, n) && outcome == other
  {
    hide S.Valid, WorldAt, Quiet;
    var m := until - q.from;
    if n <= m { FinishedStays(q, n, m, other); } else { FinishedStays(q, m, n, outcome); }
  }
}
