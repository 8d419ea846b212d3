/** completeUpload as it is written: one call after the other, awaiting in between while everybody else goes on.
    Whatever happens during the awaits, what the code does is a run of the life cycle. */
module UploadService {
  import opened Prelude
  import opened UploadPlays
  import opened Uploads
  import C = ChatDb
  import S = UploadSafety
  import D = AttachmentDtos
  import Q = QuietUploads
  import R = Runs

  /** The runs of the life cycle are what leads on from its start. */
  lemma {:induction false} StartLeads(setup: Setup, events: seq<Event>)
    ensures R.Resume(Stepper(setup), START, events) == After(setup, events)
    decreases |events|
  {
    hide Step;
    if events != [] { StartLeads(setup, events[..|events| - 1]); }
  }

  ghost predicate IsAt(run: Run, phase: Phase) {
    run.stage.At? && run.stage.phase == phase
  }

  /** The run as it was, but for its phase. */
  function Onwards(run: Run, phase: Phase): Run
    requires run.stage.At?
  {
    run.(stage := run.stage.(phase := phase))
  }

  /** The run, ended by an exception. */
  function Thrown(run: Run, e: Error): Run {
    run.(stage := Finished(Err(e)))
  }

  /** Events of others: none of them starts or moves run `r`. */
  ghost predicate Apart(events: seq<Event>, r: RunId) {
    forall e :: e in events ==> !(e.Starting? && e.r == r) && !(e.Running? && e.r == r)
  }

  lemma SettleMovesOnly(w: World, r: RunId, x: Answer, q: RunId)
    requires r in w.runs && q in w.runs && q != r
    ensures q in Begin(w, r, x).runs && Begin(w, r, x).runs[q] == w.runs[q]
    ensures w.runs[r].stage.At? ==> q in Settle(w, r, x).runs && Settle(w, r, x).runs[q] == w.runs[q]
  {
    hide Completed, Recorded, Moved;
    var a := w.runs[r].asset;
    if a in w.assets {
      forall row, cause ensures Moved(w, a, row, cause).runs == w.runs { MovedRuns(w, a, row, cause); }
    }
  }

  lemma MovedRuns(w: World, a: AssetId, row: Asset, cause: Cause)
    requires a in w.assets
    ensures Moved(w, a, row, cause).runs == w.runs
  {
  }

  lemma OthersStep(setup: Setup, w: World, e: Event, r: RunId)
    requires r in w.runs && Apart([e], r)
    ensures r in Step(setup, w, e).runs && Step(setup, w, e).runs[r] == w.runs[r]
  {
    hide Process, Begin, Settle, Accepts, Intent, Reset, IsStale, Counted, TallyOf;
    assert e in [e];
    if e.Running? && e.r in w.runs {
      SettleMovesOnly(w, e.r, e.answer, r);
      if w.runs[e.r].stage.At? { S.ProcessFrame(setup, w, e.r, e.answer); }
    }
  }

  lemma {:induction false} OthersRun(setup: Setup, w: World, events: seq<Event>, r: RunId)
    requires r in w.runs && Apart(events, r)
    ensures r in R.Resume(Stepper(setup), w, events).runs && R.Resume(Stepper(setup), w, events).runs[r] == w.runs[r]
    decreases |events|
  {
    hide Step;
    if events != [] {
      var last := events[|events| - 1];
      assert last in events;
      InPrefix(events, |events| - 1);
      OthersRun(setup, w, events[..|events| - 1], r);
      OthersStep(setup, R.Resume(Stepper(setup), w, events[..|events| - 1]), last, r);
    }
  }

  lemma ScanStep(setup: Setup, w: World, r: RunId, x: Answer, body: Bytes)
    requires r in w.runs && IsAt(w.runs[r], Scanning(body))
    ensures Advance(setup, w, r, x) ==
      match x.scan
      case ScanFailed => Next(w, r, ReleasingForRetry(ScanUnavailable))
      case Found => Next(w, r, Rejecting(InvalidFile))
      case Clean => Next(w.(history := w.history.(clean := w.history.clean + {(w.runs[r].asset, body)})), r, PuttingFile(body))
  {
  }

  lemma ConvertStep(setup: Setup, w: World, r: RunId, x: Answer, body: Bytes)
    requires r in w.runs && IsAt(w.runs[r], Converting(body))
    ensures Advance(setup, w, r, x) ==
      if w.runs[r].stage.row.thumbnailKey.None? then Failing(w, r, Conflict)
      else if x.image.None? || x.image.value.contentType != w.runs[r].stage.row.declaredType then Next(w, r, Rejecting(InvalidFile))
      else Next(w, r, PuttingOriginal(body, x.image.value))
  {
  }

  lemma CompletingStep(setup: Setup, w: World, r: RunId, x: Answer, f: Findings)
    requires r in w.runs && IsAt(w.runs[r], Completing(f))
    ensures Advance(setup, w, r, x) ==
      var run := w.runs[r];
      if (run.owner, run.conversation) !in w.members then Next(w, r, Rejecting(ConversationNotFound))
      else if CanComplete(w.assets, run.asset, run.owner, run.conversation) then
        Next(Moved(w, run.asset, Completed(w.assets[run.asset], f, x.now), Completion), r, FindingCompleted)
      else Failing(w, r, Conflict)
  {
  }

  class Backend {
    const setup: Setup
    const outside: Outside
    /** The id that is drawn for a new attachment. */
    const newId: World -> AssetId

    var assets: Assets
    var members: set<(UserId, ConversationId)>
    var objects: map<Key, Object>
    var runs: map<RunId, Run>
    var history: History
    var awaits: nat

    function View(): World reads this {
      World(assets, members, objects, runs, history)
    }

    constructor (setup: Setup, outside: Outside, newId: World -> AssetId)
      ensures View() == START && this.setup == setup && this.outside == outside && this.newId == newId
    {
      this.setup, this.outside, this.newId, awaits := setup, outside, newId, 0;
      assets, members, objects, runs, history := START.assets, START.members, START.objects, START.runs, START.history;
    }

    // ---- The repository -------------------------------------------------------------------

    method UpdateRow(a: AssetId, row: Asset, cause: Cause)
      requires a in assets
      modifies `assets, `history
      ensures View() == Moved(old(View()), a, row, cause)
    {
      history := Recorded(history, a, assets[a].status, cause);
      assets := assets[a := row];
    }

    method ClaimForProcessing(owner: UserId, c: ConversationId, a: AssetId, claimedAt: int, now: int) returns (claimed: Option<bool>)
      modifies `assets, `history
      ensures claimed.None? <==> (owner, c) !in members
      ensures claimed == Some(true) <==>
        && (owner, c) in members && a in old(assets) && old(assets)[a].owner == owner && old(assets)[a].conversation == c
        && old(assets)[a].status == C.Pending && claimedAt < old(assets)[a].uploadExpiresAt
      ensures claimed == Some(true) ==> assets == old(assets)[a := old(assets)[a].(status := C.Processing, updatedAt := now)]
      ensures claimed == if (owner, c) in members then Some(CanClaim(old(assets), a, owner, c, claimedAt)) else None
      ensures View() == if claimed == Some(true) then MovedTo(old(View()), a, C.Processing, Claim, now) else old(View())
    {
      if (owner, c) !in members {
        return None;
      }
      if a !in assets || assets[a].conversation != c || assets[a].owner != owner {
        return Some(false);
      }
      if assets[a].status != C.Pending || assets[a].uploadExpiresAt <= claimedAt {
        return Some(false);
      }
      UpdateRow(a, assets[a].(status := C.Processing, updatedAt := now), Claim);
      return Some(true);
    }

    method ReleaseProcessing(owner: UserId, a: AssetId, claimedAt: int, now: int)
      modifies `assets, `history
      ensures assets ==
        if && a in old(assets) && old(assets)[a].owner == owner && old(assets)[a].status == C.Processing
           && claimedAt < old(assets)[a].uploadExpiresAt
        then old(assets)[a := old(assets)[a].(status := C.Pending, updatedAt := now)] else old(assets)
      ensures View() == if CanRelease(old(assets), a, owner, claimedAt) then MovedTo(old(View()), a, C.Pending, Release, now) else old(View())
    {
      if a in assets && assets[a].owner == owner && assets[a].status == C.Processing && assets[a].uploadExpiresAt > claimedAt {
        UpdateRow(a, assets[a].(status := C.Pending, updatedAt := now), Release);
      }
    }

    method ReleaseProcessingForRetry(owner: UserId, a: AssetId, now: int)
      modifies `assets, `history
      ensures assets ==
        if a in old(assets) && old(assets)[a].owner == owner && old(assets)[a].status == C.Processing
        then old(assets)[a := old(assets)[a].(status := C.Pending, updatedAt := now)] else old(assets)
      ensures View() == if IsProcessing(old(assets), a, owner) then MovedTo(old(View()), a, C.Pending, Release, now) else old(View())
    {
      if a in assets && assets[a].owner == owner && assets[a].status == C.Processing {
        UpdateRow(a, assets[a].(status := C.Pending, updatedAt := now), Release);
      }
    }

    method MarkRejected(owner: UserId, a: AssetId, now: int)
      modifies `assets, `history
      ensures assets ==
        if a in old(assets) && old(assets)[a].owner == owner && (old(assets)[a].status == C.Pending || old(assets)[a].status == C.Processing)
        then old(assets)[a := old(assets)[a].(status := C.Rejected, updatedAt := now)] else old(assets)
      ensures View() == if CanReject(old(assets), a, owner) then MovedTo(old(View()), a, C.Rejected, Reject, now) else old(View())
    {
      if a in assets && assets[a].owner == owner && assets[a].status in {C.Pending, C.Processing} {
        UpdateRow(a, assets[a].(status := C.Rejected, updatedAt := now), Reject);
      }
    }

    method CompleteAttachment(owner: UserId, c: ConversationId, a: AssetId, f: Findings, now: int) returns (completed: Option<bool>)
      modifies `assets, `history
      ensures completed.None? <==> (owner, c) !in members
      ensures completed == Some(true) <==>
        && (owner, c) in members && a in old(assets) && old(assets)[a].owner == owner && old(assets)[a].conversation == c
        && old(assets)[a].status == C.Processing
      ensures completed == Some(true) ==> assets == old(assets)[a := old(assets)[a].(
        status := C.Ready, detectedType := Some(f.contentType), actualSize := Some(f.size),
        width := f.width, height := f.height, updatedAt := now)]
      ensures completed == if (owner, c) in members then Some(CanComplete(old(assets), a, owner, c)) else None
      ensures View() == if completed == Some(true) then Moved(old(View()), a, Completed(old(assets)[a], f, now), Completion) else old(View())
    {
      if (owner, c) !in members {
        return None;
      }
      if a !in assets || assets[a].owner != owner || assets[a].status != C.Processing || assets[a].conversation != c {
        return Some(false);
      }
      var row := assets[a].(status := C.Ready, detectedType := Some(f.contentType), actualSize := Some(f.size),
                            width := f.width, height := f.height, updatedAt := now);
      UpdateRow(a, row, Completion);
      return Some(true);
    }

    method ResetStaleProcessing(staleBefore: int, now: int)
      modifies `assets, `history
      ensures assets == map b | b in old(assets) ::
        if old(assets)[b].status == C.Processing && old(assets)[b].updatedAt <= staleBefore
        then old(assets)[b].(status := C.Pending, updatedAt := now) else old(assets)[b]
      ensures View() == ResetStale(old(View()), staleBefore, now)
    {
      var h, before := history, assets;
      assets := map a | a in before :: if IsStale(before[a], staleBefore) then before[a].(status := C.Pending, updatedAt := now) else before[a];
      history := h.(tallies := map a | a in before.Keys + h.tallies.Keys ::
        if a in before && IsStale(before[a], staleBefore) then Counted(TallyOf(h.tallies, a), C.Processing, StaleReset) else TallyOf(h.tallies, a));
    }

    /** The transaction behind createUpload: the membership is checked, then both rows are stored. */
    method CreatePendingAttachment(a: AssetId, q: Request, now: int) returns (row: Option<Asset>)
      requires Fresh(View(), a) && q.contentType.Some? && q.nameAllowed && q.size <= MaximumBytes(KindOf(q.contentType.value))
      modifies `assets, `history
      ensures View() == CreateUpload(old(View()), a, q, now)
      ensures row == if (q.owner, q.conversation) in members then Some(Intent(a, q, now)) else None
    {
      if (q.owner, q.conversation) !in members {
        return None;
      }
      var t := q.contentType.value;
      var kind := KindOf(t);
      var thumbnailKey := if kind == Image then Some(Thumbnail(a)) else None;
      var created := Asset(q.owner, q.conversation, q.fileName, kind, t, q.size, q.uploadExpiresAt,
                           Some(Original(a)), thumbnailKey, Some(Incoming(a)), C.Pending, None, None, None, None, now);
      assets := assets[a := created];
      history := history.(intents := history.intents[a := created]);
      return Some(created);
    }

    method DeleteAsset(a: AssetId) returns (deleted: bool)
      modifies `assets
      ensures deleted <==> a in old(assets)
      ensures assets == old(assets) - {a}
    {
      deleted := a in assets;
      assets := assets - {a};
    }

    /** Cleanup deletes an object; one that is not there is no error. */
    method DeleteObject(key: Key)
      modifies `objects
      ensures objects == old(objects) - {key}
    {
      objects := objects - {key};
    }

    /** Notes that a listing has returned asset `a`. */
    method NotePicked(a: AssetId)
      modifies `history
      ensures history == old(history).(picked := old(history).picked + {a})
    {
      history := history.(picked := history.picked + {a});
    }

    // ---- Awaiting -----------------------------------------------------------------------------

    /** While run `r` waits for its next answer, the others take their steps. */
    method Await(r: RunId) returns (x: Answer)
      requires r in runs && Apart(outside(awaits).0, r)
      modifies this
      ensures View() == Waited(setup, outside, old(View()), old(awaits)) && awaits == old(awaits) + 1
      ensures x == outside(old(awaits)).1 && r in runs && runs[r] == old(runs[r])
    {
      hide Step;
      var (events, answer) := outside(awaits);
      var w := R.Resume(Stepper(setup), View(), events);
      OthersRun(setup, View(), events, r);
      assets, members, objects, runs, history := w.assets, w.members, w.objects, w.runs, w.history;
      awaits := awaits + 1;
      return answer;
    }

    /** While another call waits, everybody takes their steps. */
    method Pause() returns (x: Answer)
      modifies this
      ensures R.Leads(Stepper(setup), old(View()), View())
      ensures View() == Waited(setup, outside, old(View()), old(awaits)) && awaits == old(awaits) + 1
      ensures x == outside(old(awaits)).1
    {
      hide Step;
      var (events, answer) := outside(awaits);
      var w := R.Resume(Stepper(setup), View(), events);
      assets, members, objects, runs, history := w.assets, w.members, w.objects, w.runs, w.history;
      awaits := awaits + 1;
      return answer;
    }

    /** Notes where run `r` goes on. */
    method Mark(r: RunId, stage: Stage)
      requires r in runs
      modifies `runs
      ensures View() == To(old(View()), r, stage)
    {
      runs := runs[r := runs[r].(stage := stage)];
    }

    /** No one else starts or moves run `r`. */
    ghost predicate Alone(r: RunId) {
      forall n :: Apart(outside(n).0, r)
    }

    // ---- Giving up --------------------------------------------------------------------------------

    method RejectAndThrow(r: RunId, e: Error)
      requires r in runs && Alone(r) && IsAt(runs[r], Rejecting(e))
      modifies this
      ensures Plays(setup, outside, r, old(View()), old(awaits), View(), awaits) && r in runs && runs[r] == Thrown(old(runs[r]), e)
    {
      hide CanReject, Plays, Waited, Moved;
      var x := Await(r);
      ghost var w := View();
      MarkRejected(runs[r].owner, runs[r].asset, x.now);
      Mark(r, Finished(Err(e)));
      assert View() == Advance(setup, w, r, x);
      OneAwait(setup, outside, r, old(View()), old(awaits));
    }

    method ReleaseAndThrow(r: RunId)
      requires r in runs && Alone(r) && IsAt(runs[r], Releasing)
      modifies this
      ensures Plays(setup, outside, r, old(View()), old(awaits), View(), awaits) && r in runs && runs[r] == Thrown(old(runs[r]), Incomplete)
    {
      hide CanRelease, Plays, Waited, Moved;
      var x := Await(r);
      ghost var w := View();
      ReleaseProcessing(runs[r].owner, runs[r].asset, runs[r].stage.claimedAt, x.now);
      Mark(r, Finished(Err(Incomplete)));
      assert View() == Advance(setup, w, r, x);
      OneAwait(setup, outside, r, old(View()), old(awaits));
    }

    method ReleaseForRetryAndThrow(r: RunId, e: Error)
      requires r in runs && Alone(r) && IsAt(runs[r], ReleasingForRetry(e))
      modifies this
      ensures Plays(setup, outside, r, old(View()), old(awaits), View(), awaits) && r in runs && runs[r] == Thrown(old(runs[r]), e)
    {
      hide IsProcessing, Plays, Waited, Moved;
      var x := Await(r);
      ghost var w := View();
      ReleaseProcessingForRetry(runs[r].owner, runs[r].asset, x.now);
      Mark(r, Finished(Err(e)));
      assert View() == Advance(setup, w, r, x);
      OneAwait(setup, outside, r, old(View()), old(awaits));
    }

    // ---- Processing -----------------------------------------------------------------------------------

    /** One look at the incoming object: its metadata, or the whole of it. */
    method Look(r: RunId, whole: bool) returns (result: Result<Object, Error>)
      requires r in runs && Alone(r) && IsAt(runs[r], if whole then Getting else Heading)
      modifies this
      ensures Plays(setup, outside, r, old(View()), old(awaits), View(), awaits) && r in runs
      ensures result.Err? ==> runs[r] == Thrown(old(runs[r]), result.error)
      ensures result.Ok? ==> runs[r] == Onwards(old(runs[r]), if whole then Detecting(result.value.body) else Getting)
      ensures var x, row := outside(old(awaits)).1, old(runs[r]).stage.row;
        if row.incomingKey.None? || row.readyKey.None? then result == Err(Conflict)
        else if x.fault == TooLarge then result == Err(InvalidFile)
        else if x.fault == Unavailable then result == Err(StorageUnavailable)
        else if result.Ok? then
          && result.value.contentType == Some(row.declaredType) && result.value.reportedLength == Some(row.declaredSize)
          && (whole ==> |result.value.body| == row.declaredSize)
        else result.error == InvalidFile || result.error == Incomplete
    {
      hide Plays, Waited, Begin, Settle, Put, Dispatch, MaximumBytes;
      ghost var start, from := View(), awaits;
      var x := Await(r);
      ghost var w := View();
      var row, claimedAt := runs[r].stage.row, runs[r].stage.claimedAt;
      OneAwait(setup, outside, r, start, from);
      if row.incomingKey.None? || row.readyKey.None? {
        Mark(r, Finished(Err(Conflict)));
        return Err(Conflict);
      }
      var key := row.incomingKey.value;
      if x.fault == NoFault && key in objects && (if whole then BodyMatches(row, objects[key]) else MetadataMatches(row, objects[key])) {
        Mark(r, At(row, claimedAt, if whole then Detecting(objects[key].body) else Getting));
        return Ok(objects[key]);
      }
      if x.fault == TooLarge || (x.fault == NoFault && key in objects) {
        Mark(r, At(row, claimedAt, Rejecting(InvalidFile)));
        label L: RejectAndThrow(r, InvalidFile);
        PlaysOn(setup, outside, r, start, from, old@L(View()), old@L(awaits), View(), awaits);
        return Err(InvalidFile);
      }
      if x.fault == NoFault {
        Mark(r, At(row, claimedAt, Releasing));
        label M: ReleaseAndThrow(r);
        PlaysOn(setup, outside, r, start, from, old@M(View()), old@M(awaits), View(), awaits);
        return Err(Incomplete);
      }
      Mark(r, At(row, claimedAt, ReleasingForRetry(StorageUnavailable)));
      label N: ReleaseForRetryAndThrow(r, StorageUnavailable);
      PlaysOn(setup, outside, r, start, from, old@N(View()), old@N(awaits), View(), awaits);
      return Err(StorageUnavailable);
    }

    /** putObject; a failed one may still have stored the object. */
    method PutObject(r: RunId, key: Option<Key>, o: Object, onwards: Phase) returns (failure: Option<Error>)
      requires r in runs && Alone(r) && runs[r].stage.At? && Puts(runs[r].stage, key, o, onwards)
      modifies this
      ensures Plays(setup, outside, r, old(View()), old(awaits), View(), awaits) && r in runs
      ensures runs[r] == if failure.Some? then Thrown(old(runs[r]), failure.value) else Onwards(old(runs[r]), onwards)
      ensures key.Some? ==> failure == if outside(old(awaits)).1.fault == NoFault then None else Some(StorageUnavailable)
      ensures failure.None? ==> awaits == old(awaits) + 1 && key.Some? && key.value in objects && objects[key.value] == o
    {
      hide Plays, Waited, StoredAs, Begin, Settle, Read, Dispatch, Apart, Counted, TallyOf, Reset, Fresh, Accepts, Intent;
      ghost var start, from := View(), awaits;
      var x := Await(r);
      ghost var w := View();
      var row, claimedAt := runs[r].stage.row, runs[r].stage.claimedAt;
      OneAwait(setup, outside, r, start, from);
      if key.None? {
        Mark(r, Finished(Err(Conflict)));
        return Some(Conflict);
      }
      if x.fault == NoFault || x.storedAnyway {
        objects := objects[key.value := o];
      }
      if x.fault == NoFault {
        Mark(r, At(row, claimedAt, onwards));
        return None;
      }
      Mark(r, At(row, claimedAt, ReleasingForRetry(StorageUnavailable)));
      label L: ReleaseForRetryAndThrow(r, StorageUnavailable);
      PlaysOn(setup, outside, r, start, from, old@L(View()), old@L(awaits), View(), awaits);
      return Some(StorageUnavailable);
    }

    method CompleteProcessedAttachment(r: RunId, findings: Findings) returns (failure: Option<Error>)
      requires r in runs && Alone(r) && IsAt(runs[r], Completing(findings))
      modifies this
      ensures Plays(setup, outside, r, old(View()), old(awaits), View(), awaits) && r in runs
      ensures runs[r] == if failure.Some? then Thrown(old(runs[r]), failure.value) else Onwards(old(runs[r]), FindingCompleted)
      ensures failure.None? || failure == Some(ConversationNotFound) || failure == Some(Conflict)
    {
      hide Plays, Waited, Advance, CanComplete, Moved, Completed, Apart, Fresh, Accepts, Intent;
      ghost var start, from := View(), awaits;
      var x := Await(r);
      ghost var w := View();
      var run := runs[r];
      OneAwait(setup, outside, r, start, from);
      CompletingStep(setup, w, r, x, findings);
      var completed := CompleteAttachment(run.owner, run.conversation, run.asset, findings, x.now);
      if completed == None {
        Mark(r, run.stage.(phase := Rejecting(ConversationNotFound)));
        label L: RejectAndThrow(r, ConversationNotFound);
        PlaysOn(setup, outside, r, start, from, old@L(View()), old@L(awaits), View(), awaits);
        return Some(ConversationNotFound);
      }
      if completed == Some(false) {
        Mark(r, Finished(Err(Conflict)));
        return Some(Conflict);
      }
      Mark(r, run.stage.(phase := FindingCompleted));
      return None;
    }

    method ProcessImageUpload(r: RunId, body: Bytes) returns (failure: Option<Error>)
      requires r in runs && Alone(r) && IsAt(runs[r], Converting(body))
      modifies this
      ensures Plays(setup, outside, r, old(View()), old(awaits), View(), awaits) && r in runs
      ensures runs[r] == if failure.Some? then Thrown(old(runs[r]), failure.value) else Onwards(old(runs[r]), FindingCompleted)
      ensures var x, y, z := outside(old(awaits)).1, outside(old(awaits) + 1).1, outside(old(awaits) + 2).1; var row := old(runs[r]).stage.row;
        row.thumbnailKey.Some? && row.readyKey.Some? ==>
          if x.image.None? || x.image.value.contentType != row.declaredType then failure == Some(InvalidFile)
          else if y.fault != NoFault || z.fault != NoFault then failure == Some(StorageUnavailable)
          else failure.None? || failure == Some(ConversationNotFound) || failure == Some(Conflict)
    {
      hide Plays, Waited, Advance, Apart, Fresh, Accepts, Intent, Counted, TallyOf, StoredAs;
      ghost var start, from := View(), awaits;
      var x := Await(r);
      ghost var w := View();
      var run := runs[r];
      var row := run.stage.row;
      OneAwait(setup, outside, r, start, from);
      ConvertStep(setup, w, r, x, body);
      if row.thumbnailKey.None? {
        Mark(r, Finished(Err(Conflict)));
        return Some(Conflict);
      }
      if x.image.None? || x.image.value.contentType != row.declaredType {
        Mark(r, run.stage.(phase := Rejecting(InvalidFile)));
        label L: RejectAndThrow(r, InvalidFile);
        PlaysOn(setup, outside, r, start, from, old@L(View()), old@L(awaits), View(), awaits);
        return Some(InvalidFile);
      }
      Mark(r, run.stage.(phase := PuttingOriginal(body, x.image.value)));
      label M: failure := StoreImage(r, body, x.image.value);
      PlaysOn(setup, outside, r, start, from, old@M(View()), old@M(awaits), View(), awaits);
    }

    /** The two objects of an image, then the decision. */
    method StoreImage(r: RunId, body: Bytes, image: ImageResult) returns (failure: Option<Error>)
      requires r in runs && Alone(r) && IsAt(runs[r], PuttingOriginal(body, image))
      modifies this
      ensures Plays(setup, outside, r, old(View()), old(awaits), View(), awaits) && r in runs
      ensures runs[r] == if failure.Some? then Thrown(old(runs[r]), failure.value) else Onwards(old(runs[r]), FindingCompleted)
      ensures var y, z := outside(old(awaits)).1, outside(old(awaits) + 1).1; var row := old(runs[r]).stage.row;
        row.thumbnailKey.Some? && row.readyKey.Some? ==>
          if y.fault != NoFault || z.fault != NoFault then failure == Some(StorageUnavailable)
          else failure.None? || failure == Some(ConversationNotFound) || failure == Some(Conflict)
    {
      hide Plays, StoredAs, Apart;
      ghost var start, from := View(), awaits;
      var row := runs[r].stage.row;
      failure := PutObject(r, row.readyKey, StoredAs(image.original, Webp), PuttingThumbnail(body, image));
      if failure.None? {
        var findings := Findings(image.contentType, |body|, Some(image.width), Some(image.height));
        label N: failure := PutObject(r, row.thumbnailKey, StoredAs(image.thumbnail, Webp), Completing(findings));
        PlaysOn(setup, outside, r, start, from, old@N(View()), old@N(awaits), View(), awaits);
        if failure.None? {
          label P: failure := CompleteProcessedAttachment(r, findings);
          PlaysOn(setup, outside, r, start, from, old@P(View()), old@P(awaits), View(), awaits);
        }
      }
    }

    method ScanAndStoreOriginalUpload(r: RunId, body: Bytes) returns (failure: Option<Error>)
      requires r in runs && Alone(r) && IsAt(runs[r], Scanning(body))
      modifies this
      ensures Plays(setup, outside, r, old(View()), old(awaits), View(), awaits) && r in runs
      ensures runs[r] == if failure.Some? then Thrown(old(runs[r]), failure.value) else Onwards(old(runs[r]), FindingCompleted)
      ensures var x, y := outside(old(awaits)).1, outside(old(awaits) + 1).1;
        if x.scan == ScanFailed then failure == Some(ScanUnavailable)
        else if x.scan == Found then failure == Some(InvalidFile)
        else old(runs[r]).stage.row.readyKey.Some? ==>
          if y.fault != NoFault then failure == Some(StorageUnavailable)
          else failure.None? || failure == Some(ConversationNotFound) || failure == Some(Conflict)
    {
      hide Plays, Waited, Advance, Apart, Fresh, Accepts, Intent;
      ghost var start, from := View(), awaits;
      var x := Await(r);
      ghost var w := View();
      var run := runs[r];
      var row := run.stage.row;
      OneAwait(setup, outside, r, start, from);
      ScanStep(setup, w, r, x, body);
      if x.scan == ScanFailed {
        Mark(r, run.stage.(phase := ReleasingForRetry(ScanUnavailable)));
        label L: ReleaseForRetryAndThrow(r, ScanUnavailable);
        PlaysOn(setup, outside, r, start, from, old@L(View()), old@L(awaits), View(), awaits);
        return Some(ScanUnavailable);
      }
      if x.scan == Found {
        Mark(r, run.stage.(phase := Rejecting(InvalidFile)));
        label M: RejectAndThrow(r, InvalidFile);
        PlaysOn(setup, outside, r, start, from, old@M(View()), old@M(awaits), View(), awaits);
        return Some(InvalidFile);
      }
      history := history.(clean := history.clean + {(run.asset, body)});
      Mark(r, run.stage.(phase := PuttingFile(body)));
      var findings := Findings(row.declaredType, |body|, None, None);
      label N: failure := PutObject(r, row.readyKey, StoredAs(body, row.declaredType), Completing(findings));
      PlaysOn(setup, outside, r, start, from, old@N(View()), old@N(awaits), View(), awaits);
      if failure.None? {
        label P: failure := CompleteProcessedAttachment(r, findings);
        PlaysOn(setup, outside, r, start, from, old@P(View()), old@P(awaits), View(), awaits);
      }
    }

    method ProcessPdfUpload(r: RunId, body: Bytes) returns (failure: Option<Error>)
      requires r in runs && Alone(r) && IsAt(runs[r], Validating(body))
      modifies this
      ensures Plays(setup, outside, r, old(View()), old(awaits), View(), awaits) && r in runs
      ensures runs[r] == if failure.Some? then Thrown(old(runs[r]), failure.value) else Onwards(old(runs[r]), FindingCompleted)
      ensures !outside(old(awaits)).1.pdfValid ==> failure == Some(InvalidFile)
      ensures outside(old(awaits)).1.pdfValid && outside(old(awaits) + 1).1.scan == Found ==> failure == Some(InvalidFile)
      ensures outside(old(awaits)).1.pdfValid && outside(old(awaits) + 1).1.scan == ScanFailed ==> failure == Some(ScanUnavailable)
    {
      hide Plays, Waited, Begin, Settle, Read, Put, Dispatch;
      ghost var start, from := View(), awaits;
      var x := Await(r);
      ghost var w := View();
      var run := runs[r];
      OneAwait(setup, outside, r, start, from);
      if !x.pdfValid {
        Mark(r, run.stage.(phase := Rejecting(InvalidFile)));
        label L: RejectAndThrow(r, InvalidFile);
        PlaysOn(setup, outside, r, start, from, old@L(View()), old@L(awaits), View(), awaits);
        return Some(InvalidFile);
      }
      history := history.(valid := history.valid + {(run.asset, body)});
      Mark(r, run.stage.(phase := Scanning(body)));
      label M: failure := ScanAndStoreOriginalUpload(r, body);
      PlaysOn(setup, outside, r, start, from, old@M(View()), old@M(awaits), View(), awaits);
    }

    /** The processor, from the claimed asset to READY or an exception. */
    method ProcessUpload(r: RunId) returns (failure: Option<Error>)
      requires r in runs && Alone(r) && IsAt(runs[r], Heading)
      modifies this
      ensures Plays(setup, outside, r, old(View()), old(awaits), View(), awaits) && r in runs
      ensures runs[r] == if failure.Some? then Thrown(old(runs[r]), failure.value) else Onwards(old(runs[r]), FindingCompleted)
    {
      hide R.Leads;
      ghost var start, from := View(), awaits;
      var metadata := Look(r, false);
      if metadata.Err? {
        return Some(metadata.error);
      }
      label L: var stored := Look(r, true);
      PlaysOn(setup, outside, r, start, from, old@L(View()), old@L(awaits), View(), awaits);
      if stored.Err? {
        return Some(stored.error);
      }
      label M: failure := Classify(r, stored.value.body);
      PlaysOn(setup, outside, r, start, from, old@M(View()), old@M(awaits), View(), awaits);
    }

    /** The checks on the detected type, and the branch of the kind. */
    method Classify(r: RunId, body: Bytes) returns (failure: Option<Error>)
      requires r in runs && Alone(r) && IsAt(runs[r], Detecting(body))
      modifies this
      ensures Plays(setup, outside, r, old(View()), old(awaits), View(), awaits) && r in runs
      ensures runs[r] == if failure.Some? then Thrown(old(runs[r]), failure.value) else Onwards(old(runs[r]), FindingCompleted)
    {
      hide Plays, Waited, Begin, Settle, Read, Put, Apart, Counted, TallyOf, Reset, Fresh, Accepts, Intent;
      ghost var start, from := View(), awaits;
      var x := Await(r);
      ghost var w := View();
      var run := runs[r];
      var row := run.stage.row;
      OneAwait(setup, outside, r, start, from);
      var detected := setup.detect(body);
      if detected.None? || detected.value != row.declaredType || KindOf(detected.value) != row.kind {
        var error := if detected.Some? && KindOf(detected.value) != row.kind then KindMismatch else InvalidFile;
        Mark(r, run.stage.(phase := Rejecting(error)));
        label L: RejectAndThrow(r, error);
        PlaysOn(setup, outside, r, start, from, old@L(View()), old@L(awaits), View(), awaits);
        return Some(error);
      }
      if row.kind == Image {
        Mark(r, run.stage.(phase := Converting(body)));
        label M: failure := ProcessImageUpload(r, body);
        PlaysOn(setup, outside, r, start, from, old@M(View()), old@M(awaits), View(), awaits);
      } else if !setup.hasScanner || (row.kind == Pdf && !setup.hasPdfProcessor) {
        Mark(r, run.stage.(phase := ReleasingForRetry(ScanUnavailable)));
        label N: ReleaseForRetryAndThrow(r, ScanUnavailable);
        PlaysOn(setup, outside, r, start, from, old@N(View()), old@N(awaits), View(), awaits);
        failure := Some(ScanUnavailable);
      } else if row.kind == Pdf {
        Mark(r, run.stage.(phase := Validating(body)));
        label P: failure := ProcessPdfUpload(r, body);
        PlaysOn(setup, outside, r, start, from, old@P(View()), old@P(awaits), View(), awaits);
      } else {
        Mark(r, run.stage.(phase := Scanning(body)));
        label Q: failure := ScanAndStoreOriginalUpload(r, body);
        PlaysOn(setup, outside, r, start, from, old@Q(View()), old@Q(awaits), View(), awaits);
      }
    }

    // ---- The upload service -------------------------------------------------------------------------

    method RemoveIncomingObject(r: RunId) returns (outcome: Result<Asset, Error>)
      requires r in runs && Alone(r) && IsAt(runs[r], RemovingIncoming)
      modifies this
      ensures Plays(setup, outside, r, old(View()), old(awaits), View(), awaits) && r in runs
      ensures runs[r] == old(runs[r]).(stage := Finished(outcome))
    {
      hide Plays, Waited;
      ghost var start, from := View(), awaits;
      var x := Await(r);
      ghost var w := View();
      var run := runs[r];
      var row := run.stage.row;
      OneAwait(setup, outside, r, start, from);
      if row.incomingKey.None? {
        Mark(r, Finished(Ok(row)));
        return Ok(row);
      }
      if x.fault != NoFault {
        Mark(r, Finished(Err(StorageUnavailable)));
        return Err(StorageUnavailable);
      }
      objects := objects - {row.incomingKey.value};
      Mark(r, run.stage.(phase := ClearingKey));
      label L: ClearIncomingObjectKey(r);
      PlaysOn(setup, outside, r, start, from, old@L(View()), old@L(awaits), View(), awaits);
      return Ok(row);
    }

    method ClearIncomingObjectKey(r: RunId)
      requires r in runs && Alone(r) && IsAt(runs[r], ClearingKey)
      modifies this
      ensures Plays(setup, outside, r, old(View()), old(awaits), View(), awaits) && r in runs
      ensures runs[r] == old(runs[r]).(stage := Finished(Ok(old(runs[r]).stage.row)))
    {
      hide Plays, Waited;
      ghost var start, from := View(), awaits;
      var x := Await(r);
      var run := runs[r];
      var row := run.stage.row;
      OneAwait(setup, outside, r, start, from);
      if run.asset in assets && assets[run.asset].incomingKey == row.incomingKey {
        assets := assets[run.asset := assets[run.asset].(incomingKey := None, updatedAt := x.now)];
      }
      Mark(r, Finished(Ok(row)));
    }

    /** The first calls: the membership, the row, the claim. Without a failure the asset is claimed for this run,
        or it is READY already. */
    method FindAndClaim(r: RunId) returns (failure: Option<Error>)
      requires r in runs && Alone(r) && runs[r].stage.Admitting?
      modifies this
      ensures Plays(setup, outside, r, old(View()), old(awaits), View(), awaits) && r in runs
      ensures failure.Some? ==> runs[r] == Thrown(old(runs[r]), failure.value)
      ensures failure.None? ==>
        && runs[r] == old(runs[r]).(stage := runs[r].stage)
        && (IsAt(runs[r], Heading) || IsAt(runs[r], RemovingIncoming))
    {
      hide Plays, Waited, Process, Settle;
      ghost var start, from := View(), awaits;
      var run := runs[r];
      var x := Await(r);
      OneAwait(setup, outside, r, start, from);
      if (run.owner, run.conversation) !in members {
        Mark(r, Finished(Err(ConversationNotFound)));
        return Some(ConversationNotFound);
      }
      Mark(r, Finding);
      label L: failure := FindInitial(r);
      PlaysOn(setup, outside, r, start, from, old@L(View()), old@L(awaits), View(), awaits);
    }

    method FindInitial(r: RunId) returns (failure: Option<Error>)
      requires r in runs && Alone(r) && runs[r].stage.Finding?
      modifies this
      ensures Plays(setup, outside, r, old(View()), old(awaits), View(), awaits) && r in runs
      ensures failure.Some? ==> runs[r] == Thrown(old(runs[r]), failure.value)
      ensures failure.None? ==>
        && runs[r] == old(runs[r]).(stage := runs[r].stage)
        && (IsAt(runs[r], Heading) || IsAt(runs[r], RemovingIncoming))
    {
      hide Plays, Waited, Process, Settle;
      ghost var start, from := View(), awaits;
      var run := runs[r];
      var x := Await(r);
      OneAwait(setup, outside, r, start, from);
      if !IsOwned(assets, run.asset, run.owner, run.conversation) {
        Mark(r, Finished(Err(UploadNotFound)));
        return Some(UploadNotFound);
      }
      var initial := assets[run.asset];
      if initial.status == C.Ready {
        Mark(r, At(initial, x.now, RemovingIncoming));
        return None;
      }
      if initial.status != C.Pending || initial.uploadExpiresAt <= x.now {
        var error := if initial.status != C.Pending then Conflict else Expired;
        Mark(r, Finished(Err(error)));
        return Some(error);
      }
      Mark(r, At(initial, x.now, Claiming));
      label M: failure := ClaimOrFind(r);
      PlaysOn(setup, outside, r, start, from, old@M(View()), old@M(awaits), View(), awaits);
    }

    method ClaimOrFind(r: RunId) returns (failure: Option<Error>)
      requires r in runs && Alone(r) && IsAt(runs[r], Claiming)
      modifies this
      ensures Plays(setup, outside, r, old(View()), old(awaits), View(), awaits) && r in runs
      ensures failure.Some? ==> runs[r] == Thrown(old(runs[r]), failure.value)
      ensures failure.None? ==>
        && runs[r] == old(runs[r]).(stage := runs[r].stage)
        && (IsAt(runs[r], Heading) || IsAt(runs[r], RemovingIncoming))
    {
      hide Plays, Waited, Moved;
      ghost var start, from := View(), awaits;
      var x := Await(r);
      ghost var w := View();
      var run := runs[r];
      OneAwait(setup, outside, r, start, from);
      var claim := ClaimForProcessing(run.owner, run.conversation, run.asset, run.stage.claimedAt, x.now);
      if claim == None {
        Mark(r, Finished(Err(ConversationNotFound)));
        return Some(ConversationNotFound);
      }
      if claim == Some(true) {
        Mark(r, run.stage.(phase := Heading));
        return None;
      }
      Mark(r, run.stage.(phase := Refetching));
      label L: failure := FindReady(r);
      PlaysOn(setup, outside, r, start, from, old@L(View()), old@L(awaits), View(), awaits);
    }

    /** Looking the row up again: it is READY now, or there is a conflict. */
    method FindReady(r: RunId) returns (failure: Option<Error>)
      requires r in runs && Alone(r) && (IsAt(runs[r], Refetching) || IsAt(runs[r], FindingCompleted))
      modifies this
      ensures Plays(setup, outside, r, old(View()), old(awaits), View(), awaits) && r in runs
      ensures failure.Some? ==> runs[r] == Thrown(old(runs[r]), failure.value)
      ensures failure.None? ==> runs[r] == old(runs[r]).(stage := runs[r].stage) && IsAt(runs[r], RemovingIncoming)
    {
      hide Plays, Waited;
      ghost var start, from := View(), awaits;
      var x := Await(r);
      var run := runs[r];
      OneAwait(setup, outside, r, start, from);
      if !IsOwned(assets, run.asset, run.owner, run.conversation) || assets[run.asset].status != C.Ready {
        Mark(r, Finished(Err(Conflict)));
        return Some(Conflict);
      }
      Mark(r, At(assets[run.asset], run.stage.claimedAt, RemovingIncoming));
      return None;
    }

    /** completeUpload: an exception, or a READY record that can be shown to the client. */
    method CompleteUpload(r: RunId, a: AssetId, owner: UserId, c: ConversationId) returns (outcome: Result<Asset, Error>)
      requires r !in runs && Alone(r) && S.Valid(setup, View())
      modifies this
      ensures Plays(setup, outside, r, Q.Started(old(View()), r, a, owner, c), old(awaits), View(), awaits) && S.Valid(setup, View())
      ensures r in runs && runs[r] == Run(a, owner, c, Finished(outcome))
      ensures outcome.Ok? ==> D.UploadDto(a, outcome.value).Ok?
      ensures var q := Q.Call(setup, outside, r, old(View()), old(awaits), a, owner, c);
        Q.Quiet(q) ==> forall n, o :: Q.HasOutcome(q, Q.WorldAt(q, n), o) ==> View() == Q.WorldAt(q, n) && outcome == o
    {
      hide Plays, R.Leads, S.Valid;
      runs := runs[r := Run(a, owner, c, Admitting)];
      ghost var start, from := View(), awaits;
      StartingLeads(setup, old(View()), r, a, owner, c);
      var failure := FindAndClaim(r);
      if failure.None? && runs[r].stage.phase == Heading {
        label M: failure := ProcessUpload(r);
        PlaysOn(setup, outside, r, start, from, old@M(View()), old@M(awaits), View(), awaits);
        if failure.None? {
          label N: failure := FindReady(r);
          PlaysOn(setup, outside, r, start, from, old@N(View()), old@N(awaits), View(), awaits);
        }
      }
      if failure.Some? {
        outcome := Err(failure.value);
      } else {
        label P: outcome := RemoveIncomingObject(r);
        PlaysOn(setup, outside, r, start, from, old@P(View()), old@P(awaits), View(), awaits);
      }
      PlaysLeads(setup, outside, r, start, from, View(), awaits);
      R.LeadsOn(Stepper(setup), old(View()), start, View());
      LeadsToValid(setup, old(View()), View());
      if outcome.Ok? { D.FinishedMaps(setup, View(), r); }
      ghost var q := Q.Call(setup, outside, r, old(View()), old(awaits), a, owner, c);
      if Q.Quiet(q) {
        forall n, o | Q.HasOutcome(q, Q.WorldAt(q, n), o) ensures View() == Q.WorldAt(q, n) && outcome == o {
          EndsQuietly(q, View(), awaits, outcome, n, o);
        }
      }
    }

    /** createUpload: the first refusal in order, or an intent that is stored; the upload link may still fail, and the row stays. */
    method CreateUploadIntent(q: Request, now: int) returns (result: Result<AssetId, Error>)
      requires S.Valid(setup, View()) && forall w :: Fresh(w, newId(w))
      modifies this
      ensures R.Leads(Stepper(setup), old(View()), View()) && S.Valid(setup, View())
      ensures
        if (q.owner, q.conversation) !in old(members) then result == Err(ConversationNotFound) && View() == old(View())
        else if q.contentType.None? then result == Err(UnsupportedFormat) && View() == old(View())
        else if q.size > MaximumBytes(KindOf(q.contentType.value)) || !q.nameAllowed then
          result == Err(InvalidFile) && View() == old(View())
        else
          var asked := Waited(setup, outside, old(View()), old(awaits));
          var a := newId(asked);
          if (q.owner, q.conversation) !in asked.members then result == Err(ConversationNotFound) && View() == asked
          else
            && result == (if outside(old(awaits) + 1).1.fault == NoFault then Ok(a) else Err(StorageUnavailable))
            && View() == Waited(setup, outside, WithIntent(asked, a, Intent(a, q, now)), old(awaits) + 1)
            && a !in old(history).intents && a in history.intents && history.intents[a] == Intent(a, q, now)
    {
      hide R.Leads, S.Valid, Intent;
      ghost var start := View();
      R.Here(Stepper(setup), start);
      if (q.owner, q.conversation) !in members {
        return Err(ConversationNotFound);
      }
      if q.contentType.None? {
        return Err(UnsupportedFormat);
      }
      if q.size > MaximumBytes(KindOf(q.contentType.value)) || !q.nameAllowed {
        return Err(InvalidFile);
      }
      var x := Pause();
      ghost var w := View();
      var a := newId(View());
      var row := CreatePendingAttachment(a, q, now);
      R.OneStep(Stepper(setup), start, w, CreatingUpload(a, q, now));
      LeadsToValid(setup, start, View());
      if row.None? {
        return Err(ConversationNotFound);
      }
      IntentsStay(setup, start, w, a);
      ghost var v := View();
      x := Pause();
      R.LeadsOn(Stepper(setup), start, v, View());
      LeadsToValid(setup, start, View());
      IntentsStay(setup, v, View(), a);
      if x.fault != NoFault {
        return Err(StorageUnavailable);
      }
      return Ok(a);
    }
  }

  /** What has happened stays known, and rows do not come back. */
  ghost predicate Later(w: World, t: World) {
    S.HistoryGrows(w.history, t.history) && forall a :: a in t.assets && a in w.history.intents ==> a in w.assets
  }

  lemma LeadsLater(setup: Setup, w: World, t: World)
    requires S.Valid(setup, w) && R.Leads(Stepper(setup), w, t)
    ensures S.Valid(setup, t) && Later(w, t)
  {
    hide Step, S.Valid, S.Absorbed;
    var inv := (v: World) => S.Valid(setup, v) && Later(w, v);
    assert inv(w);
    forall v, e | inv(v) ensures inv(Stepper(setup)(v, e)) { S.StepKeeps(setup, v, e); }
    R.LeadsKeeps(Stepper(setup), inv, w, t);
  }

  lemma IntentsStay(setup: Setup, w: World, t: World, a: AssetId)
    requires S.Valid(setup, w) && R.Leads(Stepper(setup), w, t)
    ensures a in w.history.intents ==> a in t.history.intents && t.history.intents[a] == w.history.intents[a]
  {
    hide Step, S.Valid;
    LeadsLater(setup, w, t);
  }

  lemma PickedStays(setup: Setup, w: World, t: World)
    requires S.Valid(setup, w) && R.Leads(Stepper(setup), w, t)
    ensures w.history.picked <= t.history.picked
  {
    hide Step, S.Valid;
    LeadsLater(setup, w, t);
  }

  lemma RowKnown(setup: Setup, w: World, a: AssetId)
    requires S.Valid(setup, w) && a in w.assets
    ensures S.Known(w.history.intents, a, w.assets[a])
  {
    S.RowIsKnown(w, a);
  }

  lemma CandidateKeys(setup: Setup, w: World, a: AssetId, row: Asset)
    requires S.Valid(setup, w) && S.Known(w.history.intents, a, row)
    ensures row.incomingKey.Some? ==> row.incomingKey.value.asset == a
    ensures row.readyKey.Some? ==> row.readyKey.value.asset == a
    ensures row.thumbnailKey.Some? ==> row.thumbnailKey.value.asset == a
  {
    S.IntentIsDeclared(w.history.intents, w.history.tallies, a);
  }

  /** Candidates stay candidates, and those without a row stay without one. */
  lemma RowsStayGone(setup: Setup, w: World, t: World, candidates: seq<(AssetId, Asset)>)
    requires S.Valid(setup, w) && R.Leads(Stepper(setup), w, t)
    requires forall c :: c in candidates ==> c.0 in w.history.picked && S.Known(w.history.intents, c.0, c.1)
    ensures forall c :: c in candidates ==> c.0 in t.history.picked && S.Known(t.history.intents, c.0, c.1)
    ensures forall c :: c in candidates && c.0 !in w.assets ==> c.0 !in t.assets
  {
    hide Step, S.Valid, S.SameIntent, S.Described;
    LeadsLater(setup, w, t);
  }

  function WithIntent(w: World, a: AssetId, row: Asset): World {
    w.(assets := w.assets[a := row], history := w.history.(intents := w.history.intents[a := row]))
  }

  /** What an intent records. */
  lemma IntentColumns(a: AssetId, q: Request, now: int)
    requires q.contentType.Some?
    ensures var row, t := Intent(a, q, now), q.contentType.value;
      && row.owner == q.owner && row.conversation == q.conversation && row.fileName == q.fileName
      && row.declaredType == t && row.declaredSize == q.size && row.uploadExpiresAt == q.uploadExpiresAt && row.updatedAt == now
      && row.status == C.Pending && row.incomingKey == Some(Incoming(a)) && row.readyKey == Some(Original(a))
      && (if t in {Jpeg, Png, Webp} then row.kind == Image && row.thumbnailKey == Some(Thumbnail(a)) else row.thumbnailKey.None?)
      && (t == PdfDocument ==> row.kind == Pdf) && (t == DocxDocument ==> row.kind == Docx)
      && (t == XlsxDocument ==> row.kind == Xlsx) && (t == PptxDocument ==> row.kind == Pptx)
      && row.actualSize.None? && row.detectedType.None? && row.width.None? && row.height.None?
  {
  }

  /** How large a file of each declared type may be. */
  lemma SizeLimits(t: ContentType)
    ensures MaximumBytes(KindOf(t)) ==
      if t in {Jpeg, Png, Webp} then 10485760 else if t == PdfDocument then 26214400 else 20971520
  {
  }

  lemma EndsQuietly(q: Q.Call, t: World, until: nat, outcome: Result<Asset, Error>, n: nat, o: Result<Asset, Error>)
    requires Q.Quiet(q) && Plays(q.setup, q.outside, q.r, Q.Started(q.before, q.r, q.a, q.owner, q.c), q.from, t, until)
    requires Q.HasOutcome(q, t, outcome) && Q.HasOutcome(q, Q.WorldAt(q, n), o)
    ensures t == Q.WorldAt(q, n) && outcome == o
  {
    hide Q.Quiet, Played;
    Q.QuietEnd(q, t, until, outcome, n, o);
  }

  lemma StartingLeads(setup: Setup, w: World, r: RunId, a: AssetId, owner: UserId, c: ConversationId)
    requires r !in w.runs
    ensures R.Leads(Stepper(setup), w, w.(runs := w.runs[r := Run(a, owner, c, Admitting)]))
  {
    R.Here(Stepper(setup), w);
    R.OneStep(Stepper(setup), w, w, Starting(r, a, owner, c));
  }

  /** Whatever a valid world leads to is valid. */
  lemma LeadsToValid(setup: Setup, w: World, t: World)
    requires S.Valid(setup, w) && R.Leads(Stepper(setup), w, t)
    ensures S.Valid(setup, t)
  {
    hide Step, S.Valid;
    var valid := (v: World) => S.Valid(setup, v);
    forall v, e | valid(v) ensures valid(Stepper(setup)(v, e)) { S.StepKeeps(setup, v, e); }
    R.LeadsKeeps(Stepper(setup), valid, w, t);
  }

  ghost predicate Puts(stage: Stage, key: Option<Key>, o: Object, onwards: Phase)
    requires stage.At?
  {
    match stage.phase
    case PuttingOriginal(body, image) =>
      key == stage.row.readyKey && o == StoredAs(image.original, Webp) && onwards == PuttingThumbnail(body, image)
    case PuttingThumbnail(body, image) =>
      && key == stage.row.thumbnailKey && o == StoredAs(image.thumbnail, Webp)
      && onwards == Completing(Findings(image.contentType, |body|, Some(image.width), Some(image.height)))
    case PuttingFile(body) =>
      && key == stage.row.readyKey && o == StoredAs(body, stage.row.declaredType)
      && onwards == Completing(Findings(stage.row.declaredType, |body|, None, None))
    case _ => false
  }
}
