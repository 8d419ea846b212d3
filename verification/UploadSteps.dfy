/** What one await of a run makes of the tables as it finds them, whoever has changed them since the run's last await. */
module UploadSteps {
  import opened Prelude
  import opened Uploads
  import C = ChatDb

  ghost predicate StandsAt(w: World, r: RunId, phase: Phase) {
    r in w.runs && w.runs[r].stage.At? && w.runs[r].stage.phase == phase
  }

  function Onwards(w: World, r: RunId, phase: Phase): map<RunId, Run>
    requires r in w.runs && w.runs[r].stage.At?
  {
    w.runs[r := w.runs[r].(stage := At(w.runs[r].stage.row, w.runs[r].stage.claimedAt, phase))]
  }

  function Ended(w: World, r: RunId, outcome: Result<Asset, Error>): map<RunId, Run>
    requires r in w.runs
  {
    w.runs[r := w.runs[r].(stage := Finished(outcome))]
  }

  /** Of the history only the count of a row's moves may have changed. */
  ghost predicate OnlyCounted(w: World, t: World) {
    t.history == w.history.(tallies := t.history.tallies)
  }

  /** The claim: refused to somebody who is no member, made on a PENDING row that had not expired when the run began, and
      otherwise the row is looked up again. */
  lemma Claims(setup: Setup, w: World, r: RunId, x: Answer)
    requires StandsAt(w, r, Claiming)
    ensures var run, t := w.runs[r], Step(setup, w, Running(r, x)); var a := run.asset;
      if (run.owner, run.conversation) !in w.members then t == w.(runs := Ended(w, r, Err(ConversationNotFound)))
      else if a in w.assets && w.assets[a].owner == run.owner && w.assets[a].conversation == run.conversation
              && w.assets[a].status == C.Pending && run.stage.claimedAt < w.assets[a].uploadExpiresAt
      then
        && t == w.(runs := Onwards(w, r, Heading), history := t.history,
                   assets := w.assets[a := w.assets[a].(status := C.Processing, updatedAt := x.now)])
        && OnlyCounted(w, t)
      else t == w.(runs := Onwards(w, r, Refetching))
  {
    hide Counted, TallyOf;
  }

  /** The second look-up, after a lost claim or after the decision: only a READY row of the caller goes on, as it is now. */
  lemma Refetches(setup: Setup, w: World, r: RunId, x: Answer)
    requires StandsAt(w, r, Refetching) || StandsAt(w, r, FindingCompleted)
    ensures var run, t := w.runs[r], Step(setup, w, Running(r, x)); var a := run.asset;
      if a in w.assets && w.assets[a].owner == run.owner && w.assets[a].conversation == run.conversation && w.assets[a].status == C.Ready
      then t == w.(runs := w.runs[r := run.(stage := At(w.assets[a], run.stage.claimedAt, RemovingIncoming))])
      else t == w.(runs := Ended(w, r, Err(Conflict)))
  {
  }

  /** The decision: a caller who is no member any more is rejected, a row that is not PROCESSING any more is a conflict. */
  lemma Decides(setup: Setup, w: World, r: RunId, x: Answer, f: Findings)
    requires StandsAt(w, r, Completing(f))
    ensures var run, t := w.runs[r], Step(setup, w, Running(r, x)); var a := run.asset;
      if (run.owner, run.conversation) !in w.members then t == w.(runs := Onwards(w, r, Rejecting(ConversationNotFound)))
      else if a in w.assets && w.assets[a].owner == run.owner && w.assets[a].conversation == run.conversation
              && w.assets[a].status == C.Processing
      then
        && t == w.(runs := Onwards(w, r, FindingCompleted), history := t.history,
                   assets := w.assets[a := w.assets[a].(
                     status := C.Ready, detectedType := Some(f.contentType), actualSize := Some(f.size),
                     width := f.width, height := f.height, updatedAt := x.now)])
        && OnlyCounted(w, t)
      else t == w.(runs := Ended(w, r, Err(Conflict)))
  {
    hide Counted, TallyOf;
  }

  /** Giving up: the exception is thrown in any case, and the row changes only if it still is where the run has brought it. */
  lemma Rejects(setup: Setup, w: World, r: RunId, x: Answer, e: Error)
    requires StandsAt(w, r, Rejecting(e))
    ensures var run, t := w.runs[r], Step(setup, w, Running(r, x)); var a := run.asset;
      && t == w.(runs := Ended(w, r, Err(e)), history := t.history, assets := t.assets) && OnlyCounted(w, t)
      && t.assets ==
        if a in w.assets && w.assets[a].owner == run.owner && w.assets[a].status in {C.Pending, C.Processing}
        then w.assets[a := w.assets[a].(status := C.Rejected, updatedAt := x.now)] else w.assets
  {
    hide Counted, TallyOf;
  }

  lemma Releases(setup: Setup, w: World, r: RunId, x: Answer, e: Error)
    requires StandsAt(w, r, ReleasingForRetry(e)) || (StandsAt(w, r, Releasing) && e == Incomplete)
    ensures var run, t := w.runs[r], Step(setup, w, Running(r, x)); var a := run.asset;
      && t == w.(runs := Ended(w, r, Err(e)), history := t.history, assets := t.assets) && OnlyCounted(w, t)
      && t.assets ==
        if a in w.assets && w.assets[a].owner == run.owner && w.assets[a].status == C.Processing
           && (run.stage.phase.Releasing? ==> run.stage.claimedAt < w.assets[a].uploadExpiresAt)
        then w.assets[a := w.assets[a].(status := C.Pending, updatedAt := x.now)] else w.assets
  {
    hide Counted, TallyOf;
  }

  /** A look at the incoming object, at its metadata or the whole of it, as it is at that moment. */
  lemma Looks(setup: Setup, w: World, r: RunId, x: Answer, whole: bool)
    requires StandsAt(w, r, if whole then Getting else Heading)
    ensures var row, t := w.runs[r].stage.row, Step(setup, w, Running(r, x));
      if row.incomingKey.None? || row.readyKey.None? then t == w.(runs := Ended(w, r, Err(Conflict)))
      else if x.fault == TooLarge then t == w.(runs := Onwards(w, r, Rejecting(InvalidFile)))
      else if x.fault == Unavailable then t == w.(runs := Onwards(w, r, ReleasingForRetry(StorageUnavailable)))
      else if row.incomingKey.value !in w.objects then t == w.(runs := Onwards(w, r, Releasing))
      else
        var o := w.objects[row.incomingKey.value];
        if o.contentType == Some(row.declaredType) && o.reportedLength == Some(row.declaredSize)
           && (whole ==> |o.body| == row.declaredSize)
           && row.declaredSize <= (if row.kind == Image then 10485760 else if row.kind == Pdf then 26214400 else 20971520)
        then t == w.(runs := Onwards(w, r, if whole then Detecting(o.body) else Getting))
        else t == w.(runs := Onwards(w, r, Rejecting(InvalidFile)))
  {
  }

  /** The answers of the image processor, the PDF check and the scanner decide how a run goes on, and what counts as accepted. */
  lemma Judges(setup: Setup, w: World, r: RunId, x: Answer, body: Bytes)
    requires r in w.runs
    ensures StandsAt(w, r, Converting(body)) ==>
      var row, t := w.runs[r].stage.row, Step(setup, w, Running(r, x));
      t == w.(runs :=
        if row.thumbnailKey.None? then Ended(w, r, Err(Conflict))
        else if x.image.Some? && x.image.value.contentType == row.declaredType then Onwards(w, r, PuttingOriginal(body, x.image.value))
        else Onwards(w, r, Rejecting(InvalidFile)))
    ensures StandsAt(w, r, Validating(body)) ==>
      Step(setup, w, Running(r, x)) ==
        if x.pdfValid
        then w.(runs := Onwards(w, r, Scanning(body)), history := w.history.(valid := w.history.valid + {(w.runs[r].asset, body)}))
        else w.(runs := Onwards(w, r, Rejecting(InvalidFile)))
    ensures StandsAt(w, r, Scanning(body)) ==>
      Step(setup, w, Running(r, x)) ==
        match x.scan
        case Clean => w.(runs := Onwards(w, r, PuttingFile(body)), history := w.history.(clean := w.history.clean + {(w.runs[r].asset, body)}))
        case Found => w.(runs := Onwards(w, r, Rejecting(InvalidFile)))
        case ScanFailed => w.(runs := Onwards(w, r, ReleasingForRetry(ScanUnavailable)))
  {
  }

  /** What a run stores, and where; a store that fails may have stored all the same. */
  lemma Stores(setup: Setup, w: World, r: RunId, x: Answer, body: Bytes, image: ImageResult)
    requires StandsAt(w, r, PuttingOriginal(body, image)) || StandsAt(w, r, PuttingThumbnail(body, image)) || StandsAt(w, r, PuttingFile(body))
    ensures var row, phase, t := w.runs[r].stage.row, w.runs[r].stage.phase, Step(setup, w, Running(r, x));
      var key := if phase.PuttingThumbnail? then row.thumbnailKey else row.readyKey;
      var bytes := if phase.PuttingOriginal? then image.original else if phase.PuttingThumbnail? then image.thumbnail else body;
      var contentType := if phase.PuttingFile? then row.declaredType else Webp;
      if key.None? then t == w.(runs := Ended(w, r, Err(Conflict)))
      else
        && t == w.(runs := t.runs, objects := t.objects)
        && t.objects == (if x.fault == NoFault || x.storedAnyway
                         then w.objects[key.value := Object(bytes, Some(contentType), Some(|bytes|))] else w.objects)
        && t.runs == Onwards(w, r,
             if x.fault != NoFault then ReleasingForRetry(StorageUnavailable)
             else if phase.PuttingOriginal? then PuttingThumbnail(body, image)
             else if phase.PuttingThumbnail? then Completing(Findings(image.contentType, |body|, Some(image.width), Some(image.height)))
             else Completing(Findings(row.declaredType, |body|, None, None)))
  {
  }

  /** The end of a run that found its row READY: the incoming object goes, then its key if the row still has it. */
  lemma CleansUp(setup: Setup, w: World, r: RunId, x: Answer)
    requires StandsAt(w, r, RemovingIncoming) || (StandsAt(w, r, ClearingKey) && w.runs[r].stage.row.incomingKey.Some?)
    ensures var run, t := w.runs[r], Step(setup, w, Running(r, x)); var a, row := run.asset, run.stage.row;
      if row.incomingKey.None? then t == w.(runs := Ended(w, r, Ok(row)))
      else if run.stage.phase.RemovingIncoming? then
        if x.fault == NoFault then t == w.(runs := Onwards(w, r, ClearingKey), objects := w.objects - {row.incomingKey.value})
        else t == w.(runs := Ended(w, r, Err(StorageUnavailable)))
      else
        t == w.(runs := Ended(w, r, Ok(row)), assets :=
          if a in w.assets && w.assets[a].incomingKey == row.incomingKey
          then w.assets[a := w.assets[a].(incomingKey := None, updatedAt := x.now)] else w.assets)
  {
  }

  /** What everybody else's steps do. */
  lemma OthersDo(setup: Setup, w: World, a: AssetId, key: Key, o: Object, members: set<(UserId, ConversationId)>)
    ensures Step(setup, w, ClientPutting(a, o)) == w.(objects := w.objects[Incoming(a) := o])
    ensures Step(setup, w, ChangingMembers(members)) == w.(members := members)
    ensures Step(setup, w, PickingForCleanup(a)) ==
      if a in w.assets then w.(history := w.history.(picked := w.history.picked + {a})) else w
    ensures Step(setup, w, CleanupDeletingObject(key)) == if key.asset in w.history.picked then w.(objects := w.objects - {key}) else w
    ensures Step(setup, w, CleanupDeletingAsset(a)) == if a in w.history.picked then w.(assets := w.assets - {a}) else w
  {
  }
}
