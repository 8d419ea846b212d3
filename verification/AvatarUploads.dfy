/** What an avatar's completeUpload makes of its answers: await by await, whatever others have done to the tables, and as a
    whole when nobody interferes. */
module AvatarUploads {
  import opened Prelude
  import opened Avatars
  import C = ChatDb

  ghost predicate StandsAt(w: World, r: RunId, row: Asset, claimedAt: int, phase: UploadPhase) {
    r in w.runs && w.runs[r].stage == At(row, claimedAt, phase)
  }

  function Onwards(w: World, r: RunId, row: Asset, claimedAt: int, phase: UploadPhase): map<RunId, Run>
    requires r in w.runs
  {
    w.runs[r := w.runs[r].(stage := At(row, claimedAt, phase))]
  }

  function AtEnd(w: World, r: RunId): map<RunId, Run>
    requires r in w.runs
  {
    w.runs[r := w.runs[r].(stage := Ended)]
  }

  /** The run's own asset is there with that status. */
  ghost predicate IsOwn(w: World, r: RunId, status: Status)
    requires r in w.runs
  {
    w.runs[r].asset in w.assets && w.assets[w.runs[r].asset].owner == w.runs[r].owner && w.assets[w.runs[r].asset].status == status
  }

  /** The run's own asset, with another status. */
  function Restated(w: World, r: RunId, status: Status, now: int): Assets
    requires r in w.runs && w.runs[r].asset in w.assets
  {
    var a := w.runs[r].asset;
    w.assets[a := w.assets[a].(status := status, updatedAt := now)]
  }

  /** The look-up and the claim: only a PENDING asset of the owner that has not expired by the first look is claimed. */
  lemma Claims(w: World, r: RunId, x: Answer, row: Asset, claimedAt: int)
    requires r in w.runs
    ensures w.runs[r].stage == Finding ==>
      Step(w, Running(r, x)) == w.(runs :=
        if IsOwn(w, r, C.Pending) && x.now < w.assets[w.runs[r].asset].uploadExpiresAt
        then Onwards(w, r, w.assets[w.runs[r].asset], x.now, UploadPhase.Claiming) else AtEnd(w, r))
    ensures StandsAt(w, r, row, claimedAt, UploadPhase.Claiming) ==>
      Step(w, Running(r, x)) ==
        if IsOwn(w, r, C.Pending) && claimedAt < w.assets[w.runs[r].asset].uploadExpiresAt
        then w.(assets := Restated(w, r, C.Processing, x.now), runs := Onwards(w, r, row, claimedAt, Heading))
        else w.(runs := AtEnd(w, r))
  {
  }

  /** The two reads of the incoming object, its conversion, and the store. */
  lemma Processes(w: World, r: RunId, x: Answer, row: Asset, claimedAt: int, whole: bool)
    requires r in w.runs
    ensures StandsAt(w, r, row, claimedAt, if whole then Getting else Heading) ==>
      Step(w, Running(r, x)) == w.(runs :=
        if row.incomingKey.None? || row.readyKey.None? then AtEnd(w, r)
        else if x.fault || row.incomingKey.value !in w.objects then Onwards(w, r, row, claimedAt, Releasing)
        else if !x.matches then Onwards(w, r, row, claimedAt, Rejecting)
        else Onwards(w, r, row, claimedAt, if whole then Converting else Getting))
    ensures StandsAt(w, r, row, claimedAt, Converting) ==>
      Step(w, Running(r, x)) == w.(runs :=
        match x.conversion
        case Converted => Onwards(w, r, row, claimedAt, Storing)
        case Invalid => Onwards(w, r, row, claimedAt, Rejecting)
        case ConversionFailed => AtEnd(w, r))
    ensures StandsAt(w, r, row, claimedAt, Storing) && row.readyKey.Some? ==>
      Step(w, Running(r, x)) == w.(
        objects := if !x.fault || x.storedAnyway then w.objects + {row.readyKey.value} else w.objects,
        runs := Onwards(w, r, row, claimedAt, if x.fault then Releasing else Completing))
  {
  }

  /** The three ends of a claimed run. */
  lemma Decides(w: World, r: RunId, x: Answer, row: Asset, claimedAt: int)
    requires r in w.runs
    ensures StandsAt(w, r, row, claimedAt, Completing) ==>
      var a, owner := w.runs[r].asset, w.runs[r].owner;
      Step(w, Running(r, x)) ==
        if IsOwn(w, r, C.Processing) && owner in w.users && w.users[owner].active
        then w.(users := w.users[owner := User(true, Some(a), w.assets[a].publicUrl)],
                assets := Restated(w, r, C.Ready, x.now), runs := AtEnd(w, r))
        else w.(runs := AtEnd(w, r))
    ensures StandsAt(w, r, row, claimedAt, Releasing) ==>
      Step(w, Running(r, x)) ==
        if IsOwn(w, r, C.Processing) && claimedAt < w.assets[w.runs[r].asset].uploadExpiresAt
        then w.(assets := Restated(w, r, C.Pending, x.now), runs := AtEnd(w, r)) else w.(runs := AtEnd(w, r))
    ensures StandsAt(w, r, row, claimedAt, Rejecting) ==>
      Step(w, Running(r, x)) ==
        if IsOwn(w, r, C.Pending) || IsOwn(w, r, C.Processing)
        then w.(assets := Restated(w, r, C.Rejected, x.now), runs := AtEnd(w, r)) else w.(runs := AtEnd(w, r))
  {
  }

  /** What everybody else's steps do. */
  lemma OthersDo(w: World, u: UserId, active: bool, a: AssetId, r: RunId, publicUrl: string, uploadExpiresAt: int, now: int)
    ensures Step(w, SettingUser(u, active)) ==
      w.(users := w.users[u := if u in w.users then User(active, w.users[u].avatarAssetId, w.users[u].avatarUrl) else User(active, None, None)])
    ensures Step(w, ClientPutting(a)) == w.(objects := w.objects + {Incoming(a)})
    ensures Step(w, Starting(r, u, a)) == if r in w.runs then w else w.(runs := w.runs[r := Run(a, u, Finding)])
    ensures Step(w, RemovingCurrent(u)) == if u in w.users then w.(users := w.users[u := User(w.users[u].active, None, None)]) else w
    ensures var t := Step(w, CreatingPending(u, a, publicUrl, uploadExpiresAt, now));
      if a !in w.issued && u in w.users && w.users[u].active
      then
        && t == w.(assets := t.assets, issued := w.issued + {a}) && t.assets.Keys == w.assets.Keys + {a}
        && t.assets[a] == Asset(u, C.Pending, Some(publicUrl), Some(Incoming(a)), Some(Public(a)), uploadExpiresAt, now)
        && forall b :: b in w.assets && b != a ==>
             t.assets[b] == if w.assets[b].owner == u && w.assets[b].status == C.Pending
                            then w.assets[b].(status := C.Cancelled, updatedAt := now) else w.assets[b]
      else t == w
  {
  }

  // ---- Without interference ------------------------------------------------------------------

  /** The world after `n` awaits of run `r` with these answers. */
  function Went(w: World, r: RunId, xs: seq<Answer>, n: nat): World
    requires n <= |xs|
  {
    if n == 0 then w else Step(Went(w, r, xs, n - 1), Running(r, xs[n - 1]))
  }

  /** An active user's PENDING upload that is there and has not expired, and a run that is about to look at it. */
  ghost predicate IsUploaded(w: World, r: RunId, now: int) {
    && Valid(w) && r in w.runs && w.runs[r].stage == Finding && IsOwn(w, r, C.Pending)
    && now < w.assets[w.runs[r].asset].uploadExpiresAt && w.assets[w.runs[r].asset].incomingKey == Some(Incoming(w.runs[r].asset))
    && Incoming(w.runs[r].asset) in w.objects && w.runs[r].owner in w.users && w.users[w.runs[r].owner].active
  }

  /** Claimed and about to make its next await, and nothing else has changed but perhaps the objects. */
  ghost predicate IsAt(w: World, r: RunId, xs: seq<Answer>, t: World, phase: UploadPhase)
    requires |xs| >= 2 && r in w.runs && w.runs[r].asset in w.assets
  {
    && t == w.(assets := Restated(w, r, C.Processing, xs[1].now), runs := t.runs, objects := t.objects)
    && t.runs == Onwards(w, r, w.assets[w.runs[r].asset], xs[0].now, phase)
  }

  lemma IsClaimed(w: World, r: RunId, xs: seq<Answer>)
    requires |xs| >= 2 && IsUploaded(w, r, xs[0].now)
    ensures IsAt(w, r, xs, Went(w, r, xs, 2), Heading) && Went(w, r, xs, 2).objects == w.objects
  {
    hide Step, Valid;
    var t := Went(w, r, xs, 1);
    assert Went(w, r, xs, 0) == w;
    Claims(w, r, xs[0], w.assets[w.runs[r].asset], xs[0].now);
    Claims(t, r, xs[1], w.assets[w.runs[r].asset], xs[0].now);
  }

  lemma Reads(w: World, r: RunId, xs: seq<Answer>, t: World, whole: bool, x: Answer)
    requires |xs| >= 2 && IsUploaded(w, r, xs[0].now) && IsAt(w, r, xs, t, if whole then Getting else Heading) && t.objects == w.objects
    ensures var u := Step(t, Running(r, x));
      && u.objects == w.objects
      && IsAt(w, r, xs, u, if x.fault then Releasing else if !x.matches then Rejecting else if whole then Converting else Getting)
  {
    hide Step;
    assert RowOk(w.runs[r].asset, w.assets[w.runs[r].asset]);
    hide Valid;
    Processes(t, r, x, w.assets[w.runs[r].asset], xs[0].now, whole);
  }

  /** Rejected, or released for another try: nothing has changed but the status, and the run is over. */
  lemma GivesUp(w: World, r: RunId, xs: seq<Answer>, t: World, x: Answer, phase: UploadPhase)
    requires |xs| >= 2 && IsUploaded(w, r, xs[0].now) && phase in {Releasing, Rejecting} && IsAt(w, r, xs, t, phase)
    ensures var a, u := w.runs[r].asset, Step(t, Running(r, x));
      && u == w.(assets := u.assets, runs := AtEnd(w, r), objects := t.objects)
      && u.assets == w.assets[a := w.assets[a].(status := if phase == Releasing then C.Pending else C.Rejected, updatedAt := x.now)]
  {
    hide Step, Valid;
    Decides(t, r, x, w.assets[w.runs[r].asset], xs[0].now);
  }

  ghost predicate IsRead(x: Answer) {
    !x.fault && x.matches
  }

  lemma ReachesConversion(w: World, r: RunId, xs: seq<Answer>)
    requires |xs| >= 4 && IsUploaded(w, r, xs[0].now) && IsRead(xs[2]) && IsRead(xs[3])
    ensures IsAt(w, r, xs, Went(w, r, xs, 4), Converting) && Went(w, r, xs, 4).objects == w.objects
  {
    hide Step, Valid, IsUploaded, IsAt;
    IsClaimed(w, r, xs);
    Reads(w, r, xs, Went(w, r, xs, 2), false, xs[2]);
    Reads(w, r, xs, Went(w, r, xs, 3), true, xs[3]);
  }

  /** A read that fails leaves the upload PENDING, one that does not find what was declared rejects it; the users' avatars and
      the objects stay as they are. */
  lemma ReadFails(w: World, r: RunId, xs: seq<Answer>, whole: bool)
    requires var n := if whole then 3 else 2; |xs| == n + 2 && IsUploaded(w, r, xs[0].now) && !IsRead(xs[n])
    requires whole ==> IsRead(xs[2])
    ensures var a, n := w.runs[r].asset, if whole then 3 else 2; var t := Went(w, r, xs, n + 2);
      && t == w.(assets := t.assets, runs := AtEnd(w, r))
      && t.assets == w.assets[a := w.assets[a].(status := if xs[n].fault then C.Pending else C.Rejected, updatedAt := xs[n + 1].now)]
  {
    var n := if whole then 3 else 2;
    hide Step, Valid, IsUploaded;
    IsClaimed(w, r, xs);
    Reads(w, r, xs, Went(w, r, xs, 2), false, xs[2]);
    if whole { Reads(w, r, xs, Went(w, r, xs, 3), true, xs[3]); }
    GivesUp(w, r, xs, Went(w, r, xs, n + 1), xs[n + 1], if xs[n].fault then Releasing else Rejecting);
  }

  /** A picture that cannot be converted is rejected; a failure of the processor itself leaves the row PROCESSING, for cleanup
      to find. */
  lemma ConversionFails(w: World, r: RunId, xs: seq<Answer>)
    requires |xs| == 6 && IsUploaded(w, r, xs[0].now) && IsRead(xs[2]) && IsRead(xs[3]) && xs[4].conversion != Converted
    ensures var a := w.runs[r].asset; var t := Went(w, r, xs, 6);
      && t == w.(assets := t.assets, runs := AtEnd(w, r))
      && t.assets == w.assets[a := w.assets[a].(
           status := if xs[4].conversion == Invalid then C.Rejected else C.Processing,
           updatedAt := if xs[4].conversion == Invalid then xs[5].now else xs[1].now)]
  {
    hide Step, Valid;
    ReachesConversion(w, r, xs);
    Processes(Went(w, r, xs, 4), r, xs[4], w.assets[w.runs[r].asset], xs[0].now, true);
    if xs[4].conversion == Invalid {
      GivesUp(w, r, xs, Went(w, r, xs, 5), xs[5], Rejecting);
    } else {
      assert Went(w, r, xs, 6) == Went(w, r, xs, 5) by { EndedStays(Went(w, r, xs, 5), r, xs[5]); }
    }
  }

  lemma EndedStays(w: World, r: RunId, x: Answer)
    requires r in w.runs && w.runs[r].stage == Ended
    ensures Step(w, Running(r, x)) == w
  {
  }

  lemma ReachesStore(w: World, r: RunId, xs: seq<Answer>)
    requires |xs| >= 6 && IsUploaded(w, r, xs[0].now) && IsRead(xs[2]) && IsRead(xs[3]) && xs[4].conversion == Converted
    ensures IsAt(w, r, xs, Went(w, r, xs, 6), if xs[5].fault then Releasing else Completing)
    ensures Went(w, r, xs, 6).objects ==
      if !xs[5].fault || xs[5].storedAnyway then w.objects + {Public(w.runs[r].asset)} else w.objects
  {
    hide Step;
    assert RowOk(w.runs[r].asset, w.assets[w.runs[r].asset]);
    hide Valid;
    ReachesConversion(w, r, xs);
    Processes(Went(w, r, xs, 4), r, xs[4], w.assets[w.runs[r].asset], xs[0].now, true);
    Processes(Went(w, r, xs, 5), r, xs[5], w.assets[w.runs[r].asset], xs[0].now, true);
  }

  /** A store that fails leaves the upload PENDING, whether or not the object got there. */
  lemma StoreFails(w: World, r: RunId, xs: seq<Answer>)
    requires |xs| == 7 && IsUploaded(w, r, xs[0].now) && IsRead(xs[2]) && IsRead(xs[3]) && xs[4].conversion == Converted && xs[5].fault
    ensures var a := w.runs[r].asset; var t := Went(w, r, xs, 7);
      && t == w.(assets := t.assets, runs := AtEnd(w, r), objects := t.objects)
      && t.assets == w.assets[a := w.assets[a].(status := C.Pending, updatedAt := xs[6].now)]
      && t.objects == if xs[5].storedAnyway then w.objects + {Public(a)} else w.objects
  {
    hide Step, Valid, IsUploaded;
    ReachesStore(w, r, xs);
    GivesUp(w, r, xs, Went(w, r, xs, 6), xs[6], Releasing);
  }

  /** An upload that is read, converted and stored without a fault becomes its owner's avatar, in place of any earlier one. */
  lemma BecomesAvatar(w: World, r: RunId, xs: seq<Answer>)
    requires |xs| == 7 && IsUploaded(w, r, xs[0].now) && IsRead(xs[2]) && IsRead(xs[3]) && xs[4].conversion == Converted && !xs[5].fault
    ensures var a, owner, t := w.runs[r].asset, w.runs[r].owner, Went(w, r, xs, 7);
      && t.users == w.users[owner := User(true, Some(a), w.assets[a].publicUrl)]
      && t.assets == w.assets[a := w.assets[a].(status := C.Ready, updatedAt := xs[6].now)]
      && t.objects == w.objects + {Public(a)} && t.runs == AtEnd(w, r)
  {
    hide Step, Valid;
    ReachesStore(w, r, xs);
    Decides(Went(w, r, xs, 6), r, xs[6], w.assets[w.runs[r].asset], xs[0].now);
  }
}
