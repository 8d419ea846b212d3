/** Which listed attachments may come to belong to a live message before cleanup deletes them. */
module CleanupRaces {
  import opened Prelude
  import opened ByteFields
  import opened LiveAttachments
  import A = ChatAttachments
  import C = ChatDb
  import G = Groups
  import R = Runs
  import S = UploadSafety
  import U = Uploads

  /** A live message whose attachment was listed with that status, bound or unbound, and has lost its object. */
  ghost predicate Hurts(w: World, a: AssetId, x: C.Attachment) {
    (a, x) in w.listed && IsLive(w.chat, a) && U.Original(a) !in w.uploads.objects
  }

  ghost predicate CanHurt(setup: U.Setup, retention: nat, status: C.Status, bound: bool) {
    exists w, a, x :: Reachable(setup, retention, w) && Hurts(w, a, x) && x.status == status && x.message.Some? == bound
  }

  // ---- A run -----------------------------------------------------------------------------------

  lemma StartIsReachable(setup: U.Setup, retention: nat)
    ensures Reachable(setup, retention, START)
  {
    R.Here(Stepper(setup, retention), START);
  }

  lemma Then(setup: U.Setup, retention: nat, w: World, e: Event) returns (t: World)
    requires Reachable(setup, retention, w)
    ensures Reachable(setup, retention, t) && t == Step(setup, retention, w, e)
  {
    t := Step(setup, retention, w, e);
    R.OneStep(Stepper(setup, retention), START, w, e);
  }

  /** The bytes that user 0 uploads, a JPEG to the detector. */
  ghost predicate IsPhoto(setup: U.Setup, body: seq<byte>) {
    setup.detect(body) == Some(U.Jpeg) && |body| <= U.MaximumBytes(U.Image)
  }

  const CONVERTED := U.ImageResult(U.Jpeg, 4, 3, [], [])

  function AsOf(now: int): U.Answer {
    U.Answer(now, U.NoFault, false, Some(CONVERTED), true, U.Clean)
  }

  /** Asset 3 of user 0 in conversation 7, declared at 0 and expiring at 10. */
  function Declared(body: seq<byte>, status: C.Status, updatedAt: int): U.Asset {
    U.Asset(0, 7, "photo", U.Image, U.Jpeg, |body|, 10, Some(U.Original(3)), Some(U.Thumbnail(3)), Some(U.Incoming(3)),
            status, None, None, None, None, updatedAt)
  }

  function Row(status: C.Status, actualSize: Option<nat>): C.Attachment {
    C.Attachment(0, 7, None, 0, None, 0, status, actualSize, 10)
  }

  const MEMBER := G.Membership(G.Member, 0, None, false)

  function Tables(row: C.Attachment): C.Db {
    C.Db({0, 1}, map[7 := C.Conversation(false, None, map[0 := MEMBER, 1 := MEMBER])], map[], map[3 := row], map[], map[])
  }

  lemma Founded(setup: U.Setup, retention: nat) returns (w: World)
    ensures Reachable(setup, retention, w)
    ensures w == World(U.START.(members := {(0, 7), (1, 7)}), Tables(Row(C.Pending, None)).(attachments := map[]), {})
  {
    hide Reachable;
    StartIsReachable(setup, retention);
    w := Then(setup, retention, START, Chatting(C.SettingUsers({0, 1})));
    assert w == World(U.START, C.EMPTY.(users := {0, 1}), {});
    w := Then(setup, retention, w, Chatting(C.CreatingDirect(7, 0, 1, 0)));
    assert MembersOf(w.chat) == {(0, 7), (1, 7)};
  }

  /** The client has uploaded the photo, and run 5 has taken its time at 1 and is about to claim. */
  ghost predicate IsWaiting(w: World, body: seq<byte>) {
    && w.chat == Tables(Row(C.Pending, None)) && w.uploads.members == {(0, 7), (1, 7)}
    && w.uploads.assets == map[3 := Declared(body, C.Pending, 0)]
    && w.uploads.objects == map[U.Incoming(3) := U.StoredAs(body, U.Jpeg)]
    && w.uploads.runs == map[5 := U.Run(3, 0, 7, U.At(Declared(body, C.Pending, 0), 1, U.Claiming))]
  }

  /** A step of the uploads, as the joint step takes it. */
  lemma Uploads(setup: U.Setup, retention: nat, w: World, u: U.Event, at: int) returns (t: World)
    requires Reachable(setup, retention, w) && !u.PickingForCleanup? && !u.ChangingMembers?
    ensures Reachable(setup, retention, t) && t.uploads == U.Step(setup, w.uploads, u) && t.listed == w.listed
    ensures t.chat == w.chat.(attachments := Seen(t.uploads.assets, w.chat.attachments, at))
  {
    hide Reachable, U.Step, Seen;
    t := Then(setup, retention, w, Uploading(u, at));
  }

  /** Rows that stay as they are look the same to the chat. */
  lemma SameSight(row: U.Asset, x: C.Attachment, at: int)
    requires x.status == row.status && x.actualSize == row.actualSize
    ensures Seen(map[3 := row], map[3 := x], at) == map[3 := x]
  {
  }

  lemma Intended(setup: U.Setup, retention: nat, body: seq<byte>) returns (w: World)
    requires IsPhoto(setup, body)
    ensures Reachable(setup, retention, w) && w.chat == Tables(Row(C.Pending, None)) && w.listed == {}
    ensures w.uploads.members == {(0, 7), (1, 7)} && w.uploads.objects == map[] && w.uploads.runs == map[]
    ensures w.uploads.assets == map[3 := Declared(body, C.Pending, 0)]
  {
    hide Reachable;
    w := Founded(setup, retention);
    w := Uploads(setup, retention, w, U.CreatingUpload(3, U.Request(0, 7, "photo", true, Some(U.Jpeg), |body|, 10), 0), 0);
    assert w.uploads.assets == map[3 := Declared(body, C.Pending, 0)];
    assert w.chat == Tables(Row(C.Pending, None));
  }

  lemma Waiting(setup: U.Setup, retention: nat, body: seq<byte>) returns (w: World)
    requires IsPhoto(setup, body)
    ensures Reachable(setup, retention, w) && IsWaiting(w, body) && w.listed == {}
  {
    hide Reachable, IsPhoto, Seen;
    w := Intended(setup, retention, body);
    SameSight(Declared(body, C.Pending, 0), Row(C.Pending, None), 0);
    w := Uploads(setup, retention, w, U.ClientPutting(3, U.StoredAs(body, U.Jpeg)), 0);
    w := Uploads(setup, retention, w, U.Starting(5, 3, 0, 7), 0);
    w := Uploads(setup, retention, w, U.Running(5, AsOf(1)), 0);
    assert w.uploads.runs == map[5 := U.Run(3, 0, 7, U.Finding)];
    w := Uploads(setup, retention, w, U.Running(5, AsOf(1)), 0);
  }

  /** Run 5 has claimed the asset and is at `phase`. */
  ghost predicate IsProcessing(w: World, body: seq<byte>, phase: U.Phase) {
    && w.chat == Tables(Row(C.Processing, None)) && w.uploads.members == {(0, 7), (1, 7)}
    && w.uploads.assets == map[3 := Declared(body, C.Processing, 21)]
    && U.Incoming(3) in w.uploads.objects && w.uploads.objects[U.Incoming(3)] == U.StoredAs(body, U.Jpeg)
    && w.uploads.runs == map[5 := U.Run(3, 0, 7, U.At(Declared(body, C.Pending, 0), 1, phase))]
  }

  lemma Claimed(setup: U.Setup, retention: nat, w: World, body: seq<byte>) returns (t: World)
    requires Reachable(setup, retention, w) && IsWaiting(w, body)
    ensures Reachable(setup, retention, t) && IsProcessing(t, body, U.Heading) && t.listed == w.listed
  {
    hide Reachable;
    t := Uploads(setup, retention, w, U.Running(5, AsOf(21)), 21);
    assert t.uploads.assets == map[3 := Declared(body, C.Processing, 21)];
    assert t.chat == Tables(Row(C.Processing, None));
  }

  /** Reading the incoming object moves the run alone. */
  lemma Reads(setup: U.Setup, retention: nat, w: World, body: seq<byte>, phase: U.Phase, next: U.Phase) returns (t: World)
    requires Reachable(setup, retention, w) && IsPhoto(setup, body) && IsProcessing(w, body, phase)
    requires (phase == U.Heading && next == U.Getting) || (phase == U.Getting && next == U.Detecting(body))
    ensures Reachable(setup, retention, t) && IsProcessing(t, body, next) && t.listed == w.listed
  {
    hide Reachable, U.MaximumBytes, Seen;
    t := Uploads(setup, retention, w, U.Running(5, AsOf(22)), 22);
    SameSight(Declared(body, C.Processing, 21), Row(C.Processing, None), 22);
  }

  /** So does looking at the bytes; storing adds an object. */
  lemma Stores(setup: U.Setup, retention: nat, w: World, body: seq<byte>, phase: U.Phase, next: U.Phase) returns (t: World)
    requires Reachable(setup, retention, w) && IsPhoto(setup, body) && IsProcessing(w, body, phase)
    requires
      || (phase == U.Detecting(body) && next == U.Converting(body))
      || (phase == U.Converting(body) && next == U.PuttingOriginal(body, CONVERTED))
      || (phase == U.PuttingOriginal(body, CONVERTED) && next == U.PuttingThumbnail(body, CONVERTED))
      || (phase == U.PuttingThumbnail(body, CONVERTED) && next == U.Completing(U.Findings(U.Jpeg, |body|, Some(4), Some(3))))
    ensures Reachable(setup, retention, t) && IsProcessing(t, body, next) && t.listed == w.listed
  {
    hide Reachable, U.MaximumBytes, Seen;
    t := Uploads(setup, retention, w, U.Running(5, AsOf(23)), 23);
    SameSight(Declared(body, C.Processing, 21), Row(C.Processing, None), 23);
  }

  ghost predicate IsReady(w: World, body: seq<byte>) {
    w.chat == Tables(Row(C.Ready, Some(|body|))) && w.uploads.assets.Keys == {3} && w.uploads.assets[3].status == C.Ready
  }

  lemma Completes(setup: U.Setup, retention: nat, w: World, body: seq<byte>) returns (t: World)
    requires Reachable(setup, retention, w) && IsPhoto(setup, body) && IsWaiting(w, body)
    ensures Reachable(setup, retention, t) && IsReady(t, body) && t.listed == w.listed
  {
    hide Reachable, IsPhoto, IsProcessing, IsWaiting, Step;
    t := Claimed(setup, retention, w, body);
    t := Reads(setup, retention, t, body, U.Heading, U.Getting);
    t := Reads(setup, retention, t, body, U.Getting, U.Detecting(body));
    t := Stores(setup, retention, t, body, U.Detecting(body), U.Converting(body));
    t := Stores(setup, retention, t, body, U.Converting(body), U.PuttingOriginal(body, CONVERTED));
    t := Stores(setup, retention, t, body, U.PuttingOriginal(body, CONVERTED), U.PuttingThumbnail(body, CONVERTED));
    t := Stores(setup, retention, t, body, U.PuttingThumbnail(body, CONVERTED), U.Completing(U.Findings(U.Jpeg, |body|, Some(4), Some(3))));
    t := Decided(setup, retention, t, body);
  }

  lemma Decided(setup: U.Setup, retention: nat, w: World, body: seq<byte>) returns (t: World)
    requires Reachable(setup, retention, w) && IsProcessing(w, body, U.Completing(U.Findings(U.Jpeg, |body|, Some(4), Some(3))))
    ensures Reachable(setup, retention, t) && IsReady(t, body) && t.listed == w.listed
  {
    hide Reachable;
    t := Uploads(setup, retention, w, U.Running(5, AsOf(29)), 29);
    assert t.chat == Tables(Row(C.Ready, Some(|body|)));
  }

  // ---- Binding, and deleting what was listed -------------------------------------------------------

  function Photo(): C.NewMessage {
    C.NewMessage(7, 0, 9, true, None, [3])
  }

  lemma PhotoIsSent(db: C.Db, size: nat, m: C.MessageId, at: int)
    requires db == Tables(Row(C.Ready, Some(size))) && size <= C.MAX_TOTAL_BYTES
    ensures var t := C.CreateMessage(db, Photo(), m, at); t.1 == C.Created && IsLive(t.0, 3)
  {
    hide C.Bind, C.Touched, C.Notify, C.Recipients;
    var ids := Photo().attachmentIds;
    assert ids == [3] && ids[..0] == [];
    assert C.TotalSize(db.attachments, []) == 0;
    assert C.TotalSize(db.attachments, ids) == size;
    assert C.IsAvailable(db.attachments, Photo(), 3);
    A.CreationBinds(db, Photo(), m, at);
    var t := C.CreateMessage(db, Photo(), m, at);
    assert A.Binds(t.0, m, ids) && A.IsPart(t.0, m, ids[0], 0);
  }

  lemma IsPicked(setup: U.Setup, retention: nat, w: World, a: AssetId, x: C.Attachment)
    requires Reachable(setup, retention, w) && (a, x) in w.listed
    ensures a in w.uploads.history.picked
  {
    hide Reachable, MediaKept, ListedOk, Agree, BoundAreReady, S.Valid, A.RetentionHolds;
    ReachableIsValid(setup, retention, w);
  }

  /** The photo is READY and was listed earlier: it is bound now, and then the cleanup gets to its object. */
  lemma BoundThenDeleted(setup: U.Setup, retention: nat, w: World, body: seq<byte>, x: C.Attachment) returns (t: World)
    requires Reachable(setup, retention, w) && IsPhoto(setup, body) && IsReady(w, body) && (3, x) in w.listed
    ensures Reachable(setup, retention, t) && Hurts(t, 3, x)
  {
    hide Reachable, C.CreateMessage, MediaKept, ListedOk, Agree, BoundAreReady;
    assert 3 in w.uploads.history.picked by { IsPicked(setup, retention, w, 3, x); }
    t := Then(setup, retention, w, Chatting(C.CreatingMessage(Photo(), 11, 50)));
    PhotoIsSent(w.chat, |body|, 11, 50);
    t := Then(setup, retention, t, Uploading(U.CleanupDeletingObject(U.Original(3)), 51));
  }

  /** Listed as PENDING, ten after its expiry, while a run that took its time before the expiry has still to claim. */
  lemma PendingHurts(setup: U.Setup, retention: nat, body: seq<byte>)
    requires IsPhoto(setup, body)
    ensures CanHurt(setup, retention, C.Pending, false)
  {
    hide Reachable, IsPhoto, IsReady, Hurts;
    var x := Row(C.Pending, None);
    var w := Waiting(setup, retention, body);
    w := Then(setup, retention, w, Listing(3, 20, 5, 10));
    assert IsWaiting(w, body) && (3, x) in w.listed;
    w := Completes(setup, retention, w, body);
    w := BoundThenDeleted(setup, retention, w, body, x);
    assert Hurts(w, 3, x);
  }

  /** Listed as READY and long unbound, and sent only then. */
  lemma ReadyHurts(setup: U.Setup, retention: nat, body: seq<byte>)
    requires IsPhoto(setup, body)
    ensures CanHurt(setup, retention, C.Ready, false)
  {
    hide Reachable, IsPhoto, IsWaiting, Hurts;
    var x := Row(C.Ready, Some(|body|));
    var w := Waiting(setup, retention, body);
    w := Completes(setup, retention, w, body);
    w := Then(setup, retention, w, Listing(3, 49, 40, 39));
    assert IsReady(w, body) && (3, x) in w.listed;
    w := BoundThenDeleted(setup, retention, w, body, x);
    assert Hurts(w, 3, x);
  }

  /** No listed row is unsettled but those that were unbound and READY or PENDING. */
  lemma ListedStatus(setup: U.Setup, retention: nat, w: World, a: AssetId, x: C.Attachment)
    requires Reachable(setup, retention, w) && (a, x) in w.listed && !Settled(x)
    ensures x.status == C.Ready || x.status == C.Pending
  {
    hide Reachable, MediaKept, Agree, BoundAreReady, S.Valid, A.RetentionHolds, PickedOk, OutOfPlay;
    ReachableIsValid(setup, retention, w);
  }

  /** Cleanup takes the object of a live message's attachment in some run exactly if it listed the attachment as unbound and
      READY or PENDING. One listed with its message, or refused, is safe whatever happens before the deletion. */
  lemma CleanupSafety(setup: U.Setup, retention: nat, body: seq<byte>, status: C.Status, bound: bool)
    requires IsPhoto(setup, body)
    ensures CanHurt(setup, retention, status, bound) <==> !bound && (status == C.Ready || status == C.Pending)
  {
    hide Reachable, IsPhoto;
    if !bound && status == C.Ready {
      ReadyHurts(setup, retention, body);
    } else if !bound && status == C.Pending {
      PendingHurts(setup, retention, body);
    } else if w, a, x :| Reachable(setup, retention, w) && Hurts(w, a, x) && x.status == status && x.message.Some? == bound {
      if Settled(x) { SettledCandidatesStayOut(setup, retention, w, a, x); } else { ListedStatus(setup, retention, w, a, x); }
    }
  }
}
