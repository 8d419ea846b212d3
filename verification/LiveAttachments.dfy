/** Uploads, messages and cleanup together. An attachment row is one row to all three: uploads move its status, the message
    transactions bind it and make it due, and cleanup first lists it and deletes it later. */
module LiveAttachments {
  import opened Prelude
  import A = ChatAttachments
  import C = ChatDb
  import F = ChatFrames
  import G = Groups
  import R = Runs
  import S = UploadSafety
  import U = Uploads

  type AssetId = C.AttachmentId

  /** `listed` holds every row that a cleanup listing has returned, as it was then. */
  datatype World = World(uploads: U.World, chat: C.Db, listed: set<(AssetId, C.Attachment)>)

  const START := World(U.START, C.EMPTY, {})

  function MembersOf(db: C.Db): set<(C.UserId, C.ConversationId)> {
    set c, u | c in db.conversations && u in db.conversations[c].members && G.IsActive(db.conversations[c].members, u) :: (u, c)
  }

  /** What the chat sees of a row: a step of the uploads creates it unbound, or moves its status. */
  function SeenRow(row: U.Asset, before: Option<C.Attachment>, at: int): C.Attachment {
    match before
    case None => C.Attachment(row.owner, row.conversation, None, 0, None, at, row.status, row.actualSize, row.uploadExpiresAt)
    case Some(x) => x.(status := row.status, actualSize := row.actualSize)
  }

  function Seen(assets: U.Assets, before: C.Attachments, at: int): C.Attachments {
    map a | a in assets :: SeenRow(assets[a], if a in before then Some(before[a]) else None, at)
  }

  datatype Event =
    | Chatting(e: C.Event)
    | Uploading(u: U.Event, at: int)
    | Listing(a: AssetId, now: int, unboundReadyBefore: int, staleBefore: int)

  /** The events by which the chat model stands in for uploads and cleanup. */
  predicate StandsIn(e: C.Event) {
    e.CreatingAttachment? || e.ChangingStatus? || e.CleaningUp?
  }

  function Step(setup: U.Setup, retention: nat, w: World, e: Event): World {
    match e
    case Chatting(c) =>
      if StandsIn(c) then w
      else
        var chat := C.Step(w.chat, retention, c);
        w.(chat := chat, uploads := w.uploads.(members := MembersOf(chat)))
    case Uploading(u, at) =>
      if u.PickingForCleanup? || u.ChangingMembers? then w
      else
        var uploads := U.Step(setup, w.uploads, u);
        w.(uploads := uploads, chat := w.chat.(attachments := Seen(uploads.assets, w.chat.attachments, at)))
    case Listing(a, now, unboundReadyBefore, staleBefore) =>
      if a in w.chat.attachments && C.IsCandidate(w.chat.attachments[a], now, unboundReadyBefore, staleBefore)
      then w.(uploads := U.Step(setup, w.uploads, U.PickingForCleanup(a)), listed := w.listed + {(a, w.chat.attachments[a])})
      else w
  }

  function Stepper(setup: U.Setup, retention: nat): (World, Event) -> World {
    (w, e) => Step(setup, retention, w, e)
  }

  /** What one step of all three together does: a message transaction leaves the rows to the uploads but for binding and due
      time, a step of the uploads moves the status of the rows and creates new ones unbound, and a listing records the row. */
  lemma JointSteps(setup: U.Setup, retention: nat, w: World, c: C.Event, u: U.Event, at: int)
    ensures !c.CreatingAttachment? && !c.ChangingStatus? && !c.CleaningUp? ==>
      var t := Step(setup, retention, w, Chatting(c));
      && t.chat == C.Step(w.chat, retention, c) && t.listed == w.listed && t.uploads == w.uploads.(members := t.uploads.members)
      && forall who, where_ :: (who, where_) in t.uploads.members <==>
           where_ in t.chat.conversations && who in t.chat.conversations[where_].members
           && t.chat.conversations[where_].members[who].leftAt.None?
    ensures !u.PickingForCleanup? && !u.ChangingMembers? ==>
      var t := Step(setup, retention, w, Uploading(u, at));
      && t.uploads == U.Step(setup, w.uploads, u) && t.listed == w.listed && t.chat == w.chat.(attachments := t.chat.attachments)
      && t.chat.attachments.Keys == t.uploads.assets.Keys
      && forall a :: a in t.chat.attachments ==>
           var row, x := t.uploads.assets[a], t.chat.attachments[a];
           x == if a in w.chat.attachments then w.chat.attachments[a].(status := row.status, actualSize := row.actualSize)
                else C.Attachment(row.owner, row.conversation, None, 0, None, at, row.status, row.actualSize, row.uploadExpiresAt)
  {
    hide U.Step, C.Step;
  }

  ghost predicate Reachable(setup: U.Setup, retention: nat, w: World) {
    R.Leads(Stepper(setup, retention), START, w)
  }

  // ---- The invariant ------------------------------------------------------------------------

  ghost predicate SameRow(row: U.Asset, x: C.Attachment) {
    && x.owner == row.owner && x.conversation == row.conversation && x.status == row.status
    && x.actualSize == row.actualSize && x.uploadExpiresAt == row.uploadExpiresAt
  }

  ghost predicate Agree(assets: U.Assets, atts: C.Attachments) {
    atts.Keys == assets.Keys && forall a :: a in assets ==> SameRow(assets[a], atts[a])
  }

  predicate IsLive(db: C.Db, a: AssetId) {
    && a in db.attachments && db.attachments[a].message.Some?
    && db.attachments[a].message.value in db.messages && db.messages[db.attachments[a].message.value].deletedAt.None?
  }

  predicate IsRefused(x: C.Attachment) {
    x.status == C.Rejected || x.status == C.Cancelled
  }

  /** A listed row that had its message by then, or whose upload was refused. */
  predicate Settled(x: C.Attachment) {
    x.message.Some? || IsRefused(x)
  }

  predicate Due(db: C.Db, x: C.Attachment) {
    x.message.Some? && x.message.value in db.messages && db.messages[x.message.value].deletedAt.Some?
  }

  /** No live message has this attachment, now or later: its row is gone, refused, or of a deleted message. */
  ghost predicate OutOfPlay(w: World, a: AssetId) {
    && a in w.uploads.history.intents
    && (a in w.chat.attachments ==> IsRefused(w.chat.attachments[a]) || Due(w.chat, w.chat.attachments[a]))
  }

  ghost predicate ListedOk(w: World) {
    forall a, x :: (a, x) in w.listed ==> if Settled(x) then OutOfPlay(w, a) else x.status == C.Ready || x.status == C.Pending
  }

  ghost predicate WasListed(listed: set<(AssetId, C.Attachment)>, a: AssetId) {
    exists x :: (a, x) in listed
  }

  ghost predicate PickedOk(w: World) {
    forall a :: a in w.uploads.history.picked <==> WasListed(w.listed, a)
  }

  ghost predicate BoundAreReady(atts: C.Attachments) {
    forall a :: a in atts && atts[a].message.Some? ==> atts[a].status == C.Ready
  }

  /** Cleanup has listed the attachment while it was READY or PENDING and belonged to no message. */
  ghost predicate Exposed(listed: set<(AssetId, C.Attachment)>, a: AssetId) {
    exists x :: (a, x) in listed && !Settled(x)
  }

  /** Message `m` was sent with `ids`, and has each of them at its position unless cleanup listed it too early. */
  ghost predicate Keeps(w: World, m: C.MessageId, ids: seq<AssetId>) {
    && m in w.chat.messages
    && 1 <= |ids| <= C.MAX_ATTACHMENTS && C.NoRepetition(ids)
    && (forall p :: 0 <= p < |ids| ==> Exposed(w.listed, ids[p]) || A.IsPart(w.chat, m, ids[p], p))
    && (forall a :: a in w.chat.attachments && w.chat.attachments[a].message == Some(m) ==> a in ids)
  }

  ghost predicate MediaKept(w: World) {
    forall m :: m in w.chat.messages && w.chat.messages[m].isMedia && w.chat.messages[m].deletedAt.None? ==> exists ids :: Keeps(w, m, ids)
  }

  ghost predicate Valid(setup: U.Setup, retention: nat, w: World) {
    && S.Valid(setup, w.uploads) && Agree(w.uploads.assets, w.chat.attachments)
    && A.RetentionHolds(w.chat, retention) && BoundAreReady(w.chat.attachments)
    && ListedOk(w) && PickedOk(w) && MediaKept(w)
  }

  // ---- What every step keeps ------------------------------------------------------------------

  ghost predicate RowMoves(x: C.Attachment, y: C.Attachment) {
    && y.owner == x.owner && y.conversation == x.conversation
    && (x.message.Some? ==> y.message == x.message && y.position == x.position)
    && (x.status == C.Ready ==> y.status == C.Ready && y.actualSize == x.actualSize)
    && (IsRefused(x) ==> y.status == x.status)
  }

  /** Rows go only after a listing, never come back, and only new messages bind unbound ones. */
  ghost predicate RowsMove(w: World, t: World) {
    && (forall a :: a in w.chat.attachments && a in t.chat.attachments ==> RowMoves(w.chat.attachments[a], t.chat.attachments[a]))
    && (forall a :: a in w.chat.attachments && a !in t.chat.attachments ==> a in w.uploads.history.picked)
    && (forall a :: a in t.chat.attachments && a in w.uploads.history.intents ==> a in w.chat.attachments)
    && (forall a :: a in t.chat.attachments && t.chat.attachments[a].message.Some? && t.chat.attachments[a].message.value in w.chat.messages ==>
          a in w.chat.attachments && w.chat.attachments[a].message == t.chat.attachments[a].message)
  }

  ghost predicate MessagesMove(db: C.Db, d: C.Db) {
    forall m :: m in db.messages ==> m in d.messages && F.SameMessage(db.messages[m], d.messages[m])
  }

  ghost predicate Moves(w: World, t: World) {
    && RowsMove(w, t) && MessagesMove(w.chat, t.chat)
    && (forall a :: a in w.uploads.history.intents ==> a in t.uploads.history.intents)
    && w.listed <= t.listed
  }

  lemma StaysOut(w: World, t: World, a: AssetId)
    requires OutOfPlay(w, a) && Moves(w, t)
    ensures OutOfPlay(t, a)
  {
  }

  lemma NotLive(w: World, a: AssetId)
    requires OutOfPlay(w, a) && BoundAreReady(w.chat.attachments)
    ensures !IsLive(w.chat, a)
  {
  }

  lemma LiveIsNotPicked(w: World, a: AssetId)
    requires ListedOk(w) && PickedOk(w) && BoundAreReady(w.chat.attachments)
    requires IsLive(w.chat, a) && !Exposed(w.listed, a)
    ensures a !in w.uploads.history.picked
  {
    hide OutOfPlay, IsLive, BoundAreReady;
    if a in w.uploads.history.picked {
      var x :| (a, x) in w.listed;
      NotLive(w, a);
    }
  }

  /** Earlier listings stay justified. */
  lemma ListingsStay(w: World, t: World)
    requires ListedOk(w) && Moves(w, t)
    ensures forall a, x :: (a, x) in w.listed ==> if Settled(x) then OutOfPlay(t, a) else x.status == C.Ready || x.status == C.Pending
  {
    hide Moves, OutOfPlay;
    forall a, x | (a, x) in w.listed && Settled(x) ensures OutOfPlay(t, a) { StaysOut(w, t, a); }
  }

  lemma PartMoves(w: World, t: World, m: C.MessageId, a: AssetId, p: nat)
    requires Moves(w, t) && m in w.chat.messages && A.IsPart(w.chat, m, a, p) && a in t.chat.attachments
    ensures m in t.chat.messages && A.IsPart(t.chat, m, a, p)
  {
  }

  /** A message that is live after a step keeps what it had. */
  lemma MessageKeeps(w: World, t: World, m: C.MessageId, ids: seq<AssetId>)
    requires ListedOk(w) && PickedOk(w) && BoundAreReady(w.chat.attachments) && Moves(w, t)
    requires Keeps(w, m, ids) && m in t.chat.messages && t.chat.messages[m].deletedAt.None?
    ensures Keeps(t, m, ids)
  {
    hide ListedOk, PickedOk, BoundAreReady, A.IsPart, RowMoves;
    assert w.chat.messages[m].deletedAt.None?;
    forall p | 0 <= p < |ids| ensures Exposed(t.listed, ids[p]) || A.IsPart(t.chat, m, ids[p], p) {
      if Exposed(w.listed, ids[p]) {
        ExposedForGood(w, t, ids[p]);
      } else {
        PartIsLive(w.chat, m, ids[p], p);
        LiveIsNotPicked(w, ids[p]);
        PartMoves(w, t, m, ids[p], p);
      }
    }
  }

  lemma PartIsLive(db: C.Db, m: C.MessageId, a: AssetId, p: nat)
    requires m in db.messages && A.IsPart(db, m, a, p) && db.messages[m].deletedAt.None?
    ensures IsLive(db, a)
  {
  }

  lemma ExposedForGood(w: World, t: World, a: AssetId)
    requires w.listed <= t.listed && Exposed(w.listed, a)
    ensures Exposed(t.listed, a)
  {
  }

  lemma OldMediaKept(w: World, t: World)
    requires ListedOk(w) && PickedOk(w) && BoundAreReady(w.chat.attachments) && MediaKept(w) && Moves(w, t)
    ensures forall m :: m in w.chat.messages && t.chat.messages[m].isMedia && t.chat.messages[m].deletedAt.None? ==> exists ids :: Keeps(t, m, ids)
  {
    hide ListedOk, PickedOk, BoundAreReady, Keeps, RowsMove;
    forall m | m in w.chat.messages && t.chat.messages[m].isMedia && t.chat.messages[m].deletedAt.None? ensures exists ids :: Keeps(t, m, ids) {
      var ids :| Keeps(w, m, ids);
      MessageKeeps(w, t, m, ids);
    }
  }

  // ---- Steps of the chat --------------------------------------------------------------------------

  ghost predicate SameColumns(x: C.Attachment, y: C.Attachment) {
    && y.owner == x.owner && y.conversation == x.conversation && y.status == x.status
    && y.actualSize == x.actualSize && y.uploadExpiresAt == x.uploadExpiresAt
    && (x.message.Some? ==> y.message == x.message && y.position == x.position)
  }

  /** A transaction of the chat leaves the columns of the uploads alone, and binds READY rows to a new message at most. */
  ghost predicate ChatMoves(db: C.Db, t: C.Db) {
    && t.attachments.Keys == db.attachments.Keys
    && (forall a :: a in db.attachments ==> SameColumns(db.attachments[a], t.attachments[a]))
    && (forall a :: a in db.attachments && db.attachments[a].message.None? && t.attachments[a].message.Some? ==>
          t.attachments[a].message.value !in db.messages && t.attachments[a].status == C.Ready)
  }

  lemma CreationMoves(db: C.Db, n: C.NewMessage, m: C.MessageId, at: int)
    requires m !in db.messages
    ensures ChatMoves(db, C.CreateMessage(db, n, m, at).0)
  {
    hide C.Bind, C.KeyTaken, C.Touched, C.Recipients, C.Notify, C.TotalSize;
    var t := C.CreateMessage(db, n, m, at);
    if t.1 == C.Created && n.isMedia {
      F.BindChanges(db.attachments, n, m, |n.attachmentIds|, at);
      assert n.attachmentIds[..|n.attachmentIds|] == n.attachmentIds;
      forall a | a in n.attachmentIds
        ensures a in db.attachments && a in t.0.attachments && SameColumns(db.attachments[a], t.0.attachments[a])
          && t.0.attachments[a].message == Some(m) && t.0.attachments[a].status == C.Ready
      {
        var p :| 0 <= p < |n.attachmentIds| && n.attachmentIds[p] == a;
        assert F.IsBoundAt(db.attachments, t.0.attachments, n, m, p, at) && C.IsAvailable(db.attachments, n, a);
      }
    }
  }

  lemma ChatStepMoves(db: C.Db, retention: nat, e: C.Event)
    requires !StandsIn(e)
    ensures ChatMoves(db, C.Step(db, retention, e))
  {
    hide C.GroupStep, C.CreateMessage, C.CreateGroup, C.CreateDirect, C.Later;
    F.CreationsTouchNoAttachment(db, e);
    if e.CreatingMessage? {
      if e.m !in db.messages { CreationMoves(db, e.n, e.m, e.at); }
    } else if e.InGroup? {
      F.GroupStepFrame(db, e.c, e.change);
    }
  }

  lemma ChatKeepsAgreement(assets: U.Assets, db: C.Db, t: C.Db)
    requires Agree(assets, db.attachments) && BoundAreReady(db.attachments) && ChatMoves(db, t)
    ensures Agree(assets, t.attachments) && BoundAreReady(t.attachments)
  {
    forall a | a in assets ensures SameRow(assets[a], t.attachments[a]) {
      assert SameRow(assets[a], db.attachments[a]) && SameColumns(db.attachments[a], t.attachments[a]);
    }
  }

  /** Different members are nothing to the guarantees of the uploads. */
  lemma MembersAreFree(setup: U.Setup, w: U.World, members: set<(U.UserId, U.ConversationId)>)
    requires S.Valid(setup, w)
    ensures S.Valid(setup, w.(members := members))
  {
    hide S.Valid, U.Step;
    S.StepKeeps(setup, w, U.ChangingMembers(members));
    assert U.Step(setup, w, U.ChangingMembers(members)) == w.(members := members) by { MembersStep(setup, w, members); }
    assert S.Safe(setup, w, U.Step(setup, w, U.ChangingMembers(members)));
  }

  lemma MembersStep(setup: U.Setup, w: U.World, members: set<(U.UserId, U.ConversationId)>)
    ensures U.Step(setup, w, U.ChangingMembers(members)) == w.(members := members)
  {
  }

  lemma ChattingMoves(setup: U.Setup, retention: nat, w: World, e: C.Event)
    requires !StandsIn(e)
    ensures Moves(w, Step(setup, retention, w, Chatting(e)))
  {
    hide C.Step;
    ChatStepMoves(w.chat, retention, e);
    forall m | m in w.chat.messages ensures m in C.Step(w.chat, retention, e).messages {
      F.MessagesStay(w.chat, retention, e, m);
    }
    forall m | m in w.chat.messages ensures F.SameMessage(w.chat.messages[m], C.Step(w.chat, retention, e).messages[m]) {
      F.MessagesStay(w.chat, retention, e, m);
    }
  }

  /** The one message that a step may add is sent with its attachments. */
  lemma NewMediaKept(setup: U.Setup, retention: nat, w: World, e: C.Event, m: C.MessageId)
    requires A.RetentionHolds(w.chat, retention) && !StandsIn(e)
    requires m !in w.chat.messages && m in C.Step(w.chat, retention, e).messages && C.Step(w.chat, retention, e).messages[m].isMedia
    ensures exists ids :: Keeps(Step(setup, retention, w, Chatting(e)), m, ids)
  {
    hide C.Step, A.IsPart;
    A.OnlyCreationAdds(w.chat, retention, e, m);
    A.RetentionNamesMessages(w.chat, retention);
    A.CreationBinds(w.chat, e.n, m, e.at);
    var t := Step(setup, retention, w, Chatting(e));
    assert t.chat == C.CreateMessage(w.chat, e.n, m, e.at).0 by { CreatingStep(w.chat, retention, e); }
    assert Keeps(t, m, e.n.attachmentIds);
  }

  lemma CreatingStep(db: C.Db, retention: nat, e: C.Event)
    requires e.CreatingMessage? && e.m !in db.messages
    ensures C.Step(db, retention, e) == C.CreateMessage(db, e.n, e.m, e.at).0
  {
  }

  lemma ChattingKeeps(setup: U.Setup, retention: nat, w: World, e: C.Event)
    requires Valid(setup, retention, w) && !StandsIn(e)
    ensures Valid(setup, retention, Step(setup, retention, w, Chatting(e)))
  {
    hide C.Step, S.Valid, Agree, A.RetentionHolds, BoundAreReady, Keeps, Moves, OutOfPlay, StandsIn, ChatMoves;
    var t := Step(setup, retention, w, Chatting(e));
    ChatStepMoves(w.chat, retention, e);
    ChatKeepsAgreement(w.uploads.assets, w.chat, t.chat);
    MembersAreFree(setup, w.uploads, t.uploads.members);
    A.StepRetention(w.chat, retention, e);
    ChattingMoves(setup, retention, w, e);
    ListingsStay(w, t);
    OldMediaKept(w, t);
    forall m | m in t.chat.messages && t.chat.messages[m].isMedia && t.chat.messages[m].deletedAt.None? ensures exists ids :: Keeps(t, m, ids) {
      if m !in w.chat.messages { NewMediaKept(setup, retention, w, e, m); }
    }
  }

  // ---- Steps of the uploads and of cleanup -----------------------------------------------------

  /** A run adds and removes no row and picks nothing. */
  ghost predicate SameRows(w: U.World, t: U.World) {
    t.assets.Keys == w.assets.Keys && t.history.picked == w.history.picked
  }

  lemma ReadFrame(w: U.World, r: U.RunId, x: U.Answer, matches: U.Object -> bool, onwards: U.Object -> U.Phase)
    requires r in w.runs && w.runs[r].stage.At?
    ensures SameRows(w, U.Read(w, r, x, matches, onwards))
  {
  }

  lemma ProcessFrame(setup: U.Setup, w: U.World, r: U.RunId, x: U.Answer)
    requires r in w.runs && w.runs[r].stage.At?
    ensures SameRows(w, U.Process(setup, w, r, x))
  {
    hide U.Read, U.MetadataMatches, U.BodyMatches, U.Dispatch, U.StoredAs;
    var row := w.runs[r].stage.row;
    match w.runs[r].stage.phase
    case Heading => ReadFrame(w, r, x, (o: U.Object) => U.MetadataMatches(row, o), (o: U.Object) => U.Getting);
    case Getting => ReadFrame(w, r, x, (o: U.Object) => U.BodyMatches(row, o), (o: U.Object) => U.Detecting(o.body));
    case _ =>
  }

  lemma MovedFrame(w: U.World, a: AssetId, row: U.Asset, cause: U.Cause)
    requires a in w.assets
    ensures SameRows(w, U.Moved(w, a, row, cause))
  {
  }

  lemma SettleFrame(w: U.World, r: U.RunId, x: U.Answer)
    requires r in w.runs && w.runs[r].stage.At?
    ensures SameRows(w, U.Settle(w, r, x))
  {
    hide U.Moved, U.Completed, U.Recorded;
    var a := w.runs[r].asset;
    if a in w.assets {
      forall row, cause ensures SameRows(w, U.Moved(w, a, row, cause)) { MovedFrame(w, a, row, cause); }
    }
  }

  lemma AdvanceFrame(setup: U.Setup, w: U.World, r: U.RunId, x: U.Answer)
    requires r in w.runs
    ensures SameRows(w, U.Advance(setup, w, r, x))
  {
    hide U.Process, U.Settle;
    if w.runs[r].stage.At? {
      ProcessFrame(setup, w, r, x);
      SettleFrame(w, r, x);
    }
  }

  lemma UploadFrame(setup: U.Setup, w: U.World, e: U.Event)
    requires !e.PickingForCleanup?
    ensures var t := U.Step(setup, w, e);
      && t.history.picked == w.history.picked
      && (forall a :: a in w.assets && a !in t.assets ==> a in w.history.picked)
  {
    hide U.Advance, U.Accepts, U.Intent, U.IsStale;
    if e.Running? && e.r in w.runs { AdvanceFrame(setup, w, e.r, e.answer); }
  }

  /** One row before and after a step of the uploads. */
  lemma UploadedRow(setup: U.Setup, w: U.World, t: U.World, a: AssetId)
    requires S.Valid(setup, w) && S.Safe(setup, w, t) && a in t.assets && a in w.history.intents
    ensures a in w.assets && S.Absorbed(w.assets[a], t.assets[a])
    ensures t.assets[a].owner == w.assets[a].owner && t.assets[a].conversation == w.assets[a].conversation
    ensures t.assets[a].uploadExpiresAt == w.assets[a].uploadExpiresAt
  {
    hide S.RunOk, S.PresentOk, S.ObjectsOk, S.IntentsOk, S.Described, S.Conserved, S.Absorbed, S.ObjectsGrow;
    assert a in w.assets;
    assert S.RowOk(w.assets[a], w.history.intents, w.history.tallies, a);
    assert S.RowOk(t.assets[a], t.history.intents, t.history.tallies, a);
  }

  lemma EveryRowHasIntent(setup: U.Setup, w: U.World, a: AssetId)
    requires S.Valid(setup, w) && a in w.assets
    ensures a in w.history.intents
  {
    hide S.RowOk, S.RunOk;
    S.ReachableRow(setup, w, a);
    assert a in w.history.intents by { S.RowIsKnown(w, a); }
  }

  /** The rows of the chat after a step of the uploads that is not a listing. */
  ghost predicate SeenOk(w: World, t: World) {
    && Agree(t.uploads.assets, t.chat.attachments) && t.chat.messages == w.chat.messages && t.listed == w.listed
    && (forall a :: a in t.chat.attachments && a in w.uploads.history.intents ==>
          && a in w.chat.attachments && RowMoves(w.chat.attachments[a], t.chat.attachments[a])
          && t.chat.attachments[a].message == w.chat.attachments[a].message
          && t.chat.attachments[a].purgeAfter == w.chat.attachments[a].purgeAfter)
    && (forall a :: a in t.chat.attachments && a !in w.uploads.history.intents ==>
          t.chat.attachments[a].message.None? && t.chat.attachments[a].purgeAfter.None?)
    && (forall a :: a in w.chat.attachments ==> a in w.uploads.history.intents)
  }

  lemma SeenRowOk(row: U.Asset, next: U.Asset, x: C.Attachment, at: int)
    requires SameRow(row, x) && S.Absorbed(row, next)
    requires next.owner == row.owner && next.conversation == row.conversation && next.uploadExpiresAt == row.uploadExpiresAt
    ensures var y := SeenRow(next, Some(x), at);
      SameRow(next, y) && RowMoves(x, y) && y.message == x.message && y.purgeAfter == x.purgeAfter
  {
  }

  lemma SeenIsOk(setup: U.Setup, w: World, t: World, at: int)
    requires S.Valid(setup, w.uploads) && Agree(w.uploads.assets, w.chat.attachments) && S.Safe(setup, w.uploads, t.uploads)
    requires t.chat == w.chat.(attachments := Seen(t.uploads.assets, w.chat.attachments, at)) && t.listed == w.listed
    ensures SeenOk(w, t)
  {
    hide S.Valid, S.Safe, S.Absorbed, SameRow, RowMoves, SeenRow;
    forall a | a in w.uploads.assets ensures a in w.uploads.history.intents { EveryRowHasIntent(setup, w.uploads, a); }
    forall a | a in t.uploads.assets
      ensures SameRow(t.uploads.assets[a], t.chat.attachments[a])
      ensures a in w.uploads.history.intents ==>
        && a in w.chat.attachments && RowMoves(w.chat.attachments[a], t.chat.attachments[a])
        && t.chat.attachments[a].message == w.chat.attachments[a].message
        && t.chat.attachments[a].purgeAfter == w.chat.attachments[a].purgeAfter
      ensures a !in w.uploads.history.intents ==> t.chat.attachments[a].message.None? && t.chat.attachments[a].purgeAfter.None?
    {
      if a in w.uploads.history.intents {
        UploadedRow(setup, w.uploads, t.uploads, a);
        SeenRowOk(w.uploads.assets[a], t.uploads.assets[a], w.chat.attachments[a], at);
      } else {
        NewRowOk(t.uploads.assets[a], at);
      }
    }
  }

  lemma NewRowOk(row: U.Asset, at: int)
    ensures var y := SeenRow(row, None, at); SameRow(row, y) && y.message.None? && y.purgeAfter.None?
  {
  }

  /** A step of the uploads, seen from the chat. */
  lemma SeenMoves(w: World, t: World)
    requires SeenOk(w, t)
    requires forall a :: a in w.chat.attachments && a !in t.chat.attachments ==> a in w.uploads.history.picked
    requires forall a :: a in w.uploads.history.intents ==> a in t.uploads.history.intents
    ensures Moves(w, t)
  {
    hide RowMoves, Agree;
    assert MessagesMove(w.chat, t.chat);
  }

  lemma SeenKeepsRetention(w: World, t: World, retention: nat)
    requires SeenOk(w, t) && A.RetentionHolds(w.chat, retention) && BoundAreReady(w.chat.attachments)
    ensures A.RetentionHolds(t.chat, retention) && BoundAreReady(t.chat.attachments)
  {
    hide Agree;
    forall a | a in t.chat.attachments
      ensures A.DueWithMessage(t.chat, retention, t.chat.attachments[a])
      ensures t.chat.attachments[a].message.Some? ==> t.chat.attachments[a].status == C.Ready
    {
      if a in w.uploads.history.intents {
        assert A.DueWithMessage(w.chat, retention, w.chat.attachments[a]);
        assert RowMoves(w.chat.attachments[a], t.chat.attachments[a]);
      }
    }
  }

  lemma UploadingKeeps(setup: U.Setup, retention: nat, w: World, e: U.Event, at: int)
    requires Valid(setup, retention, w) && !e.PickingForCleanup? && !e.ChangingMembers?
    ensures Valid(setup, retention, Step(setup, retention, w, Uploading(e, at)))
  {
    hide U.Step, S.Valid, A.RetentionHolds, BoundAreReady, Keeps, Moves, OutOfPlay, SeenOk, Seen, S.RowsGrow, S.ObjectsGrow, IsRefused;
    var t := Step(setup, retention, w, Uploading(e, at));
    S.StepKeeps(setup, w.uploads, e);
    UploadFrame(setup, w.uploads, e);
    SeenIsOk(setup, w, t, at);
    SeenKeepsRetention(w, t, retention);
    assert Agree(t.uploads.assets, t.chat.attachments) by { assert SeenOk(w, t); SeenAgrees(w, t); }
    SeenMoves(w, t);
    ListingsStay(w, t);
    OldMediaKept(w, t);
  }

  lemma SeenAgrees(w: World, t: World)
    requires SeenOk(w, t)
    ensures Agree(t.uploads.assets, t.chat.attachments)
  {
  }

  lemma ListingKeeps(setup: U.Setup, retention: nat, w: World, a: AssetId, now: int, unboundReadyBefore: int, staleBefore: int)
    requires Valid(setup, retention, w)
    ensures Valid(setup, retention, Step(setup, retention, w, Listing(a, now, unboundReadyBefore, staleBefore)))
  {
    hide S.Valid, Keeps, Moves, OutOfPlay, S.Safe, IsRefused, C.IsCandidate, BoundAreReady, SameRow;
    var t := Step(setup, retention, w, Listing(a, now, unboundReadyBefore, staleBefore));
    if t != w {
      S.StepKeeps(setup, w.uploads, U.PickingForCleanup(a));
      assert S.Valid(setup, t.uploads) by { assert S.Safe(setup, w.uploads, t.uploads); SafeIsValid(setup, w.uploads, t.uploads); }
      ListingMoves(setup, retention, w, a, now, unboundReadyBefore, staleBefore);
      ListingsStay(w, t);
      EveryRowHasIntent(setup, w.uploads, a);
      if Settled(w.chat.attachments[a]) { ListedIsOut(w, retention, a, now, unboundReadyBefore, staleBefore); StaysOut(w, t, a); }
      else { UnsettledStatus(w.chat.attachments[a], w.chat, retention, now, unboundReadyBefore, staleBefore); }
      OldMediaKept(w, t);
      OneMoreListed(w.listed, a, w.chat.attachments[a]);
    }
  }

  lemma OneMoreListed(listed: set<(AssetId, C.Attachment)>, a: AssetId, x: C.Attachment)
    ensures forall b :: WasListed(listed + {(a, x)}, b) <==> b == a || WasListed(listed, b)
  {
    assert (a, x) in listed + {(a, x)};
    forall b, y | (b, y) in listed ensures WasListed(listed + {(a, x)}, b) { assert (b, y) in listed + {(a, x)}; }
  }

  lemma SafeIsValid(setup: U.Setup, w: U.World, t: U.World)
    requires S.Safe(setup, w, t)
    ensures S.Valid(setup, t)
  {
  }

  lemma ListingMoves(setup: U.Setup, retention: nat, w: World, a: AssetId, now: int, unboundReadyBefore: int, staleBefore: int)
    ensures Moves(w, Step(setup, retention, w, Listing(a, now, unboundReadyBefore, staleBefore)))
  {
    hide C.IsCandidate;
  }

  /** A listed row with a message is due, because its message is deleted. */
  lemma ListedIsOut(w: World, retention: nat, a: AssetId, now: int, unboundReadyBefore: int, staleBefore: int)
    requires a in w.chat.attachments && a in w.uploads.history.intents && A.RetentionHolds(w.chat, retention)
    requires C.IsCandidate(w.chat.attachments[a], now, unboundReadyBefore, staleBefore) && Settled(w.chat.attachments[a])
    ensures OutOfPlay(w, a)
  {
    assert A.DueWithMessage(w.chat, retention, w.chat.attachments[a]);
  }

  lemma UnsettledStatus(x: C.Attachment, db: C.Db, retention: nat, now: int, unboundReadyBefore: int, staleBefore: int)
    requires A.DueWithMessage(db, retention, x) && C.IsCandidate(x, now, unboundReadyBefore, staleBefore) && !Settled(x)
    ensures x.status == C.Ready || x.status == C.Pending
  {
  }

  // ---- All runs ------------------------------------------------------------------------------------

  lemma StepKeeps(setup: U.Setup, retention: nat, w: World, e: Event)
    requires Valid(setup, retention, w)
    ensures Valid(setup, retention, Step(setup, retention, w, e))
  {
    hide Valid, C.Step, U.Step, C.IsCandidate;
    match e
    case Chatting(c) => if !StandsIn(c) { ChattingKeeps(setup, retention, w, c); }
    case Uploading(u, at) => if !u.PickingForCleanup? && !u.ChangingMembers? { UploadingKeeps(setup, retention, w, u, at); }
    case Listing(a, now, unboundReadyBefore, staleBefore) => ListingKeeps(setup, retention, w, a, now, unboundReadyBefore, staleBefore);
  }

  lemma ReachableIsValid(setup: U.Setup, retention: nat, w: World)
    requires Reachable(setup, retention, w)
    ensures Valid(setup, retention, w)
  {
    hide Step, Valid;
    StartIsValid(setup, retention);
    forall v, e | Valid(setup, retention, v) ensures Valid(setup, retention, Stepper(setup, retention)(v, e)) {
      StepKeeps(setup, retention, v, e);
    }
    R.LeadsKeeps(Stepper(setup, retention), v => Valid(setup, retention, v), START, w);
  }

  lemma StartIsValid(setup: U.Setup, retention: nat)
    ensures Valid(setup, retention, START)
  {
    hide S.Valid;
    S.StartIsValid(setup);
  }

  /** The object of attachment `a` is there; for a PDF or office file it holds bytes of the declared size and type that were
      scanned clean, and checked if a PDF; an image has its thumbnail. */
  ghost predicate Served(setup: U.Setup, w: U.World, a: AssetId) {
    && a in w.assets && w.assets[a].status == C.Ready && U.Original(a) in w.objects
    && var row, file := w.assets[a], w.objects[U.Original(a)];
       if row.kind == U.Image then U.Thumbnail(a) in w.objects
       else
         && |file.body| == row.declaredSize && setup.detect(file.body) == Some(row.declaredType)
         && file.contentType == Some(row.declaredType)
         && (a, file.body) in w.history.clean && (row.kind == U.Pdf ==> (a, file.body) in w.history.valid)
  }

  lemma ReadyIsServed(setup: U.Setup, w: U.World, a: AssetId)
    requires S.Valid(setup, w) && a in w.assets && w.assets[a].status == C.Ready && a !in w.history.picked
    ensures Served(setup, w, a)
  {
    hide S.RunOk, S.RowOk, S.IntentsOk;
    S.RowIsKnown(w, a);
  }

  /** In every run of uploads, messages and cleanup: an attachment of an undeleted message has its object, genuine if a PDF
      or office file, unless cleanup listed it before it was bound. */
  lemma LiveFilesAreServed(setup: U.Setup, retention: nat, w: World, a: AssetId)
    requires Reachable(setup, retention, w) && IsLive(w.chat, a) && !Exposed(w.listed, a)
    ensures Served(setup, w.uploads, a)
  {
    hide Reachable, Exposed, MediaKept, Served, S.Valid, ListedOk, PickedOk, A.RetentionHolds;
    ReachableIsValid(setup, retention, w);
    LiveIsNotPicked(w, a);
    ReadyIsServed(setup, w.uploads, a);
  }

  /** In every run: an undeleted media message was sent with 1 to 4 attachments, and each of them that cleanup did not list
      before it was bound is there, READY, at its position, of the sender and conversation, and served. */
  lemma MediaMessagesAreServed(setup: U.Setup, retention: nat, w: World, m: C.MessageId)
    requires Reachable(setup, retention, w)
    requires m in w.chat.messages && w.chat.messages[m].isMedia && w.chat.messages[m].deletedAt.None?
    ensures exists ids ::
      && 1 <= |ids| <= C.MAX_ATTACHMENTS && C.NoRepetition(ids)
      && (forall a :: a in w.chat.attachments && w.chat.attachments[a].message == Some(m) ==> a in ids)
      && forall p :: 0 <= p < |ids| && !Exposed(w.listed, ids[p]) ==>
           A.IsPart(w.chat, m, ids[p], p) && Served(setup, w.uploads, ids[p])
  {
    hide Reachable, Exposed, Served, S.Valid, A.RetentionHolds, A.IsPart;
    ReachableIsValid(setup, retention, w);
    var ids :| Keeps(w, m, ids);
    forall p | 0 <= p < |ids| && !Exposed(w.listed, ids[p]) ensures A.IsPart(w.chat, m, ids[p], p) && Served(setup, w.uploads, ids[p]) {
      PartIsLive(w.chat, m, ids[p], p);
      LiveFilesAreServed(setup, retention, w, ids[p]);
    }
  }

  /** A candidate that was listed with its message, or refused, never belongs to a live message again: deleting it later
      is as good as deleting it at once. */
  lemma SettledCandidatesStayOut(setup: U.Setup, retention: nat, w: World, a: AssetId, x: C.Attachment)
    requires Reachable(setup, retention, w) && (a, x) in w.listed && Settled(x)
    ensures !IsLive(w.chat, a)
  {
    hide Reachable, OutOfPlay, MediaKept, S.Valid, PickedOk, A.RetentionHolds;
    ReachableIsValid(setup, retention, w);
    NotLive(w, a);
  }
}
