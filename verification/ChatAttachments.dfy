/** Attachments of messages over all serial runs: retention after deletion, and binding. */
module ChatAttachments {
  import opened Prelude
  import opened ChatDb
  import G = Groups
  import opened ChatFrames

  // ---- Retention ------------------------------------------------------------------

  /** A bound attachment is due exactly when its message is deleted, `retention` after the first deletion. */
  ghost predicate DueWithMessage(db: Db, retention: nat, x: Attachment) {
    match x.message
    case None => x.purgeAfter.None?
    case Some(m) =>
      && m in db.messages
      && x.purgeAfter == if db.messages[m].deletedAt.Some? then Some(db.messages[m].deletedAt.value + retention) else None
  }

  ghost predicate RetentionHolds(db: Db, retention: nat) {
    forall a :: a in db.attachments ==> DueWithMessage(db, retention, db.attachments[a])
  }

  lemma CreateMessageRetention(db: Db, retention: nat, n: NewMessage, m: MessageId, at: int)
    requires RetentionHolds(db, retention) && m !in db.messages
    ensures RetentionHolds(CreateMessage(db, n, m, at).0, retention)
  {
    hide Bind, KeyTaken, Touched, Recipients, Notify;
    var t := CreateMessage(db, n, m, at);
    if t.1 == Created && n.isMedia {
      BindChanges(db.attachments, n, m, |n.attachmentIds|, at);
      assert n.attachmentIds[..|n.attachmentIds|] == n.attachmentIds;
    }
    forall a | a in t.0.attachments ensures DueWithMessage(t.0, retention, t.0.attachments[a]) {
      assert DueWithMessage(db, retention, db.attachments[a]);
      if t.1 == Created && n.isMedia && a in n.attachmentIds {
        var p :| 0 <= p < |n.attachmentIds| && n.attachmentIds[p] == a;
        assert IsBoundAt(db.attachments, t.0.attachments, n, m, p, at);
      }
    }
  }

  lemma DeletionRetention(db: Db, retention: nat, c: ConversationId, m: MessageId, sender: UserId, at: int)
    requires RetentionHolds(db, retention)
    ensures RetentionHolds(SoftDelete(db, c, m, sender, at, at + retention), retention)
  {
    var t := SoftDelete(db, c, m, sender, at, at + retention);
    forall a | a in t.attachments ensures DueWithMessage(t, retention, t.attachments[a]) {
      assert DueWithMessage(db, retention, db.attachments[a]);
    }
  }

  /** Apart from creations and deletions, no transaction touches a deletion time or the time an attachment is due. */
  lemma OthersTouchNoDueTime(db: Db, retention: nat, e: Event)
    requires !e.CreatingMessage? && !e.DeletingMessage?
    ensures var t := Step(db, retention, e);
      && (forall m :: m in db.messages ==> m in t.messages && t.messages[m].deletedAt == db.messages[m].deletedAt)
      && (forall a :: a in db.attachments && a in t.attachments ==> t.attachments[a].purgeAfter == db.attachments[a].purgeAfter)
  {
    hide GroupStep, IsCandidate, Later, IsMember, LifecycleAllows, CreateGroup, CreateDirect;
    CreationsTouchNoAttachment(db, e);
    if e.InGroup? { GroupStepFrame(db, e.c, e.change); }
  }

  lemma StepRetention(db: Db, retention: nat, e: Event)
    requires RetentionHolds(db, retention)
    ensures RetentionHolds(Step(db, retention, e), retention)
  {
    if e.CreatingMessage? {
      hide CreateMessage, DueWithMessage;
      if e.m !in db.messages { CreateMessageRetention(db, retention, e.n, e.m, e.at); }
    } else if e.DeletingMessage? {
      hide SoftDelete, DueWithMessage;
      DeletionRetention(db, retention, e.c, e.m, e.sender, e.at);
    } else {
      hide Step;
      var t := Step(db, retention, e);
      OthersTouchNoDueTime(db, retention, e);
      forall a | a in t.attachments ensures DueWithMessage(t, retention, t.attachments[a]) {
        AttachmentFrame(db, retention, e, a);
        assert a in db.attachments ==> DueWithMessage(db, retention, db.attachments[a]);
      }
    }
  }

  lemma {:induction false} RetentionAlwaysHolds(retention: nat, events: seq<Event>)
    ensures RetentionHolds(After(retention, events), retention)
    decreases |events|
  {
    if events != [] {
      RetentionAlwaysHolds(retention, events[..|events| - 1]);
      StepRetention(After(retention, events[..|events| - 1]), retention, events[|events| - 1]);
    }
  }

  /** In every run: what cleanup removes belongs to no message, or to one that was first deleted at least
      `retention` ago. */
  lemma CleanupRespectsRetention(retention: nat, events: seq<Event>, a: AttachmentId, now: int, unboundReadyBefore: int, staleBefore: int)
    requires a in After(retention, events).attachments
    requires a !in Cleanup(After(retention, events), a, now, unboundReadyBefore, staleBefore).attachments
    ensures var db := After(retention, events); var x := db.attachments[a];
      x.message.Some? ==>
        && x.message.value in db.messages && db.messages[x.message.value].deletedAt.Some?
        && db.messages[x.message.value].deletedAt.value + retention <= now
  {
    RetentionAlwaysHolds(retention, events);
    assert DueWithMessage(After(retention, events), retention, After(retention, events).attachments[a]);
  }

  // ---- Binding --------------------------------------------------------------------

  /** Message `m` has exactly the attachments `ids`, in that order: 1 to 4 READY files of its sender and
      conversation at positions 0, 1, ..., of at most 50 MiB together. */
  ghost predicate Binds(db: Db, m: MessageId, ids: seq<AttachmentId>) {
    && m in db.messages
    && 1 <= |ids| <= 4 && (forall i, j :: 0 <= i < j < |ids| ==> ids[i] != ids[j])
    && (forall p :: 0 <= p < |ids| ==> IsPart(db, m, ids[p], p))
    && (forall a :: a in db.attachments && db.attachments[a].message == Some(m) ==> a in ids)
    && SizeAt(db, ids, 0) + SizeAt(db, ids, 1) + SizeAt(db, ids, 2) + SizeAt(db, ids, 3) <= 50 * 1024 * 1024
  }

  /** The size of the attachment at place `p`, if there is one. */
  ghost function SizeAt(db: Db, ids: seq<AttachmentId>, p: nat): nat {
    if p < |ids| && ids[p] in db.attachments && db.attachments[ids[p]].actualSize.Some? then db.attachments[ids[p]].actualSize.value else 0
  }

  lemma {:induction false} TotalUpTo(db: Db, ids: seq<AttachmentId>, n: nat)
    requires n <= |ids| && n <= 4
    ensures TotalSize(db.attachments, ids[..n]) ==
      (if n > 0 then SizeAt(db, ids, 0) else 0) + (if n > 1 then SizeAt(db, ids, 1) else 0)
      + (if n > 2 then SizeAt(db, ids, 2) else 0) + (if n > 3 then SizeAt(db, ids, 3) else 0)
  {
    if n > 0 {
      TotalUpTo(db, ids, n - 1);
      assert ids[..n][..n - 1] == ids[..n - 1] && ids[..n][n - 1] == ids[n - 1];
    }
  }

  /** The total is the sum of the sizes, one by one. */
  lemma TotalIsSum(db: Db, ids: seq<AttachmentId>)
    requires |ids| <= 4
    ensures TotalSize(db.attachments, ids) == SizeAt(db, ids, 0) + SizeAt(db, ids, 1) + SizeAt(db, ids, 2) + SizeAt(db, ids, 3)
  {
    hide TotalSize;
    TotalUpTo(db, ids, |ids|);
    assert ids[..|ids|] == ids;
  }

  lemma {:induction false} TotalAdds(atts: Attachments, xs: seq<AttachmentId>, ys: seq<AttachmentId>)
    ensures TotalSize(atts, xs + ys) == TotalSize(atts, xs) + TotalSize(atts, ys)
    decreases |ys|
  {
    if ys == [] {
      assert xs + ys == xs;
    } else {
      TotalAdds(atts, xs, ys[..|ys| - 1]);
      assert (xs + ys)[..|xs + ys| - 1] == xs + ys[..|ys| - 1];
    }
  }

  /** What each refusal of a media message means, in the order in which they are looked for, and that nothing else refuses it. */
  lemma MediaRefusals(db: Db, n: NewMessage)
    ensures MediaObstacle(db, n) ==
      var ids, atts := n.attachmentIds, db.attachments;
      if !(1 <= |ids| <= 4 && forall i, j :: 0 <= i < j < |ids| ==> ids[i] != ids[j]) then Some(BindingError)
      else if !(n.conversation in db.conversations && n.sender in db.conversations[n.conversation].members
                && db.conversations[n.conversation].members[n.sender].leftAt.None?) then Some(NoConversation)
      else if !(forall a :: a in ids ==>
                  && a in atts && atts[a].owner == n.sender && atts[a].conversation == n.conversation
                  && atts[a].message.None? && atts[a].status == Ready && atts[a].actualSize.Some?) then Some(BindingError)
      else if SizeAt(db, ids, 0) + SizeAt(db, ids, 1) + SizeAt(db, ids, 2) + SizeAt(db, ids, 3) > 52428800 then Some(TotalSizeExceeded)
      else None
  {
    hide TotalSize;
    if |n.attachmentIds| <= 4 { TotalIsSum(db, n.attachmentIds); }
  }

  ghost predicate IsPart(db: Db, m: MessageId, a: AttachmentId, p: nat)
    requires m in db.messages
  {
    && a in db.attachments
    && var x := db.attachments[a];
       && x.message == Some(m) && x.position == p && x.status == Ready && x.actualSize.Some?
       && x.owner == db.messages[m].sender && x.conversation == db.messages[m].conversation
  }

  /** Every attachment that claims a message belongs to one that exists. */
  ghost predicate OwnersExist(db: Db) {
    forall a :: a in db.attachments && db.attachments[a].message.Some? ==> db.attachments[a].message.value in db.messages
  }

  lemma {:induction false} SameTotal(x: Attachments, y: Attachments, ids: seq<AttachmentId>)
    requires forall a :: a in ids ==> a in x && a in y && x[a].actualSize == y[a].actualSize
    ensures TotalSize(x, ids) == TotalSize(y, ids)
  {
    if ids != [] {
      var n := |ids| - 1;
      InPrefix(ids, n);
      SameTotal(x, y, ids[..n]);
      assert ids[n] in ids;
    }
  }

  /** Once the checks pass, the loop binds every attachment: its own check never fails in a serial run. */
  lemma {:induction false} BindSucceeds(db: Db, n: NewMessage, m: MessageId, count: nat, now: int)
    requires n.isMedia && MediaObstacle(db, n).None? && count <= |n.attachmentIds|
    ensures Bind(db.attachments, n, m, count, now).Some?
  {
    if count > 0 {
      BindSucceeds(db, n, m, count - 1, now);
      BindChanges(db.attachments, n, m, count - 1, now);
      var last := n.attachmentIds[count - 1];
      assert last in n.attachmentIds && last !in n.attachmentIds[..count - 1];
    }
  }

  /** A media message is created exactly when nothing stands in its way and its key is free; it then has
      exactly the requested attachments in request order. Any other outcome changes nothing. */
  lemma CreationBinds(db: Db, n: NewMessage, m: MessageId, at: int)
    requires m !in db.messages && OwnersExist(db) && n.isMedia
    ensures CreateMessage(db, n, m, at).1 == Created <==> MediaObstacle(db, n).None? && !KeyTaken(db, n.sender, n.clientId)
    ensures CreateMessage(db, n, m, at).1 == Created ==> Binds(CreateMessage(db, n, m, at).0, m, n.attachmentIds)
    ensures CreateMessage(db, n, m, at).1 != Created ==> CreateMessage(db, n, m, at).0 == db
  {
    hide Bind, KeyTaken, Touched, Recipients, Notify, TotalSize;
    var t := CreateMessage(db, n, m, at);
    if MediaObstacle(db, n).None? {
      BindSucceeds(db, n, m, |n.attachmentIds|, at);
    }
    if t.1 == Created {
      BindChanges(db.attachments, n, m, |n.attachmentIds|, at);
      assert n.attachmentIds[..|n.attachmentIds|] == n.attachmentIds;
      forall p | 0 <= p < |n.attachmentIds| ensures IsPart(t.0, m, n.attachmentIds[p], p) {
        assert IsBoundAt(db.attachments, t.0.attachments, n, m, p, at) && n.attachmentIds[p] in n.attachmentIds;
      }
      forall a | a in n.attachmentIds
        ensures a in db.attachments && a in t.0.attachments && db.attachments[a].actualSize == t.0.attachments[a].actualSize
      {
        var p :| 0 <= p < |n.attachmentIds| && n.attachmentIds[p] == a;
        assert IsPart(t.0, m, a, p) && IsBoundAt(db.attachments, t.0.attachments, n, m, p, at);
      }
      SameTotal(db.attachments, t.0.attachments, n.attachmentIds);
      TotalIsSum(t.0, n.attachmentIds);
    }
  }

  /** Another message takes nothing away from one that has its attachments. */
  lemma CreationKeepsBindings(db: Db, n: NewMessage, m: MessageId, at: int, k: MessageId, ids: seq<AttachmentId>)
    requires m !in db.messages && Binds(db, k, ids)
    ensures Binds(CreateMessage(db, n, m, at).0, k, ids)
  {
    hide Bind, KeyTaken, Touched, Recipients, Notify, TotalSize;
    var t := CreateMessage(db, n, m, at);
    if t.1 == Created && n.isMedia {
      BindChanges(db.attachments, n, m, |n.attachmentIds|, at);
      assert n.attachmentIds[..|n.attachmentIds|] == n.attachmentIds;
      forall a | a in n.attachmentIds ensures a in db.attachments && db.attachments[a].message.None? && t.0.attachments[a].message == Some(m) {
        var p :| 0 <= p < |n.attachmentIds| && n.attachmentIds[p] == a;
        assert IsBoundAt(db.attachments, t.0.attachments, n, m, p, at);
      }
    }
    KeptBindings(db, t.0, k, ids);
  }

  /** The rows of its attachments are all that a binding depends on. */
  lemma KeptBindings(db: Db, t: Db, m: MessageId, ids: seq<AttachmentId>)
    requires Binds(db, m, ids) && m in t.messages && SameMessage(db.messages[m], t.messages[m])
    requires forall a :: a in ids ==> a in db.attachments && a in t.attachments && SameBinding(db.attachments[a], t.attachments[a])
    requires forall a :: a in t.attachments && t.attachments[a].message == Some(m) ==>
      a in db.attachments && db.attachments[a].message == Some(m)
    ensures Binds(t, m, ids)
  {
    hide TotalSize;
    forall p | 0 <= p < |ids| ensures IsPart(t, m, ids[p], p) {
      assert IsPart(db, m, ids[p], p) && ids[p] in ids;
    }
    SameTotal(db.attachments, t.attachments, ids);
  }

  ghost predicate SameBinding(x: Attachment, y: Attachment) {
    && y.message == x.message && y.position == x.position && y.status == x.status && y.actualSize == x.actualSize
    && y.owner == x.owner && y.conversation == x.conversation
  }

  /** Nothing but a creation comes near the attachments of a live message: they are not due for cleanup. */
  lemma OthersKeepBindings(db: Db, retention: nat, e: Event, m: MessageId, ids: seq<AttachmentId>)
    requires !e.CreatingMessage? && Binds(db, m, ids) && RetentionHolds(db, retention) && db.messages[m].deletedAt.None?
    ensures Binds(Step(db, retention, e), m, ids)
  {
    hide Step, TotalSize;
    var t := Step(db, retention, e);
    MessagesStay(db, retention, e, m);
    forall a | a in ids ensures a in db.attachments && a in t.attachments && SameBinding(db.attachments[a], t.attachments[a]) {
      var p :| 0 <= p < |ids| && ids[p] == a;
      assert IsPart(db, m, a, p) && DueWithMessage(db, retention, db.attachments[a]);
      AttachmentFrame(db, retention, e, a);
    }
    forall a | a in t.attachments && t.attachments[a].message == Some(m) ensures a in db.attachments && db.attachments[a].message == Some(m) {
      AttachmentFrame(db, retention, e, a);
    }
    KeptBindings(db, t, m, ids);
  }

  lemma StepKeepsBindings(db: Db, retention: nat, e: Event, m: MessageId, ids: seq<AttachmentId>)
    requires Binds(db, m, ids) && RetentionHolds(db, retention) && db.messages[m].deletedAt.None?
    ensures Binds(Step(db, retention, e), m, ids)
  {
    hide CreateMessage, GroupStep, Binds, RetentionHolds, IsCandidate, Later, IsMember;
    if !e.CreatingMessage? {
      OthersKeepBindings(db, retention, e, m, ids);
    } else if e.m !in db.messages {
      CreationKeepsBindings(db, e.n, e.m, e.at, m, ids);
    }
  }

  lemma RetentionNamesMessages(db: Db, retention: nat)
    requires RetentionHolds(db, retention)
    ensures OwnersExist(db)
  {
    forall a | a in db.attachments && db.attachments[a].message.Some? ensures db.attachments[a].message.value in db.messages {
      assert DueWithMessage(db, retention, db.attachments[a]);
    }
  }

  ghost predicate MediaBound(db: Db) {
    forall m :: m in db.messages && db.messages[m].isMedia && db.messages[m].deletedAt.None? ==> exists ids :: Binds(db, m, ids)
  }

  lemma StepMediaBound(db: Db, retention: nat, e: Event)
    requires RetentionHolds(db, retention) && MediaBound(db)
    ensures MediaBound(Step(db, retention, e))
  {
    hide CreateMessage, GroupStep, Binds;
    var t := Step(db, retention, e);
    forall m | m in t.messages && t.messages[m].isMedia && t.messages[m].deletedAt.None? ensures exists ids :: Binds(t, m, ids) {
      if m in db.messages {
        MessagesStay(db, retention, e, m);
        var ids :| Binds(db, m, ids);
        StepKeepsBindings(db, retention, e, m, ids);
      } else {
        OnlyCreationAdds(db, retention, e, m);
        RetentionNamesMessages(db, retention);
        CreationBinds(db, e.n, m, e.at);
      }
    }
  }

  lemma OnlyCreationAdds(db: Db, retention: nat, e: Event, m: MessageId)
    requires m !in db.messages && m in Step(db, retention, e).messages
    ensures e.CreatingMessage? && e.m == m && CreateMessage(db, e.n, m, e.at).1 == Created
    ensures Step(db, retention, e).messages[m].isMedia == e.n.isMedia
  {
    hide GroupStep, Bind, KeyTaken;
    if e.InGroup? { GroupStepFrame(db, e.c, e.change); }
  }

  /** In every run each undeleted media message has its 1 to 4 READY attachments, at most 50 MiB in all. */
  lemma {:induction false} MediaAlwaysBound(retention: nat, events: seq<Event>)
    ensures MediaBound(After(retention, events))
    decreases |events|
  {
    if events != [] {
      var before := events[..|events| - 1];
      MediaAlwaysBound(retention, before);
      RetentionAlwaysHolds(retention, before);
      StepMediaBound(After(retention, before), retention, events[|events| - 1]);
    }
  }

  /** An attachment that belongs to a message never moves to another one or back to none, nor changes its place. */
  lemma BindingIsForGood(db: Db, retention: nat, e: Event, a: AttachmentId)
    requires a in db.attachments && db.attachments[a].message.Some? && a in Step(db, retention, e).attachments
    ensures Step(db, retention, e).attachments[a].message == db.attachments[a].message
    ensures Step(db, retention, e).attachments[a].position == db.attachments[a].position
  {
    hide GroupStep, Bind, KeyTaken, Touched, Recipients, Notify, TotalSize, MediaObstacle;
    if !e.CreatingMessage? {
      hide Step;
      AttachmentFrame(db, retention, e, a);
    } else if e.m !in db.messages && CreateMessage(db, e.n, e.m, e.at).1 == Created && e.n.isMedia {
      BindingLeavesBound(db, e.n, e.m, e.at, a);
    }
  }

  lemma BindingLeavesBound(db: Db, n: NewMessage, m: MessageId, at: int, a: AttachmentId)
    requires m !in db.messages && n.isMedia && CreateMessage(db, n, m, at).1 == Created
    requires a in db.attachments && db.attachments[a].message.Some?
    ensures a in CreateMessage(db, n, m, at).0.attachments && CreateMessage(db, n, m, at).0.attachments[a] == db.attachments[a]
  {
    hide Bind, KeyTaken, Touched, Recipients, Notify, TotalSize;
    var t := CreateMessage(db, n, m, at).0;
    BindChanges(db.attachments, n, m, |n.attachmentIds|, at);
    assert n.attachmentIds[..|n.attachmentIds|] == n.attachmentIds;
    forall p | 0 <= p < |n.attachmentIds| ensures n.attachmentIds[p] != a {
      assert IsBoundAt(db.attachments, t.attachments, n, m, p, at);
    }
  }
}
