/** When each chat transaction does something, and what it does then, column by column. */
module ChatEffects {
  import opened Prelude
  import opened ChatDb
  import A = ChatAttachments
  import F = ChatFrames
  import G = Groups

  /** Somebody has used the key. */
  ghost predicate IsTaken(db: Db, sender: UserId, clientId: nat) {
    exists k :: k in db.messages && db.messages[k].sender == sender && db.messages[k].clientId == clientId
  }

  /** A text message is created exactly if its key is free and the conversation exists; a taken key is reported first. */
  lemma TextCreation(db: Db, n: NewMessage, m: MessageId, at: int)
    requires m !in db.messages && !n.isMedia
    ensures CreateMessage(db, n, m, at).1 ==
      if IsTaken(db, n.sender, n.clientId) then Duplicate else if n.conversation in db.conversations then Created else NoConversation
  {
    hide Touched, Recipients, Notify;
  }

  /** A media message is created exactly if it is not refused and its key is free; a refusal is reported first. */
  lemma MediaCreation(db: Db, n: NewMessage, m: MessageId, at: int)
    requires m !in db.messages && n.isMedia
    ensures CreateMessage(db, n, m, at).1 ==
      if MediaObstacle(db, n).Some? then MediaObstacle(db, n).value
      else if IsTaken(db, n.sender, n.clientId) then Duplicate else Created
  {
    hide Touched, Recipients, Notify, TotalSize;
    if MediaObstacle(db, n).None? { A.BindSucceeds(db, n, m, |n.attachmentIds|, at); }
  }

  /** What a creation stores: the message as it was sent, with the id and time it was given, neither edited nor deleted. Of the
      conversations only its own last-message time may move, and nothing else but attachments and notifications changes. */
  lemma CreationStores(db: Db, n: NewMessage, m: MessageId, at: int)
    requires m !in db.messages && CreateMessage(db, n, m, at).1 == Created
    ensures var t := CreateMessage(db, n, m, at).0;
      && t.messages == db.messages[m := Message(n.conversation, n.sender, n.clientId, n.isMedia, n.body, at, None, None)]
      && t.users == db.users && t.watermarks == db.watermarks && t.conversations.Keys == db.conversations.Keys
      && (forall c :: c in db.conversations && c != n.conversation ==> t.conversations[c] == db.conversations[c])
      && n.conversation in db.conversations
      && t.conversations[n.conversation] ==
           db.conversations[n.conversation].(lastMessageAt := t.conversations[n.conversation].lastMessageAt)
  {
    hide Bind, KeyTaken, Recipients, Notify, MediaObstacle;
  }

  /** What it does to attachments: a text message leaves them alone, a media message binds exactly the listed ones, each at its
      place in the list. */
  lemma CreationBindsOnly(db: Db, n: NewMessage, m: MessageId, at: int)
    requires m !in db.messages && CreateMessage(db, n, m, at).1 == Created
    ensures var t := CreateMessage(db, n, m, at).0;
      && t.attachments.Keys == db.attachments.Keys
      && (forall a :: a in db.attachments && !(n.isMedia && a in n.attachmentIds) ==> t.attachments[a] == db.attachments[a])
      && (n.isMedia ==> forall p :: 0 <= p < |n.attachmentIds| ==>
           var a := n.attachmentIds[p];
           a in db.attachments && t.attachments[a] == db.attachments[a].(message := Some(m), position := p, updatedAt := at))
  {
    hide Bind, KeyTaken, Recipients, Notify, TotalSize, Touched;
    if n.isMedia {
      F.BindChanges(db.attachments, n, m, |n.attachmentIds|, at);
      assert n.attachmentIds[..|n.attachmentIds|] == n.attachmentIds;
      forall p | 0 <= p < |n.attachmentIds|
        ensures var a := n.attachmentIds[p]; var t := CreateMessage(db, n, m, at).0;
          a in db.attachments && t.attachments[a] == db.attachments[a].(message := Some(m), position := p, updatedAt := at)
      {
        assert F.IsBoundAt(db.attachments, CreateMessage(db, n, m, at).0.attachments, n, m, p, at);
      }
    }
  }

  /** An edit changes the body and the edit time of the sender's own undeleted message of that kind in that conversation, if it
      has a body and the new one is another; in any other case it changes nothing. */
  lemma EditEffect(db: Db, c: ConversationId, m: MessageId, sender: UserId, isMedia: bool, body: Option<string>, at: int)
    ensures EditMessage(db, c, m, sender, isMedia, body, at) ==
      if m in db.messages && db.messages[m].conversation == c && db.messages[m].sender == sender && db.messages[m].isMedia == isMedia
         && db.messages[m].deletedAt.None? && db.messages[m].body.Some? && db.messages[m].body != body
      then db.(messages := db.messages[m := db.messages[m].(body := body, editedAt := Some(at))]) else db
  {
  }

  /** A deletion marks the sender's own undeleted message in that conversation, and makes its attachments, and no others, due. */
  lemma DeletionEffect(db: Db, c: ConversationId, m: MessageId, sender: UserId, at: int, purgeAfter: int)
    ensures var t := SoftDelete(db, c, m, sender, at, purgeAfter);
      if m in db.messages && db.messages[m].conversation == c && db.messages[m].sender == sender && db.messages[m].deletedAt.None?
      then
        && t == db.(messages := t.messages, attachments := t.attachments)
        && t.messages == db.messages[m := db.messages[m].(deletedAt := Some(at))]
        && t.attachments.Keys == db.attachments.Keys
        && forall a :: a in db.attachments ==>
             t.attachments[a] == if db.attachments[a].message == Some(m)
                                 then db.attachments[a].(purgeAfter := Some(purgeAfter), updatedAt := at) else db.attachments[a]
      else t == db
  {
  }

  /** A deletion through the service is followed by the retention time. */
  lemma DeletionKeepsRetention(db: Db, retention: nat, c: ConversationId, m: MessageId, sender: UserId, at: int, a: AttachmentId)
    requires a in db.attachments && db.attachments[a].message == Some(m)
    requires m in db.messages && db.messages[m].conversation == c && db.messages[m].sender == sender && db.messages[m].deletedAt.None?
    ensures var t := Step(db, retention, DeletingMessage(c, m, sender, at));
      && t.messages[m].deletedAt == Some(at) && a in t.attachments && t.attachments[a].purgeAfter == Some(at + retention)
  {
  }

  /** A new group has its creator as owner and everybody listed as a plain member, if all of them are available and different. */
  lemma GroupCreation(db: Db, c: ConversationId, creator: UserId, userIds: seq<UserId>, now: int)
    ensures var t := CreateGroup(db, c, creator, userIds, now);
      if c !in db.conversations && creator in db.users && (forall u :: u in userIds ==> u in db.users && u != creator)
         && forall i, j :: 0 <= i < j < |userIds| ==> userIds[i] != userIds[j]
      then
        && t == db.(conversations := t.conversations) && t.conversations.Keys == db.conversations.Keys + {c}
        && (forall d :: d in db.conversations ==> t.conversations[d] == db.conversations[d])
        && t.conversations[c].isGroup && t.conversations[c].lastMessageAt.None?
        && t.conversations[c].members == map u | u in [creator] + userIds ::
             if u == creator then G.Membership(G.Owner, now, None, false) else G.Membership(G.Member, now, None, false)
      else t == db
  {
    hide G.Create;
    G.CreationSucceeds(db.users, creator, userIds, now);
    if G.Create(db.users, creator, userIds, now).Some? { G.CreatedGroup(db.users, creator, userIds, now); }
  }

  /** Two users get one direct conversation with both as plain members who have just joined. */
  lemma DirectEffect(db: Db, c: ConversationId, me: UserId, other: UserId, now: int)
    requires c !in db.conversations && me != other
    ensures CreateDirect(db, c, me, other, now) == db.(conversations := db.conversations[c :=
      Conversation(false, None, map[me := G.Membership(G.Member, now, None, false), other := G.Membership(G.Member, now, None, false)])])
  {
  }

  /** A group transaction needs a group; a mute works in any conversation. Only a member who ends is forgotten, with the
      notifications of that conversation alone. */
  lemma GroupEffect(db: Db, c: ConversationId, e: G.Event)
    ensures var t := GroupStep(db, c, e);
      && t == db.(conversations := t.conversations, notifications := t.notifications)
      && (!(c in db.conversations && (db.conversations[c].isGroup || e.Muting?)) ==> t == db)
      && (c in db.conversations && (db.conversations[c].isGroup || e.Muting?) ==>
           t.conversations == db.conversations[c := db.conversations[c].(members := G.Step(db.conversations[c].members, db.users, e))])
      && (forall k :: k in t.notifications ==> k in db.notifications && t.notifications[k] == db.notifications[k])
      && (forall k :: k in db.notifications && k !in t.notifications ==>
           && db.notifications[k] == c && c in db.conversations
           && ((e.Removing? && k.0 == e.user && G.Remove(db.conversations[c].members, e.actor, e.user, e.at).Ok?)
               || (e.Leaving? && k.0 == e.actor && G.Leave(db.conversations[c].members, e.actor, e.at).Ok?)))
  {
    hide G.Step, G.Remove, G.Leave;
  }

  /** Somebody who has just left or been removed has no notification of that conversation. */
  lemma EndedIsForgotten(db: Db, c: ConversationId, e: G.Event, k: (UserId, MessageId))
    requires c in db.conversations && db.conversations[c].isGroup && k in db.notifications && db.notifications[k] == c
    requires
      || (e.Removing? && k.0 == e.user && G.Remove(db.conversations[c].members, e.actor, e.user, e.at).Ok?)
      || (e.Leaving? && k.0 == e.actor && G.Leave(db.conversations[c].members, e.actor, e.at).Ok?)
    ensures k !in GroupStep(db, c, e).notifications
  {
    hide G.Step, G.Remove, G.Leave;
  }

  /** A report moves the watermark exactly if its target is a message of the conversation that comes after the old one. */
  lemma ReadEffect(db: Db, c: ConversationId, u: UserId, target: MessageId)
    ensures UpdateWatermark(db, c, u, target) ==
      if target in db.messages && db.messages[target].conversation == c
         && ((c, u) in db.watermarks ==>
               var old_ := db.watermarks[(c, u)];
               && old_ in db.messages
               && (db.messages[target].createdAt > db.messages[old_].createdAt
                   || (db.messages[target].createdAt == db.messages[old_].createdAt && target > old_)))
      then db.(watermarks := db.watermarks[(c, u) := target]) else db
  {
  }

  /** The upload life cycle moves a row's status and size: a READY row keeps both, and one that becomes READY has a size. */
  lemma StatusEffect(db: Db, a: AttachmentId, status: Status, actualSize: Option<nat>)
    ensures LifecycleStep(db, a, status, actualSize) ==
      if a in db.attachments
         && (if db.attachments[a].status == Ready then status == Ready && actualSize == db.attachments[a].actualSize
             else status == Ready ==> actualSize.Some?)
      then db.(attachments := db.attachments[a := db.attachments[a].(status := status, actualSize := actualSize)]) else db
  {
  }

  /** Which operation each event stands for. */
  lemma EventsAre(db: Db, retention: nat, n: NewMessage, m: MessageId, c: ConversationId, u: UserId, at: int, users: set<UserId>, a: AttachmentId,
                  unboundReadyBefore: int, staleBefore: int)
    ensures Step(db, retention, SettingUsers(users)) == Db(users, db.conversations, db.messages, db.attachments, db.notifications, db.watermarks)
    ensures Step(db, retention, CreatingMessage(n, m, at)) == if m in db.messages then db else CreateMessage(db, n, m, at).0
    ensures Step(db, retention, DeletingMessage(c, m, u, at)) == SoftDelete(db, c, m, u, at, at + retention)
    ensures Step(db, retention, ReadingUpTo(c, u, m)) == UpdateWatermark(db, c, u, m)
    ensures Step(db, retention, CleaningUp(a, at, unboundReadyBefore, staleBefore)) ==
      if a in db.attachments
         && (var x := db.attachments[a];
             || (x.message.None? && x.status == Ready && x.updatedAt <= unboundReadyBefore)
             || (x.message.None? && x.status == Pending && x.uploadExpiresAt <= staleBefore)
             || (x.message.None? && x.status in {Rejected, Cancelled} && x.updatedAt <= staleBefore)
             || (x.purgeAfter.Some? && x.purgeAfter.value <= at))
      then db.(attachments := db.attachments - {a}) else db
  {
  }

  /** A new attachment row of a current member: unbound, PENDING, not due. */
  lemma AttachmentEffect(db: Db, a: AttachmentId, owner: UserId, c: ConversationId, uploadExpiresAt: int, now: int)
    ensures CreateAttachment(db, a, owner, c, uploadExpiresAt, now) ==
      if a !in db.attachments && c in db.conversations && owner in db.conversations[c].members
         && db.conversations[c].members[owner].leftAt.None?
      then db.(attachments := db.attachments[a := Attachment(owner, c, None, 0, None, now, Pending, None, uploadExpiresAt)]) else db
  {
  }
}
