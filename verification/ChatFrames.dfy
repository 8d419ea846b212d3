/** What single transactions leave alone. */
module ChatFrames {
  import opened Prelude
  import opened ChatDb
  import G = Groups

  /** Messages are never removed and keep their identity; the first deletion stands. */
  ghost predicate SameMessage(before: Message, after: Message) {
    && after.conversation == before.conversation && after.sender == before.sender && after.clientId == before.clientId
    && after.isMedia == before.isMedia && after.createdAt == before.createdAt
    && (before.deletedAt.Some? ==> after == before)
  }

  lemma MessagesStay(db: Db, retention: nat, e: Event, m: MessageId)
    requires m in db.messages
    ensures m in Step(db, retention, e).messages && SameMessage(db.messages[m], Step(db, retention, e).messages[m])
  {
    hide GroupStep, CreateGroup, CreateDirect, MediaObstacle, Bind, KeyTaken, Touched, Notify, IsMember, IsCandidate, Later;
    CreationsTouchNoAttachment(db, e);
    if e.InGroup? { GroupStepFrame(db, e.c, e.change); }
  }

  /** An edit of one's own undeleted message of that kind leaves it with the requested body exactly if it had a body or
      is to have none: a caption can be changed and removed, but not added later. */
  lemma EditTakesEffect(db: Db, c: ConversationId, m: MessageId, sender: UserId, isMedia: bool, body: Option<string>, at: int)
    requires CanDelete(db, c, m, sender) && db.messages[m].isMedia == isMedia
    ensures var t := EditMessage(db, c, m, sender, isMedia, body, at);
      t.messages[m].body == body <==> db.messages[m].body.Some? || body.None?
  {
  }

  lemma GroupStepFrame(db: Db, c: ConversationId, e: G.Event)
    ensures var t := GroupStep(db, c, e);
      && t.messages == db.messages && t.attachments == db.attachments && t.watermarks == db.watermarks
      && t.conversations.Keys == db.conversations.Keys
      && forall d :: d in db.conversations ==> t.conversations[d].lastMessageAt == db.conversations[d].lastMessageAt
  {
    hide G.Step, G.Remove, G.Leave, Forget, WithMembers;
    if c in db.conversations { WithMembersFrame(db, c, G.Step(db.conversations[c].members, db.users, e)); }
  }

  lemma WithMembersFrame(db: Db, c: ConversationId, ms: G.Members)
    requires c in db.conversations
    ensures var t := WithMembers(db, c, ms);
      && t.messages == db.messages && t.attachments == db.attachments && t.watermarks == db.watermarks
      && t.conversations.Keys == db.conversations.Keys
      && forall d :: d in db.conversations ==> t.conversations[d].lastMessageAt == db.conversations[d].lastMessageAt
  {
  }

  /** What a transaction other than a creation does to one attachment: where it belongs stays, READY stays, and only
      cleanup takes a candidate away. */
  lemma AttachmentFrame(db: Db, retention: nat, e: Event, a: AttachmentId)
    requires !e.CreatingMessage?
    ensures var t := Step(db, retention, e);
      && (a in db.attachments && a in t.attachments ==> SamePlace(db.attachments[a], t.attachments[a]))
      && (a in db.attachments && a !in t.attachments ==>
            e.CleaningUp? && e.a == a && IsCandidate(db.attachments[a], e.now, e.unboundReadyBefore, e.staleBefore))
      && (a !in db.attachments && a in t.attachments ==> t.attachments[a].message.None? && t.attachments[a].purgeAfter.None?)
  {
    hide GroupStep, IsCandidate, Later, IsMember, CreateGroup, CreateDirect;
    if e.InGroup? { GroupStepFrame(db, e.c, e.change); }
    CreationsTouchNoAttachment(db, e);
  }

  ghost predicate SameLogs(db: Db, t: Db) {
    t.attachments == db.attachments && t.messages == db.messages
  }

  lemma CreationsTouchNoAttachment(db: Db, e: Event)
    ensures e.CreatingGroup? ==> SameLogs(db, CreateGroup(db, e.c, e.creator, e.userIds, e.at))
    ensures e.CreatingDirect? ==> SameLogs(db, CreateDirect(db, e.c, e.me, e.other, e.at))
  {
  }

  ghost predicate SamePlace(x: Attachment, y: Attachment) {
    && y.message == x.message && y.position == x.position && y.owner == x.owner && y.conversation == x.conversation
    && (x.status == Ready ==> y.status == Ready && y.actualSize == x.actualSize)
  }

  /** The loop touches nothing but the listed attachments, which were unbound. */
  lemma {:induction false} BindChanges(atts: Attachments, n: NewMessage, m: MessageId, count: nat, now: int)
    requires count <= |n.attachmentIds| && Bind(atts, n, m, count, now).Some? && NoRepetition(n.attachmentIds)
    ensures var t := Bind(atts, n, m, count, now).value;
      && t.Keys == atts.Keys
      && (forall p :: 0 <= p < count ==> IsBoundAt(atts, t, n, m, p, now))
      && (forall a :: a in atts && a !in n.attachmentIds[..count] ==> t[a] == atts[a])
  {
    if count > 0 {
      BindChanges(atts, n, m, count - 1, now);
      var before := Bind(atts, n, m, count - 1, now).value;
      var last := n.attachmentIds[count - 1];
      assert n.attachmentIds[..count] == n.attachmentIds[..count - 1] + [last];
      assert forall p :: 0 <= p < count - 1 ==> n.attachmentIds[p] != last;
      assert last !in n.attachmentIds[..count - 1];
      var t := Bind(atts, n, m, count, now).value;
      assert t == before[last := before[last].(message := Some(m), position := count - 1, updatedAt := now)];
      forall p | 0 <= p < count ensures IsBoundAt(atts, t, n, m, p, now) {
        if p < count - 1 { assert IsBoundAt(atts, before, n, m, p, now); }
      }
    }
  }

  ghost predicate IsBoundAt(atts: Attachments, t: Attachments, n: NewMessage, m: MessageId, p: nat, now: int)
    requires p < |n.attachmentIds|
  {
    var a := n.attachmentIds[p];
    && a in atts && a in t && atts[a].message.None? && atts[a].conversation == n.conversation
    && t[a] == atts[a].(message := Some(m), position := p, updatedAt := now)
  }
}
