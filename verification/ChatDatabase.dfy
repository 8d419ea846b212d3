/** The transactions as the repositories carry them out: statement by statement on the tables, undoing
    everything when one of them throws. */
module ChatDatabase {
  import opened Prelude
  import opened ChatDb
  import G = Groups

  /** Nobody's row but that of `u` has changed. */
  ghost predicate OnlyRowOf(u: UserId, before: G.Members, after: G.Members) {
    forall v :: v != u ==> (v in after <==> v in before) && (v in after ==> after[v] == before[v])
  }

  /** Exactly the notifications of `u` in `c` are gone. */
  ghost predicate ForgetsOnly(u: UserId, c: ConversationId, before: Notifications, after: Notifications) {
    forall k :: k in after <==> k in before && !(k.0 == u && before[k] == c) && (k in after ==> after[k] == before[k])
  }

  class Database {
    var users: set<UserId>
    var conversations: map<ConversationId, Conversation>
    var messages: map<MessageId, Message>
    var attachments: Attachments
    var notifications: Notifications
    var watermarks: map<(ConversationId, UserId), MessageId>

    function View(): Db reads this {
      Db(users, conversations, messages, attachments, notifications, watermarks)
    }

    constructor ()
      ensures View() == EMPTY
    {
      users, conversations, messages := {}, map[], map[];
      attachments, notifications, watermarks := map[], map[], map[];
    }

    /** The tables as other transactions have left them. */
    method Load(db: Db)
      modifies this
      ensures View() == db
    {
      users, conversations, messages := db.users, db.conversations, db.messages;
      attachments, notifications, watermarks := db.attachments, db.notifications, db.watermarks;
    }

    // ---- Messages ---------------------------------------------------------------------

    method FindByIdempotencyKey(sender: UserId, clientId: nat) returns (found: Option<MessageId>)
      ensures found.Some? ==> HasKey(View(), found.value, sender, clientId)
      ensures found.None? ==> !KeyTaken(View(), sender, clientId)
    {
      if exists k :: k in messages && messages[k].sender == sender && messages[k].clientId == clientId {
        var k :| k in messages && messages[k].sender == sender && messages[k].clientId == clientId;
        return Some(k);
      }
      return None;
    }

    /** The checks on the requested attachments, in the order of the source. */
    method CheckAttachments(n: NewMessage) returns (obstacle: Option<CreateOutcome>)
      ensures obstacle == MediaObstacle(View(), n)
    {
      var ids := n.attachmentIds;
      if |ids| < 1 || |ids| > MAX_ATTACHMENTS || !NoRepetition(ids) {
        return Some(BindingError);
      }
      if n.conversation !in conversations || !G.IsActive(conversations[n.conversation].members, n.sender) {
        return Some(NoConversation);
      }
      var availableAttachments := 0;
      for i := 0 to |ids|
        invariant availableAttachments <= i
        invariant availableAttachments == i <==> forall k :: 0 <= k < i ==> IsAvailable(attachments, n, ids[k])
      {
        if IsAvailable(attachments, n, ids[i]) {
          availableAttachments := availableAttachments + 1;
        }
      }
      if availableAttachments != |ids| {
        assert exists k :: 0 <= k < |ids| && !IsAvailable(attachments, n, ids[k]);
        return Some(BindingError);
      }
      var totalSize := 0;
      for i := 0 to |ids|
        invariant forall k :: 0 <= k < i ==> attachments[ids[k]].actualSize.Some?
        invariant totalSize == TotalSize(attachments, ids[..i])
      {
        assert ids[i] in ids;
        if attachments[ids[i]].actualSize.None? {
          return Some(BindingError);
        }
        assert ids[..i + 1][..i] == ids[..i];
        totalSize := totalSize + attachments[ids[i]].actualSize.value;
      }
      assert ids[..|ids|] == ids;
      if totalSize > MAX_TOTAL_BYTES {
        return Some(TotalSizeExceeded);
      }
      return None;
    }

    method CreateMessageTransaction(n: NewMessage, m: MessageId, createdAt: int) returns (outcome: CreateOutcome)
      requires m !in messages
      modifies this
      ensures (View(), outcome) == CreateMessage(old(View()), n, m, createdAt)
    {
      hide MediaObstacle, TotalSize;
      if n.isMedia {
        var obstacle := CheckAttachments(n);
        if obstacle.Some? {
          return obstacle.value;
        }
      }
      if exists k :: k in messages && messages[k].sender == n.sender && messages[k].clientId == n.clientId {
        return Duplicate;
      }
      if n.conversation !in conversations {
        return NoConversation;
      }
      var savedMessages, savedAttachments := messages, attachments;
      messages := messages[m := Message(n.conversation, n.sender, n.clientId, n.isMedia, n.body, createdAt, None, None)];
      if n.isMedia {
        for position := 0 to |n.attachmentIds|
          invariant Bind(savedAttachments, n, m, position, createdAt) == Some(attachments)
          invariant View() == old(View()).(messages := messages, attachments := attachments)
          invariant messages == savedMessages[m := Message(n.conversation, n.sender, n.clientId, n.isMedia, n.body, createdAt, None, None)]
        {
          var a := n.attachmentIds[position];
          var found := a in attachments && attachments[a].conversation == n.conversation && attachments[a].message.None?;
          if !found {
            BindStops(savedAttachments, n, m, position, |n.attachmentIds|, createdAt);
            messages, attachments := savedMessages, savedAttachments;
            return BindingError;
          }
          attachments := attachments[a := attachments[a].(message := Some(m), position := position, updatedAt := createdAt)];
        }
      }
      var conversation := conversations[n.conversation];
      if conversation.lastMessageAt.None? || conversation.lastMessageAt.value < createdAt {
        conversations := conversations[n.conversation := conversation.(lastMessageAt := Some(createdAt))];
      }
      var recipients := Recipients(conversation, n.sender, createdAt);
      notifications := Notify(notifications, n.conversation, m, recipients);
      assert conversations == old(conversations)[n.conversation := Touched(conversation, createdAt)];
      return Created;
    }

    method UpdateMessage(c: ConversationId, m: MessageId, sender: UserId, isMedia: bool, body: Option<string>, editedAt: int)
      returns (found: bool, changed: bool)
      modifies this
      ensures View() == EditMessage(old(View()), c, m, sender, isMedia, body, editedAt)
      ensures changed == CanEdit(old(View()), c, m, sender, isMedia, body)
      ensures found == (CanDelete(old(View()), c, m, sender) && old(messages)[m].isMedia == isMedia)
      ensures messages.Keys == old(messages).Keys && forall k :: k in messages && k != m ==> messages[k] == old(messages)[k]
      ensures changed ==>
        && found && old(messages)[m].deletedAt.None? && old(messages)[m].body.Some? && old(messages)[m].body != body
        && messages[m] == old(messages)[m].(body := body, editedAt := Some(editedAt))
      ensures !changed ==> View() == old(View())
    {
      found := m in messages && messages[m].conversation == c && messages[m].sender == sender
               && messages[m].isMedia == isMedia && messages[m].deletedAt.None?;
      changed := found && messages[m].body.Some? && messages[m].body != body;
      if changed {
        messages := messages[m := messages[m].(body := body, editedAt := Some(editedAt))];
      }
    }

    method SoftDeleteMessage(c: ConversationId, m: MessageId, sender: UserId, deletedAt: int, attachmentPurgeAfter: int)
      returns (changed: bool)
      modifies this
      ensures View() == SoftDelete(old(View()), c, m, sender, deletedAt, attachmentPurgeAfter)
      ensures changed == CanDelete(old(View()), c, m, sender)
      ensures messages.Keys == old(messages).Keys && forall k :: k in messages && k != m ==> messages[k] == old(messages)[k]
      ensures attachments.Keys == old(attachments).Keys
      ensures changed ==>
        && messages[m] == old(messages)[m].(deletedAt := Some(deletedAt))
        && forall a :: a in attachments ==>
          if old(attachments)[a].message == Some(m) then attachments[a].purgeAfter == Some(attachmentPurgeAfter)
          else attachments[a] == old(attachments)[a]
      ensures !changed ==> View() == old(View())
    {
      changed := m in messages && messages[m].conversation == c && messages[m].sender == sender && messages[m].deletedAt.None?;
      if changed {
        messages := messages[m := messages[m].(deletedAt := Some(deletedAt))];
        attachments := map a | a in attachments ::
          if attachments[a].message == Some(m) then attachments[a].(purgeAfter := Some(attachmentPurgeAfter), updatedAt := deletedAt)
          else attachments[a];
      }
    }

    // ---- Members ------------------------------------------------------------------------

    method AddGroupMember(c: ConversationId, actor: UserId, user: UserId, joinedAt: int) returns (r: Result<(), G.Failure>)
      modifies this
      ensures View() == GroupStep(old(View()), c, G.Adding(actor, user, joinedAt))
      ensures r.Err? ==> View() == old(View())
      ensures r.Err? ==>
        if IsGroup(old(View()), c) then G.Add(old(conversations[c].members), users, actor, user, joinedAt) == Err(r.error)
        else r.error == G.ConversationNotFound
      ensures r.Ok? ==>
        && IsGroup(old(View()), c) && c in conversations && !G.IsActive(old(conversations[c].members), user)
        && user in conversations[c].members && conversations[c].members[user] == G.Membership(G.Member, joinedAt, None, false)
        && OnlyRowOf(user, old(conversations[c].members), conversations[c].members) && notifications == old(notifications)
        && |G.Active(old(conversations[c].members))| < G.MEMBER_LIMIT
    {
      if c !in conversations || !conversations[c].isGroup || !G.IsActive(conversations[c].members, actor) {
        return Err(G.ConversationNotFound);
      }
      var members := conversations[c].members;
      if !G.IsManager(members[actor].role) {
        return Err(G.InsufficientRole);
      }
      if user !in users {
        return Err(G.TargetNotFound);
      }
      if G.IsActive(members, user) {
        return Err(G.AlreadyActive);
      }
      var activeCount := |G.Active(members)|;
      if activeCount >= G.MEMBER_LIMIT {
        return Err(G.MemberLimit);
      }
      if user !in members {
        members := members[user := G.Membership(G.Member, joinedAt, None, false)];
      } else {
        members := members[user := members[user].(role := G.Member, joinedAt := joinedAt, leftAt := None, muted := false)];
      }
      conversations := conversations[c := conversations[c].(members := members)];
      return Ok(());
    }

    method RemoveGroupMember(c: ConversationId, actor: UserId, user: UserId, leftAt: int) returns (r: Result<(), G.Failure>)
      modifies this
      ensures View() == GroupStep(old(View()), c, G.Removing(actor, user, leftAt))
      ensures r.Err? ==> View() == old(View())
      ensures r.Err? ==>
        if IsGroup(old(View()), c) then G.Remove(old(conversations[c].members), actor, user, leftAt) == Err(r.error)
        else r.error == G.ConversationNotFound
      ensures r.Ok? ==>
        && IsGroup(old(View()), c) && c in conversations && user != actor
        && G.IsActive(old(conversations[c].members), user) && user in conversations[c].members
        && conversations[c].members[user] == old(conversations[c].members[user]).(leftAt := Some(leftAt))
        && OnlyRowOf(user, old(conversations[c].members), conversations[c].members)
        && ForgetsOnly(user, c, old(notifications), notifications)
    {
      if c !in conversations || !conversations[c].isGroup || !G.IsActive(conversations[c].members, actor) {
        return Err(G.ConversationNotFound);
      }
      if actor == user {
        return Err(G.SameUser);
      }
      var members := conversations[c].members;
      if !G.IsActive(members, user) {
        return Err(G.TargetNotFound);
      }
      if members[user].role == G.Owner {
        return Err(G.TargetIsOwner);
      }
      if !G.IsManager(members[actor].role) {
        return Err(G.InsufficientRole);
      }
      conversations := conversations[c := conversations[c].(members := members[user := members[user].(leftAt := Some(leftAt))])];
      notifications := Forget(notifications, c, user);
      return Ok(());
    }

    method LeaveGroup(c: ConversationId, actor: UserId, leftAt: int) returns (r: Result<(), G.Failure>)
      modifies this
      ensures View() == GroupStep(old(View()), c, G.Leaving(actor, leftAt))
      ensures r.Err? ==> View() == old(View())
      ensures r.Err? ==>
        if IsGroup(old(View()), c) then G.Leave(old(conversations[c].members), actor, leftAt) == Err(r.error)
        else r.error == G.ConversationNotFound
      ensures r.Ok? ==>
        && IsGroup(old(View()), c) && c in conversations
        && G.IsActive(old(conversations[c].members), actor) && actor in conversations[c].members
        && conversations[c].members[actor] == old(conversations[c].members[actor]).(leftAt := Some(leftAt))
        && OnlyRowOf(actor, old(conversations[c].members), conversations[c].members)
        && ForgetsOnly(actor, c, old(notifications), notifications)
    {
      if c !in conversations || !conversations[c].isGroup || !G.IsActive(conversations[c].members, actor) {
        return Err(G.ConversationNotFound);
      }
      var members := conversations[c].members;
      if members[actor].role == G.Owner {
        var activeCount := |G.Active(members)|;
        if activeCount == 1 {
          return Err(G.LastOwner);
        }
      }
      conversations := conversations[c := conversations[c].(members := members[actor := members[actor].(leftAt := Some(leftAt))])];
      notifications := Forget(notifications, c, actor);
      return Ok(());
    }

    method UpdateGroupMemberRole(c: ConversationId, actor: UserId, user: UserId, admin: bool) returns (r: Result<(), G.Failure>)
      modifies this
      ensures View() == GroupStep(old(View()), c, G.ChangingRole(actor, user, admin))
      ensures r.Err? ==> View() == old(View())
      ensures r.Err? ==>
        if IsGroup(old(View()), c) then G.UpdateRole(old(conversations[c].members), actor, user, admin) == Err(r.error)
        else r.error == G.ConversationNotFound
      ensures r.Ok? ==>
        && IsGroup(old(View()), c) && c in conversations
        && actor in G.Owners(old(conversations[c].members)) && user !in G.Owners(old(conversations[c].members))
        && G.IsActive(conversations[c].members, user)
        && conversations[c].members[user] == old(conversations[c].members[user]).(role := if admin then G.Admin else G.Member)
        && OnlyRowOf(user, old(conversations[c].members), conversations[c].members)
    {
      if c !in conversations || !conversations[c].isGroup || !G.IsActive(conversations[c].members, actor) {
        return Err(G.ConversationNotFound);
      }
      var members := conversations[c].members;
      if !G.IsActive(members, user) {
        return Err(G.TargetNotFound);
      }
      if members[user].role == G.Owner {
        return Err(G.TargetIsOwner);
      }
      if members[actor].role != G.Owner {
        return Err(G.InsufficientRole);
      }
      var role := if admin then G.Admin else G.Member;
      conversations := conversations[c := conversations[c].(members := members[user := members[user].(role := role)])];
      return Ok(());
    }

    method TransferGroupOwnership(c: ConversationId, actor: UserId, user: UserId) returns (r: Result<(), G.Failure>)
      modifies this
      ensures View() == GroupStep(old(View()), c, G.Transferring(actor, user))
      ensures r.Err? ==> View() == old(View())
      ensures r.Err? ==>
        if IsGroup(old(View()), c) then G.Transfer(old(conversations[c].members), actor, user) == Err(r.error)
        else r.error == G.ConversationNotFound
      ensures r.Ok? ==>
        && IsGroup(old(View()), c) && c in conversations && G.Owners(conversations[c].members) == {user}
        && actor in old(conversations[c].members) && actor in conversations[c].members
        && conversations[c].members[actor] == old(conversations[c].members[actor]).(role := G.Admin)
    {
      if c !in conversations || !conversations[c].isGroup || !G.IsActive(conversations[c].members, actor) {
        return Err(G.ConversationNotFound);
      }
      var members := conversations[c].members;
      if members[actor].role != G.Owner {
        return Err(G.InsufficientRole);
      }
      if actor == user {
        return Err(G.SameUser);
      }
      if !G.IsActive(members, user) {
        return Err(G.TargetNotFound);
      }
      var demoted := map u | u in members ::
        if members[u].leftAt.None? && members[u].role == G.Owner then members[u].(role := G.Admin) else members[u];
      var transferred := demoted[user := demoted[user].(role := G.Owner)];
      assert G.Transfer(members, actor, user) == Ok(transferred) by { TransferEffect(members, actor, user); }
      members := transferred;
      conversations := conversations[c := conversations[c].(members := members)];
      return Ok(());
    }

    method UpdateMute(c: ConversationId, user: UserId, muted: bool) returns (updated: bool)
      modifies this
      ensures View() == GroupStep(old(View()), c, G.Muting(user, muted))
      ensures updated == IsMember(old(View()), c, user)
      ensures !updated ==> View() == old(View())
      ensures updated ==>
        && IsMember(View(), c, user)
        && conversations[c].members[user] == old(conversations[c].members[user]).(muted := muted)
        && OnlyRowOf(user, old(conversations[c].members), conversations[c].members)
    {
      updated := c in conversations && G.IsActive(conversations[c].members, user);
      if updated {
        var members := conversations[c].members;
        conversations := conversations[c := conversations[c].(members := members[user := members[user].(muted := muted)])];
      }
    }

    // ---- Read watermarks -----------------------------------------------------------------

    /** The upsert; tells whether the target exists and the watermarks before and after. */
    method UpdateWatermarkRow(c: ConversationId, u: UserId, target: MessageId)
      returns (targetExists: bool, previous: Option<MessageId>, current: Option<MessageId>)
      modifies this
      ensures View() == UpdateWatermark(old(View()), c, u, target)
      ensures targetExists <==> target in old(messages) && old(messages)[target].conversation == c
      ensures previous == (if (c, u) in old(watermarks) then Some(old(watermarks)[(c, u)]) else None)
      ensures current == if (c, u) in watermarks then Some(watermarks[(c, u)]) else None
      ensures watermarks == if current.Some? then old(watermarks)[(c, u) := current.value] else old(watermarks)
      ensures !targetExists ==> current == previous
      ensures targetExists ==> current.Some? && (current == previous || current.value == target)
      ensures targetExists && previous.Some? && previous.value in messages ==>
        current.value in messages && !Later(View(), target, current.value) && !Later(View(), previous.value, current.value)
    {
      targetExists := target in messages && messages[target].conversation == c;
      previous := if (c, u) in watermarks then Some(watermarks[(c, u)]) else None;
      if targetExists {
        if previous.None? {
          watermarks := watermarks[(c, u) := target];
        } else if previous.value in messages {
          var targetRow, currentRow := messages[target], messages[previous.value];
          if targetRow.createdAt > currentRow.createdAt || (targetRow.createdAt == currentRow.createdAt && target > previous.value) {
            watermarks := watermarks[(c, u) := target];
          }
        }
      }
      current := if (c, u) in watermarks then Some(watermarks[(c, u)]) else None;
    }
  }

  lemma TransferEffect(ms: G.Members, actor: UserId, user: UserId)
    requires G.Transfer(ms, actor, user).Ok?
    ensures var demoted := map u | u in ms :: if ms[u].leftAt.None? && ms[u].role == G.Owner then ms[u].(role := G.Admin) else ms[u];
      G.Transfer(ms, actor, user) == Ok(demoted[user := demoted[user].(role := G.Owner)])
  {
    var demoted := map u | u in ms :: if ms[u].leftAt.None? && ms[u].role == G.Owner then ms[u].(role := G.Admin) else ms[u];
    assert G.Transfer(ms, actor, user).value == demoted[user := demoted[user].(role := G.Owner)];
  }

  /** Once one attachment cannot be bound, the whole loop fails. */
  lemma {:induction false} BindStops(atts: Attachments, n: NewMessage, m: MessageId, stop: nat, count: nat, now: int)
    requires stop < count <= |n.attachmentIds|
    requires Bind(atts, n, m, stop, now).Some?
    requires BindOne(Bind(atts, n, m, stop, now).value, n.conversation, m, n.attachmentIds[stop], stop, now).None?
    ensures Bind(atts, n, m, count, now).None?
    decreases count
  {
    if count > stop + 1 {
      BindStops(atts, n, m, stop, count - 1, now);
    }
  }
}
