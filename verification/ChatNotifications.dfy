/** Notifications over all serial runs. */
module ChatNotifications {
  import opened Prelude
  import opened ChatDb
  import F = ChatFrames
  import G = Groups

  /** A notification addresses a current member other than the sender, who had joined when the message was sent. */
  ghost predicate IsCurrent(db: Db, u: UserId, m: MessageId, c: ConversationId) {
    && IsMember(db, c, u)
    && m in db.messages && db.messages[m].conversation == c && db.messages[m].sender != u
    && db.conversations[c].members[u].joinedAt <= db.messages[m].createdAt
  }

  ghost predicate NotificationsCurrent(db: Db) {
    forall k :: k in db.notifications ==> IsCurrent(db, k.0, k.1, db.notifications[k])
  }

  /** A change in a group adds no notification, and ends the membership of a notified user only together with
      the notification. */
  lemma GroupStepMember(db: Db, c: ConversationId, e: G.Event, k: (UserId, MessageId))
    requires k in GroupStep(db, c, e).notifications
    requires k in db.notifications ==> IsMember(db, db.notifications[k], k.0)
    ensures k in db.notifications
    ensures var t, d := GroupStep(db, c, e), db.notifications[k];
      && t.notifications[k] == d && IsMember(t, d, k.0)
      && t.conversations[d].members[k.0].joinedAt == db.conversations[d].members[k.0].joinedAt
  {
    hide G.Step, G.Remove, G.Leave;
    G.WindowKept(db.conversations[db.notifications[k]].members, db.users, e, k.0);
  }

  lemma GroupStepNotifications(db: Db, c: ConversationId, e: G.Event)
    requires NotificationsCurrent(db)
    ensures NotificationsCurrent(GroupStep(db, c, e))
  {
    hide GroupStep;
    var t := GroupStep(db, c, e);
    F.GroupStepFrame(db, c, e);
    forall k | k in t.notifications ensures IsCurrent(t, k.0, k.1, t.notifications[k]) {
      if k in db.notifications { assert IsCurrent(db, k.0, k.1, db.notifications[k]); }
      GroupStepMember(db, c, e, k);
    }
  }

  lemma TouchedKeepsMembers(at: int)
    ensures forall c :: Touched(c, at).members == c.members
  {
  }

  lemma NotifyEntry(ns: Notifications, c: ConversationId, m: MessageId, recipients: set<UserId>, k: (UserId, MessageId))
    requires k in Notify(ns, c, m, recipients)
    ensures if k.1 == m && k.0 in recipients then Notify(ns, c, m, recipients)[k] == c else k in ns && Notify(ns, c, m, recipients)[k] == ns[k]
  {
  }

  lemma CreateMessageNotifications(db: Db, n: NewMessage, m: MessageId, at: int)
    requires NotificationsCurrent(db) && m !in db.messages
    ensures NotificationsCurrent(CreateMessage(db, n, m, at).0)
  {
    hide Bind, MediaObstacle, KeyTaken, Touched, Notify, Recipients;
    TouchedKeepsMembers(at);
    var (t, outcome) := CreateMessage(db, n, m, at);
    if outcome == Created {
      var recipients := Recipients(db.conversations[n.conversation], n.sender, at);
      forall k | k in t.notifications ensures IsCurrent(t, k.0, k.1, t.notifications[k]) {
        NotifyEntry(db.notifications, n.conversation, m, recipients, k);
        if k.1 == m && k.0 in recipients {
          RecipientIsMember(db.conversations[n.conversation], n.sender, at, k.0);
        } else {
          assert IsCurrent(db, k.0, k.1, db.notifications[k]);
        }
      }
    }
  }

  lemma RecipientIsMember(c: Conversation, sender: UserId, at: int, u: UserId)
    requires u in Recipients(c, sender, at)
    ensures u != sender && G.IsActive(c.members, u) && c.members[u].joinedAt <= at
  {
  }

  /** Nothing else touches a notification or a membership. */
  lemma OthersTouchNoMember(db: Db, retention: nat, e: Event)
    requires !e.CreatingMessage? && !e.InGroup?
    ensures var t := Step(db, retention, e);
      t.notifications == db.notifications && forall c :: c in db.conversations ==> c in t.conversations && t.conversations[c] == db.conversations[c]
  {
    hide G.Create, IsCandidate, Later, IsMember, LifecycleAllows;
  }

  lemma StepNotifications(db: Db, retention: nat, e: Event)
    requires NotificationsCurrent(db)
    ensures NotificationsCurrent(Step(db, retention, e))
  {
    hide CreateMessage, GroupStep;
    if e.InGroup? {
      hide IsCurrent;
      GroupStepNotifications(db, e.c, e.change);
    } else if e.CreatingMessage? {
      hide IsCurrent;
      if e.m !in db.messages { CreateMessageNotifications(db, e.n, e.m, e.at); }
    } else {
      hide Step;
      var t := Step(db, retention, e);
      OthersTouchNoMember(db, retention, e);
      forall k | k in t.notifications ensures IsCurrent(t, k.0, k.1, t.notifications[k]) {
        assert IsCurrent(db, k.0, k.1, db.notifications[k]);
        F.MessagesStay(db, retention, e, k.1);
      }
    }
  }

  /** In every run each stored notification is current; so one from before a user left never survives a
      return. And the insertion never meets its unique index: the new message has no notification yet. */
  lemma {:induction false} NotificationsAlwaysCurrent(retention: nat, events: seq<Event>)
    ensures NotificationsCurrent(After(retention, events))
    ensures forall u, m :: m !in After(retention, events).messages ==> (u, m) !in After(retention, events).notifications
    decreases |events|
  {
    if events != [] {
      NotificationsAlwaysCurrent(retention, events[..|events| - 1]);
      StepNotifications(After(retention, events[..|events| - 1]), retention, events[|events| - 1]);
    }
    var db := After(retention, events);
    forall k | k in db.notifications ensures k.1 in db.messages { assert IsCurrent(db, k.0, k.1, db.notifications[k]); }
  }

  lemma NotifyKeys(ns: Notifications, c: ConversationId, m: MessageId, recipients: set<UserId>, u: UserId)
    ensures (u, m) in Notify(ns, c, m, recipients) <==> (u, m) in ns || u in recipients
  {
  }

  /** Who is notified: exactly the other current members who have not muted the conversation and had joined. */
  lemma NotifiedExactly(db: Db, n: NewMessage, m: MessageId, at: int, u: UserId)
    requires m !in db.messages && CreateMessage(db, n, m, at).1 == Created && NotificationsCurrent(db)
    ensures (u, m) in CreateMessage(db, n, m, at).0.notifications <==>
      u != n.sender && IsMember(db, n.conversation, u) && !db.conversations[n.conversation].members[u].muted
      && db.conversations[n.conversation].members[u].joinedAt <= at
  {
    hide Bind, KeyTaken, Touched, Notify;
    var c := db.conversations[n.conversation];
    NotifyKeys(db.notifications, n.conversation, m, Recipients(c, n.sender, at), u);
    forall k | k in db.notifications ensures k.1 in db.messages { assert IsCurrent(db, k.0, k.1, db.notifications[k]); }
  }
}
