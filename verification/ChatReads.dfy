/** What a member sees of a conversation over all serial runs: the last-message time, the read watermark
    and the unread count. */
module ChatReads {
  import opened Prelude
  import opened ChatDb
  import opened ChatFrames
  import G = Groups

  // ---- lastMessageAt ------------------------------------------------------------------

  /** The cached time is the largest creation time in the log of the conversation. */
  ghost predicate LastIsLargest(db: Db, c: ConversationId)
    requires c in db.conversations
  {
    var last := db.conversations[c].lastMessageAt;
    && (last.None? ==> forall m :: m in db.messages ==> db.messages[m].conversation != c)
    && (last.Some? ==>
         && (exists m :: m in db.messages && db.messages[m].conversation == c && db.messages[m].createdAt == last.value)
         && forall m :: m in db.messages && db.messages[m].conversation == c ==> db.messages[m].createdAt <= last.value)
  }

  ghost predicate LogsCached(db: Db) {
    && (forall m :: m in db.messages ==> db.messages[m].conversation in db.conversations)
    && forall c :: c in db.conversations ==> LastIsLargest(db, c)
  }

  lemma SameLog(db: Db, t: Db, c: ConversationId)
    requires c in db.conversations && c in t.conversations && LastIsLargest(db, c)
    requires t.conversations[c].lastMessageAt == db.conversations[c].lastMessageAt
    requires t.messages.Keys == db.messages.Keys && forall m :: m in db.messages ==> SameMessage(db.messages[m], t.messages[m])
    ensures LastIsLargest(t, c)
  {
    var last := db.conversations[c].lastMessageAt;
    if last.Some? {
      var m :| m in db.messages && db.messages[m].conversation == c && db.messages[m].createdAt == last.value;
      assert m in t.messages && t.messages[m].conversation == c && t.messages[m].createdAt == last.value;
    }
  }

  lemma CreateMessageCaches(db: Db, n: NewMessage, m: MessageId, at: int)
    requires LogsCached(db) && m !in db.messages
    ensures LogsCached(CreateMessage(db, n, m, at).0)
  {
    hide Bind, KeyTaken, Recipients, Notify, MediaObstacle, LastIsLargest;
    var (t, outcome) := CreateMessage(db, n, m, at);
    if outcome == Created {
      forall c | c in t.conversations ensures LastIsLargest(t, c) {
        LogGrows(db, t, n.conversation, m, at, c);
      }
    }
  }

  lemma LogGrows(db: Db, t: Db, where: ConversationId, m: MessageId, at: int, c: ConversationId)
    requires c in db.conversations && c in t.conversations && LastIsLargest(db, c)
    requires m !in db.messages && t.messages.Keys == db.messages.Keys + {m} && forall k :: k in db.messages ==> t.messages[k] == db.messages[k]
    requires t.messages[m].conversation == where && t.messages[m].createdAt == at
    requires t.conversations[c] == if c == where then Touched(db.conversations[c], at) else db.conversations[c]
    ensures LastIsLargest(t, c)
  {
    var last := db.conversations[c].lastMessageAt;
    if c == where && (last.None? || last.value < at) {
      assert t.messages[m].createdAt == at;
    } else if last.Some? {
      var k :| k in db.messages && db.messages[k].conversation == c && db.messages[k].createdAt == last.value;
      assert t.messages[k] == db.messages[k];
    }
  }

  /** Only a creation adds to a log, and only a creation touches a cached time; a new conversation has none. */
  lemma OthersTouchNoLog(db: Db, retention: nat, e: Event)
    requires !e.CreatingMessage?
    ensures var t := Step(db, retention, e);
      && t.messages.Keys == db.messages.Keys && db.conversations.Keys <= t.conversations.Keys
      && forall c :: c in t.conversations ==>
        t.conversations[c].lastMessageAt == if c in db.conversations then db.conversations[c].lastMessageAt else None
  {
    hide GroupStep, G.Create, IsCandidate, Later, LifecycleAllows, IsMember, CreateMessage, IsGroup;
    if e.InGroup? { GroupStepFrame(db, e.c, e.change); }
  }

  lemma StepCaches(db: Db, retention: nat, e: Event)
    requires LogsCached(db)
    ensures LogsCached(Step(db, retention, e))
  {
    hide LastIsLargest;
    if e.CreatingMessage? {
      hide CreateMessage;
      if e.m !in db.messages { CreateMessageCaches(db, e.n, e.m, e.at); }
    } else {
      hide Step;
      var t := Step(db, retention, e);
      OthersTouchNoLog(db, retention, e);
      forall m | m in db.messages ensures m in t.messages && SameMessage(db.messages[m], t.messages[m]) {
        MessagesStay(db, retention, e, m);
      }
      forall c | c in t.conversations ensures LastIsLargest(t, c) {
        if c in db.conversations { SameLog(db, t, c); } else { NewConversation(t, c); }
      }
    }
  }

  lemma NewConversation(t: Db, c: ConversationId)
    requires c in t.conversations && t.conversations[c].lastMessageAt.None?
    requires forall m :: m in t.messages ==> t.messages[m].conversation != c
    ensures LastIsLargest(t, c)
  {
  }

  /** In every run lastMessageAt is the largest creation time in the log, whatever the order of the clocks. */
  lemma {:induction false} LastMessageAlwaysCached(retention: nat, events: seq<Event>)
    ensures LogsCached(After(retention, events))
    decreases |events|
  {
    if events != [] {
      LastMessageAlwaysCached(retention, events[..|events| - 1]);
      StepCaches(After(retention, events[..|events| - 1]), retention, events[|events| - 1]);
    }
  }

  // ---- Watermarks -----------------------------------------------------------------------

  /** What a transaction reports as read by `u` in `c`: its target, if that is a message of `c`. */
  function Target(db: Db, e: Event, c: ConversationId, u: UserId): set<MessageId> {
    if e.ReadingUpTo? && e.c == c && e.u == u && e.target in db.messages && db.messages[e.target].conversation == c then {e.target} else {}
  }

  /** The messages that user `u` has reported as read in `c`, in a run: the targets that belonged to `c`. */
  ghost function Reported(retention: nat, events: seq<Event>, c: ConversationId, u: UserId): set<MessageId> {
    if events == [] then {}
    else
      var n := |events| - 1;
      Reported(retention, events[..n], c, u) + Target(After(retention, events[..n]), events[n], c, u)
  }

  /** The stored watermark is the latest reported message. */
  ghost predicate WatermarkIsLatest(db: Db, c: ConversationId, u: UserId, reported: set<MessageId>) {
    && reported <= db.messages.Keys
    && (if reported == {} then (c, u) !in db.watermarks
        else (c, u) in db.watermarks && db.watermarks[(c, u)] in reported
             && forall m :: m in reported ==> m == db.watermarks[(c, u)] || IsAfter(db, db.watermarks[(c, u)], m))
  }

  /** `a` comes after `b` in the log: it was created later, or at the same time with a larger id. */
  ghost predicate IsAfter(db: Db, a: MessageId, b: MessageId)
    requires a in db.messages && b in db.messages
  {
    db.messages[a].createdAt > db.messages[b].createdAt || (db.messages[a].createdAt == db.messages[b].createdAt && a > b)
  }

  lemma OnlyReadingMoves(db: Db, retention: nat, e: Event)
    requires !e.ReadingUpTo?
    ensures Step(db, retention, e).watermarks == db.watermarks
  {
    hide GroupStep;
    if e.InGroup? { GroupStepFrame(db, e.c, e.change); }
  }

  lemma KeptOrder(db: Db, retention: nat, e: Event, a: MessageId, b: MessageId)
    requires a in db.messages && b in db.messages
    ensures a in Step(db, retention, e).messages && b in Step(db, retention, e).messages
    ensures IsAfter(Step(db, retention, e), a, b) == IsAfter(db, a, b)
  {
    hide Step;
    MessagesStay(db, retention, e, a);
    MessagesStay(db, retention, e, b);
  }

  lemma ReadingStep(db: Db, e: Event, c: ConversationId, u: UserId, reported: set<MessageId>)
    requires e.ReadingUpTo? && WatermarkIsLatest(db, c, u, reported)
    ensures WatermarkIsLatest(UpdateWatermark(db, e.c, e.u, e.target), c, u, reported + Target(db, e, c, u))
  {
  }

  lemma WatermarkStep(db: Db, retention: nat, e: Event, c: ConversationId, u: UserId, reported: set<MessageId>)
    requires WatermarkIsLatest(db, c, u, reported)
    ensures WatermarkIsLatest(Step(db, retention, e), c, u, reported + Target(db, e, c, u))
  {
    if e.ReadingUpTo? {
      ReadingStep(db, e, c, u, reported);
    } else {
      hide Step;
      var t := Step(db, retention, e);
      forall m | m in db.messages ensures m in t.messages { MessagesStay(db, retention, e, m); }
      OnlyReadingMoves(db, retention, e);
      if reported != {} {
        forall m | m in reported ensures m == t.watermarks[(c, u)] || IsAfter(t, t.watermarks[(c, u)], m) {
          KeptOrder(db, retention, e, db.watermarks[(c, u)], m);
        }
      }
      assert reported + {} == reported;
    }
  }

  /** In every run, whatever the order and the repetitions of the reports, the stored watermark is the latest
      reported message in (createdAt, id) order. */
  lemma {:induction false} WatermarkAlwaysLatest(retention: nat, events: seq<Event>, c: ConversationId, u: UserId)
    ensures WatermarkIsLatest(After(retention, events), c, u, Reported(retention, events, c, u))
    decreases |events|
  {
    if events != [] {
      var n := |events| - 1;
      WatermarkAlwaysLatest(retention, events[..n], c, u);
      WatermarkStep(After(retention, events[..n]), retention, events[n], c, u, Reported(retention, events[..n], c, u));
    }
  }

  datatype ReadStatus = CreatedNow | Advanced | Unchanged

  /** What the service reports from the watermarks before and after; it publishes unless Unchanged. */
  function DetermineStatus(previous: Option<MessageId>, current: MessageId): ReadStatus {
    if previous.None? then CreatedNow else if previous.value == current then Unchanged else Advanced
  }

  function WatermarkOf(db: Db, c: ConversationId, u: UserId): Option<MessageId> {
    if (c, u) in db.watermarks then Some(db.watermarks[(c, u)]) else None
  }

  /** A report of an existing message leaves a watermark, and an event is published exactly when the
      watermark is new or strictly later than before. */
  lemma PublishesOnStrictAdvance(retention: nat, events: seq<Event>, c: ConversationId, u: UserId, target: MessageId)
    requires var db := After(retention, events); target in db.messages && db.messages[target].conversation == c
    ensures var db := After(retention, events);
      var t := UpdateWatermark(db, c, u, target);
      var previous, current := WatermarkOf(db, c, u), WatermarkOf(t, c, u);
      && current.Some? && current.value in db.messages
      && (previous.Some? ==> previous.value in db.messages)
      && (DetermineStatus(previous, current.value) != Unchanged <==> previous.None? || IsAfter(db, current.value, previous.value))
  {
    WatermarkAlwaysLatest(retention, events, c, u);
  }

  // ---- Unread counts ------------------------------------------------------------------------

  /** What the summary query counts for a current member. */
  ghost predicate CountsAsUnread(db: Db, c: ConversationId, u: UserId, m: MessageId)
    requires IsMember(db, c, u)
  {
    && m in db.messages && db.messages[m].conversation == c
    && db.messages[m].sender != u && db.messages[m].deletedAt.None?
    && db.messages[m].createdAt >= db.conversations[c].members[u].joinedAt
    && AfterWatermark(db, c, u, m)
  }

  ghost predicate AfterWatermark(db: Db, c: ConversationId, u: UserId, m: MessageId)
    requires m in db.messages
  {
    (c, u) in db.watermarks && db.watermarks[(c, u)] in db.messages ==> IsAfter(db, m, db.watermarks[(c, u)])
  }

  ghost function Unread(db: Db, c: ConversationId, u: UserId): set<MessageId>
    requires IsMember(db, c, u)
  {
    set m | m in db.messages && CountsAsUnread(db, c, u, m)
  }

  /** A further report never raises the unread count; what it takes away is at or before the new watermark. */
  lemma ReadingNeverRaises(db: Db, c: ConversationId, u: UserId, target: MessageId)
    requires IsMember(db, c, u)
    ensures var t := UpdateWatermark(db, c, u, target);
      IsMember(t, c, u) && Unread(t, c, u) <= Unread(db, c, u) && |Unread(t, c, u)| <= |Unread(db, c, u)|
    ensures var t := UpdateWatermark(db, c, u, target);
      forall m :: m in Unread(db, c, u) - Unread(t, c, u) ==> m == target || IsAfter(db, target, m)
  {
    var t := UpdateWatermark(db, c, u, target);
    SubsetSize(Unread(t, c, u), Unread(db, c, u));
  }

  lemma OldMessagesCountAlike(db: Db, t: Db, c: ConversationId, u: UserId, m: MessageId, k: MessageId)
    requires IsMember(db, c, u) && IsMember(t, c, u) && t.conversations[c].members == db.conversations[c].members
    requires m !in db.messages && t.messages.Keys == db.messages.Keys + {m} && t.watermarks == db.watermarks
    requires k in db.messages && forall j :: j in db.messages ==> t.messages[j] == db.messages[j]
    requires (c, u) in db.watermarks ==> db.watermarks[(c, u)] in db.messages
    ensures CountsAsUnread(t, c, u, k) <==> CountsAsUnread(db, c, u, k)
  {
  }

  lemma NewMessageFrame(db: Db, n: NewMessage, m: MessageId, at: int, c: ConversationId, u: UserId)
    requires IsMember(db, c, u) && m !in db.messages && CreateMessage(db, n, m, at).1 == Created
    ensures var t := CreateMessage(db, n, m, at).0;
      && IsMember(t, c, u) && t.conversations[c].members == db.conversations[c].members
      && t.messages.Keys == db.messages.Keys + {m} && t.watermarks == db.watermarks
      && (forall j :: j in db.messages ==> t.messages[j] == db.messages[j])
      && t.messages[m].conversation == n.conversation && t.messages[m].sender == n.sender
      && t.messages[m].createdAt == at && t.messages[m].deletedAt.None?
  {
    hide Bind, KeyTaken, Recipients, Notify;
  }

  lemma UnreadGrows(db: Db, t: Db, c: ConversationId, u: UserId, m: MessageId)
    requires IsMember(db, c, u) && IsMember(t, c, u) && t.conversations[c].members == db.conversations[c].members
    requires m !in db.messages && t.messages.Keys == db.messages.Keys + {m} && t.watermarks == db.watermarks
    requires forall j :: j in db.messages ==> t.messages[j] == db.messages[j]
    requires (c, u) in db.watermarks ==> db.watermarks[(c, u)] in db.messages
    ensures |Unread(t, c, u)| == |Unread(db, c, u)| + if CountsAsUnread(t, c, u, m) then 1 else 0
  {
    hide CountsAsUnread;
    forall k | k in db.messages ensures CountsAsUnread(t, c, u, k) <==> CountsAsUnread(db, c, u, k) {
      OldMessagesCountAlike(db, t, c, u, m, k);
    }
    if CountsAsUnread(t, c, u, m) {
      assert Unread(t, c, u) == Unread(db, c, u) + {m};
    } else {
      assert Unread(t, c, u) == Unread(db, c, u);
    }
  }

  /** A new message of somebody else after the watermark counts once; any other new message changes nothing. */
  lemma NewMessageCounts(retention: nat, events: seq<Event>, n: NewMessage, m: MessageId, at: int, c: ConversationId, u: UserId)
    requires var db := After(retention, events);
      IsMember(db, c, u) && m !in db.messages && CreateMessage(db, n, m, at).1 == Created
    ensures var db := After(retention, events); var t := CreateMessage(db, n, m, at).0;
      && IsMember(t, c, u) && m in t.messages
      && |Unread(t, c, u)| == |Unread(db, c, u)|
         + if n.conversation == c && n.sender != u && at >= db.conversations[c].members[u].joinedAt && AfterWatermark(t, c, u, m) then 1 else 0
  {
    hide CreateMessage, After, Unread, Reported, AfterWatermark;
    var db := After(retention, events);
    var t := CreateMessage(db, n, m, at).0;
    NewMessageFrame(db, n, m, at, c, u);
    WatermarkAlwaysLatest(retention, events, c, u);
    UnreadGrows(db, t, c, u, m);
  }

  /** Deleting a message takes exactly it out of the count. */
  lemma DeletionCounts(db: Db, d: ConversationId, m: MessageId, sender: UserId, at: int, purgeAfter: int, c: ConversationId, u: UserId)
    requires IsMember(db, c, u)
    ensures var t := SoftDelete(db, d, m, sender, at, purgeAfter);
      && IsMember(t, c, u)
      && |Unread(t, c, u)| == |Unread(db, c, u)| - if CanDelete(db, d, m, sender) && m in Unread(db, c, u) then 1 else 0
  {
    var t := SoftDelete(db, d, m, sender, at, purgeAfter);
    if CanDelete(db, d, m, sender) && m in Unread(db, c, u) {
      assert Unread(t, c, u) == Unread(db, c, u) - {m};
    } else {
      assert Unread(t, c, u) == Unread(db, c, u);
    }
  }
}
