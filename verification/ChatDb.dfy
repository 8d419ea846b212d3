/** The tables of the chat and the transactions of the conversation, message, read and attachment
    repositories on them. Every function is one transaction; the database runs them one after the other. */
module ChatDb {
  import opened Prelude
  import G = Groups

  type UserId = G.UserId
  type ConversationId = nat
  type MessageId = nat
  type AttachmentId = nat

  datatype Conversation = Conversation(isGroup: bool, lastMessageAt: Option<int>, members: G.Members)

  datatype Message = Message(
    conversation: ConversationId, sender: UserId, clientId: nat, isMedia: bool, body: Option<string>,
    createdAt: int, editedAt: Option<int>, deletedAt: Option<int>)

  datatype Status = Pending | Processing | Ready | Rejected | Cancelled

  /** An attachment row together with the asset row it owns. */
  datatype Attachment = Attachment(
    owner: UserId, conversation: ConversationId, message: Option<MessageId>, position: nat,
    purgeAfter: Option<int>, updatedAt: int, status: Status, actualSize: Option<nat>, uploadExpiresAt: int)

  type Attachments = map<AttachmentId, Attachment>

  /** The notification rows by their unique index (recipient, message). */
  type Notifications = map<(UserId, MessageId), ConversationId>

  datatype Db = Db(
    users: set<UserId>, conversations: map<ConversationId, Conversation>, messages: map<MessageId, Message>,
    attachments: Attachments, notifications: Notifications,
    watermarks: map<(ConversationId, UserId), MessageId>)

  const MAX_ATTACHMENTS: nat := 4
  const MAX_TOTAL_BYTES: nat := 50 * 1024 * 1024

  predicate IsMember(db: Db, c: ConversationId, u: UserId) {
    c in db.conversations && G.IsActive(db.conversations[c].members, u)
  }

  /** The order of the message log. */
  predicate Later(db: Db, a: MessageId, b: MessageId)
    requires a in db.messages && b in db.messages
  {
    || db.messages[a].createdAt > db.messages[b].createdAt
    || (db.messages[a].createdAt == db.messages[b].createdAt && a > b)
  }

  // ---- Creating a message -------------------------------------------------------------

  datatype NewMessage = NewMessage(
    conversation: ConversationId, sender: UserId, clientId: nat, isMedia: bool, body: Option<string>,
    attachmentIds: seq<AttachmentId>)

  datatype CreateOutcome =
    | Created
    | Duplicate                 // the unique index on (sender, client id) fires
    | BindingError
    | NoConversation
    | TotalSizeExceeded

  /** The message that already carries the idempotency key, if any. */
  ghost predicate HasKey(db: Db, m: MessageId, sender: UserId, clientId: nat) {
    m in db.messages && db.messages[m].sender == sender && db.messages[m].clientId == clientId
  }

  predicate KeyTaken(db: Db, sender: UserId, clientId: nat) {
    exists m :: m in db.messages && db.messages[m].sender == sender && db.messages[m].clientId == clientId
  }

  predicate IsAvailable(atts: Attachments, n: NewMessage, a: AttachmentId) {
    && a in atts && atts[a].conversation == n.conversation && atts[a].message.None?
    && atts[a].owner == n.sender && atts[a].status == Ready
  }

  function SizeOf(atts: Attachments, a: AttachmentId): nat {
    if a in atts && atts[a].actualSize.Some? then atts[a].actualSize.value else 0
  }

  function TotalSize(atts: Attachments, ids: seq<AttachmentId>): nat {
    if ids == [] then 0 else TotalSize(atts, ids[..|ids| - 1]) + SizeOf(atts, ids[|ids| - 1])
  }

  predicate NoRepetition(ids: seq<AttachmentId>) {
    forall i, j :: 0 <= i < j < |ids| ==> ids[i] != ids[j]
  }

  /** What the transaction checks before it inserts a media message; None means all is well. */
  function MediaObstacle(db: Db, n: NewMessage): (obstacle: Option<CreateOutcome>)
    ensures obstacle != Some(Created) && obstacle != Some(Duplicate)
  {
    if |n.attachmentIds| < 1 || |n.attachmentIds| > MAX_ATTACHMENTS || !NoRepetition(n.attachmentIds) then Some(BindingError)
    else if !IsMember(db, n.conversation, n.sender) then Some(NoConversation)
    else if exists a :: a in n.attachmentIds && !IsAvailable(db.attachments, n, a) then Some(BindingError)
    else if exists a :: a in n.attachmentIds && db.attachments[a].actualSize.None? then Some(BindingError)
    else if TotalSize(db.attachments, n.attachmentIds) > MAX_TOTAL_BYTES then Some(TotalSizeExceeded)
    else None
  }

  /** The binding loop: each attachment, in request order, is bound at its position if it is still unbound. */
  function Bind(atts: Attachments, n: NewMessage, m: MessageId, count: nat, now: int): Option<Attachments>
    requires count <= |n.attachmentIds|
  {
    if count == 0 then Some(atts)
    else
      var before := Bind(atts, n, m, count - 1, now);
      if before.None? then None
      else BindOne(before.value, n.conversation, m, n.attachmentIds[count - 1], count - 1, now)
  }

  function BindOne(atts: Attachments, c: ConversationId, m: MessageId, a: AttachmentId, position: nat, now: int): Option<Attachments> {
    if a in atts && atts[a].conversation == c && atts[a].message.None?
    then Some(atts[a := atts[a].(message := Some(m), position := position, updatedAt := now)])
    else None
  }

  function Touched(c: Conversation, createdAt: int): Conversation {
    if c.lastMessageAt.None? || c.lastMessageAt.value < createdAt then c.(lastMessageAt := Some(createdAt)) else c
  }

  predicate IsRecipient(c: Conversation, sender: UserId, createdAt: int, u: UserId) {
    && u != sender && G.IsActive(c.members, u) && !c.members[u].muted && c.members[u].joinedAt <= createdAt
  }

  function Recipients(c: Conversation, sender: UserId, createdAt: int): set<UserId> {
    set u | u in c.members && IsRecipient(c, sender, createdAt, u)
  }

  function Notify(ns: Notifications, c: ConversationId, m: MessageId, recipients: set<UserId>): Notifications {
    ns + map u | u in recipients :: (u, m) := c
  }

  /** The transaction of createMessage: `m` and `createdAt` are the id and time the database assigns. Any
      outcome but Created rolls everything back. */
  function CreateMessage(db: Db, n: NewMessage, m: MessageId, createdAt: int): (Db, CreateOutcome)
    requires m !in db.messages
  {
    var obstacle := if n.isMedia then MediaObstacle(db, n) else None;
    if obstacle.Some? then (db, obstacle.value)
    else if KeyTaken(db, n.sender, n.clientId) then (db, Duplicate)
    else if n.conversation !in db.conversations then (db, NoConversation)
    else
      var bound := if n.isMedia then Bind(db.attachments, n, m, |n.attachmentIds|, createdAt) else Some(db.attachments);
      if bound.None? then (db, BindingError)
      else
        var c := db.conversations[n.conversation];
        (db.(messages := db.messages[m := Message(n.conversation, n.sender, n.clientId, n.isMedia, n.body, createdAt, None, None)],
             attachments := bound.value,
             conversations := db.conversations[n.conversation := Touched(c, createdAt)],
             notifications := Notify(db.notifications, n.conversation, m, Recipients(c, n.sender, createdAt))),
         Created)
  }

  // ---- Editing and deleting -------------------------------------------------------------

  /** The where clause of an edit. Comparing a stored NULL body with the requested one is never true in SQL. */
  predicate CanEdit(db: Db, c: ConversationId, m: MessageId, sender: UserId, isMedia: bool, body: Option<string>) {
    m in db.messages && db.messages[m].conversation == c && db.messages[m].sender == sender && db.messages[m].isMedia == isMedia
    && db.messages[m].deletedAt.None? && db.messages[m].body.Some? && db.messages[m].body != body
  }

  function EditMessage(db: Db, c: ConversationId, m: MessageId, sender: UserId, isMedia: bool, body: Option<string>, at: int): Db {
    if CanEdit(db, c, m, sender, isMedia, body)
    then db.(messages := db.messages[m := db.messages[m].(body := body, editedAt := Some(at))])
    else db
  }

  predicate CanDelete(db: Db, c: ConversationId, m: MessageId, sender: UserId) {
    m in db.messages && db.messages[m].conversation == c && db.messages[m].sender == sender && db.messages[m].deletedAt.None?
  }

  function SoftDelete(db: Db, c: ConversationId, m: MessageId, sender: UserId, deletedAt: int, purgeAfter: int): Db {
    if CanDelete(db, c, m, sender)
    then db.(messages := db.messages[m := db.messages[m].(deletedAt := Some(deletedAt))],
             attachments := map a | a in db.attachments ::
               if db.attachments[a].message == Some(m) then db.attachments[a].(purgeAfter := Some(purgeAfter), updatedAt := deletedAt)
               else db.attachments[a])
    else db
  }

  // ---- Members ------------------------------------------------------------------------------

  function WithMembers(db: Db, c: ConversationId, ms: G.Members): Db
    requires c in db.conversations
  {
    db.(conversations := db.conversations[c := db.conversations[c].(members := ms)])
  }

  /** The notifications without those of user `u` in conversation `c`. */
  function Forget(ns: Notifications, c: ConversationId, u: UserId): Notifications {
    map k | k in ns && !(k.0 == u && ns[k] == c) :: ns[k]
  }

  predicate IsGroup(db: Db, c: ConversationId) {
    c in db.conversations && db.conversations[c].isGroup
  }

  function GroupStep(db: Db, c: ConversationId, e: G.Event): Db {
    if !IsGroup(db, c) && !(e.Muting? && c in db.conversations) then db
    else
      var ms := db.conversations[c].members;
      var after := WithMembers(db, c, G.Step(ms, db.users, e));
      if e.Removing? && G.Remove(ms, e.actor, e.user, e.at).Ok? then after.(notifications := Forget(db.notifications, c, e.user))
      else if e.Leaving? && G.Leave(ms, e.actor, e.at).Ok? then after.(notifications := Forget(db.notifications, c, e.actor))
      else after
  }

  function CreateGroup(db: Db, c: ConversationId, creator: UserId, userIds: seq<UserId>, now: int): Db {
    var ms := G.Create(db.users, creator, userIds, now);
    if c in db.conversations || ms.None? then db
    else db.(conversations := db.conversations[c := Conversation(true, None, ms.value)])
  }

  function CreateDirect(db: Db, c: ConversationId, me: UserId, other: UserId, now: int): Db {
    var row := G.Membership(G.Member, now, None, false);
    if c in db.conversations || me == other then db
    else db.(conversations := db.conversations[c := Conversation(false, None, map[me := row, other := row])])
  }

  // ---- Attachments ----------------------------------------------------------------------------

  function CreateAttachment(db: Db, a: AttachmentId, owner: UserId, c: ConversationId, uploadExpiresAt: int, now: int): Db {
    if a in db.attachments || !IsMember(db, c, owner) then db
    else db.(attachments := db.attachments[a := Attachment(owner, c, None, 0, None, now, Pending, None, uploadExpiresAt)])
  }

  /** What the upload life cycle may do to a row: leave it alone once it is READY, and record a size with READY. */
  predicate LifecycleAllows(before: Attachment, status: Status, actualSize: Option<nat>) {
    && (before.status == Ready ==> status == Ready && actualSize == before.actualSize)
    && (before.status != Ready && status == Ready ==> actualSize.Some?)
  }

  function LifecycleStep(db: Db, a: AttachmentId, status: Status, actualSize: Option<nat>): Db {
    if a in db.attachments && LifecycleAllows(db.attachments[a], status, actualSize)
    then db.(attachments := db.attachments[a := db.attachments[a].(status := status, actualSize := actualSize)])
    else db
  }

  /** The where clause of the cleanup listing. */
  predicate IsCandidate(x: Attachment, now: int, unboundReadyBefore: int, staleBefore: int) {
    || (x.message.None? && x.updatedAt <= unboundReadyBefore && x.status == Ready)
    || (x.message.None? && x.status == Pending && x.uploadExpiresAt <= staleBefore)
    || (x.message.None? && x.updatedAt <= staleBefore && (x.status == Rejected || x.status == Cancelled))
    || (x.purgeAfter.Some? && x.purgeAfter.value <= now)
  }

  /** Listing one candidate and deleting it, as one step. */
  function Cleanup(db: Db, a: AttachmentId, now: int, unboundReadyBefore: int, staleBefore: int): Db {
    if a in db.attachments && IsCandidate(db.attachments[a], now, unboundReadyBefore, staleBefore)
    then db.(attachments := db.attachments - {a})
    else db
  }

  // ---- Read watermarks --------------------------------------------------------------------------

  /** The conditional upsert: insert, or replace a strictly earlier watermark. */
  function UpdateWatermark(db: Db, c: ConversationId, u: UserId, target: MessageId): Db {
    if !(target in db.messages && db.messages[target].conversation == c) then db
    else if (c, u) !in db.watermarks then db.(watermarks := db.watermarks[(c, u) := target])
    else if db.watermarks[(c, u)] in db.messages && Later(db, target, db.watermarks[(c, u)])
    then db.(watermarks := db.watermarks[(c, u) := target])
    else db
  }

  // ---- Any transaction ----------------------------------------------------------------------------

  datatype Event =
    | CreatingGroup(c: ConversationId, creator: UserId, userIds: seq<UserId>, at: int)
    | CreatingDirect(c: ConversationId, me: UserId, other: UserId, at: int)
    | InGroup(c: ConversationId, change: G.Event)
    | SettingUsers(users: set<UserId>)
    | CreatingMessage(n: NewMessage, m: MessageId, at: int)
    | EditingMessage(c: ConversationId, m: MessageId, sender: UserId, isMedia: bool, body: Option<string>, at: int)
    | DeletingMessage(c: ConversationId, m: MessageId, sender: UserId, at: int)
    | CreatingAttachment(a: AttachmentId, owner: UserId, c: ConversationId, uploadExpiresAt: int, at: int)
    | ChangingStatus(a: AttachmentId, status: Status, actualSize: Option<nat>)
    | CleaningUp(a: AttachmentId, now: int, unboundReadyBefore: int, staleBefore: int)
    | ReadingUpTo(c: ConversationId, u: UserId, target: MessageId)

  /** `retention` is how long the attachments of a deleted message are kept. */
  function Step(db: Db, retention: nat, e: Event): Db {
    match e
    case CreatingGroup(c, creator, userIds, at) => CreateGroup(db, c, creator, userIds, at)
    case CreatingDirect(c, me, other, at) => CreateDirect(db, c, me, other, at)
    case InGroup(c, change) => GroupStep(db, c, change)
    case SettingUsers(users) => db.(users := users)
    case CreatingMessage(n, m, at) => if m in db.messages then db else CreateMessage(db, n, m, at).0
    case EditingMessage(c, m, sender, isMedia, body, at) => EditMessage(db, c, m, sender, isMedia, body, at)
    case DeletingMessage(c, m, sender, at) => SoftDelete(db, c, m, sender, at, at + retention)
    case CreatingAttachment(a, owner, c, uploadExpiresAt, at) => CreateAttachment(db, a, owner, c, uploadExpiresAt, at)
    case ChangingStatus(a, status, actualSize) => LifecycleStep(db, a, status, actualSize)
    case CleaningUp(a, now, unboundReadyBefore, staleBefore) => Cleanup(db, a, now, unboundReadyBefore, staleBefore)
    case ReadingUpTo(c, u, target) => UpdateWatermark(db, c, u, target)
  }

  const EMPTY := Db({}, map[], map[], map[], map[], map[])

  function After(retention: nat, events: seq<Event>): Db {
    if events == [] then EMPTY else Step(After(retention, events[..|events| - 1]), retention, events[|events| - 1])
  }
}
