/** Concurrent calls of createMessage with client-chosen keys: look up, create in a transaction, and look up
    again when the unique index on (sender, client id) fires. */
module Idempotency {
  import opened Prelude
  import opened ChatDb
  import A = ChatAttachments
  import F = ChatFrames
  import G = Groups
  import R = Runs

  type CallId = nat

  /** Where a call stands: the await it is about to make, or how it ended. */
  datatype Call =
    | Looking(n: NewMessage)
    | Creating(n: NewMessage)
    | Refetching(n: NewMessage)
    | Returned(n: NewMessage, message: MessageId, created: bool)
    | Failed(n: NewMessage)

  /** `creators` remembers which call inserted each message. */
  datatype World = World(db: Db, calls: map<CallId, Call>, creators: map<MessageId, CallId>)

  const START := World(EMPTY, map[], map[])

  ghost function FindByKey(db: Db, sender: UserId, clientId: nat): (found: Option<MessageId>)
    ensures found.Some? ==> HasKey(db, found.value, sender, clientId)
    ensures found.None? ==> !KeyTaken(db, sender, clientId)
  {
    if KeyTaken(db, sender, clientId) then
      TakenBySome(db, sender, clientId);
      var m :| HasKey(db, m, sender, clientId);
      Some(m)
    else None
  }

  lemma TakenBySome(db: Db, sender: UserId, clientId: nat)
    ensures KeyTaken(db, sender, clientId) <==> exists m :: HasKey(db, m, sender, clientId)
  {
    if KeyTaken(db, sender, clientId) {
      var m :| m in db.messages && db.messages[m].sender == sender && db.messages[m].clientId == clientId;
      assert HasKey(db, m, sender, clientId);
    }
    if m :| HasKey(db, m, sender, clientId) { assert m in db.messages; }
  }

  /** The next await of call `c`; a transaction is given the id and time that the database assigns. */
  ghost function Proceed(w: World, c: CallId, m: MessageId, at: int): World
    requires c in w.calls
  {
    match w.calls[c]
    case Looking(n) =>
      var found := FindByKey(w.db, n.sender, n.clientId);
      w.(calls := w.calls[c := if found.Some? then Returned(n, found.value, false) else Creating(n)])
    case Creating(n) =>
      if m in w.db.messages then w
      else
        var (db, outcome) := CreateMessage(w.db, n, m, at);
        if outcome == Created then World(db, w.calls[c := Returned(n, m, true)], w.creators[m := c])
        else w.(db := db, calls := w.calls[c := if outcome == Duplicate then Refetching(n) else Failed(n)])
    case Refetching(n) =>
      var found := FindByKey(w.db, n.sender, n.clientId);
      w.(calls := w.calls[c := if found.Some? then Returned(n, found.value, false) else Failed(n)])
    case _ => w
  }

  datatype Step = Calling(c: CallId, n: NewMessage) | Proceeding(c: CallId, m: MessageId, at: int) | Elsewhere(e: Event)

  /** Messages are only created by calls; every other transaction may run at any time. */
  ghost function Next(w: World, retention: nat, s: Step): World {
    match s
    case Calling(c, n) => if c in w.calls then w else w.(calls := w.calls[c := Looking(n)])
    case Proceeding(c, m, at) => if c in w.calls then Proceed(w, c, m, at) else w
    case Elsewhere(e) => if e.CreatingMessage? then w else w.(db := ChatDb.Step(w.db, retention, e))
  }

  ghost function Stepper(retention: nat): (World, Step) -> World {
    (w: World, s: Step) => Next(w, retention, s)
  }

  ghost function After(retention: nat, steps: seq<Step>): World {
    R.Resume(Stepper(retention), START, steps)
  }

  // ---- The invariant --------------------------------------------------------------------

  ghost predicate KeysUnique(db: Db) {
    forall m, k :: m in db.messages && HasKey(db, k, db.messages[m].sender, db.messages[m].clientId) ==> k == m
  }

  ghost predicate CallOk(db: Db, creators: map<MessageId, CallId>, c: CallId, call: Call) {
    match call
    case Looking(_) | Creating(_) | Failed(_) => true
    case Refetching(n) => KeyTaken(db, n.sender, n.clientId)
    case Returned(n, m, created) =>
      HasKey(db, m, n.sender, n.clientId) && m in creators && (created <==> creators[m] == c)
  }

  ghost predicate Valid(w: World) {
    && KeysUnique(w.db) && w.creators.Keys == w.db.messages.Keys
    && (forall c :: c in w.calls ==> CallOk(w.db, w.creators, c, w.calls[c]))
    && (forall m :: m in w.creators ==> IsCreator(w, m))
  }

  ghost predicate IsCreator(w: World, m: MessageId)
    requires m in w.creators
  {
    var c := w.creators[m];
    c in w.calls && w.calls[c].Returned? && w.calls[c].message == m && w.calls[c].created
  }

  // ---- Steps ------------------------------------------------------------------------------

  /** Same messages, by id and key. */
  ghost predicate SameKeys(before: Db, after: Db) {
    && after.messages.Keys == before.messages.Keys
    && forall m, sender, clientId :: HasKey(after, m, sender, clientId) <==> HasKey(before, m, sender, clientId)
  }

  lemma ElsewhereKeepsKeys(db: Db, retention: nat, e: Event)
    requires !e.CreatingMessage?
    ensures SameKeys(db, ChatDb.Step(db, retention, e))
  {
    var t := ChatDb.Step(db, retention, e);
    forall m | m in db.messages
      ensures m in t.messages && t.messages[m].sender == db.messages[m].sender && t.messages[m].clientId == db.messages[m].clientId
    {
      F.MessagesStay(db, retention, e, m);
    }
    NoneAdded(db, retention, e);
  }

  lemma NoneAdded(db: Db, retention: nat, e: Event)
    requires !e.CreatingMessage?
    ensures ChatDb.Step(db, retention, e).messages.Keys == db.messages.Keys
  {
    hide GroupStep, IsCandidate, Later, LifecycleAllows, IsMember;
    if e.InGroup? { F.GroupStepFrame(db, e.c, e.change); }
  }

  /** A creation that succeeds adds one message with the key, which no message had. */
  lemma CreationAddsKey(db: Db, n: NewMessage, m: MessageId, at: int)
    requires m !in db.messages && CreateMessage(db, n, m, at).1 == Created
    ensures var t := CreateMessage(db, n, m, at).0;
      && !KeyTaken(db, n.sender, n.clientId) && t.messages.Keys == db.messages.Keys + {m} && HasKey(t, m, n.sender, n.clientId)
      && (forall k, sender, clientId :: k != m ==> (HasKey(t, k, sender, clientId) <==> HasKey(db, k, sender, clientId)))
      && (forall sender, clientId :: HasKey(t, m, sender, clientId) ==> sender == n.sender && clientId == n.clientId)
  {
    hide MediaObstacle, Bind, Touched, Recipients, Notify, KeyTaken;
  }

  lemma CreationOtherwise(db: Db, n: NewMessage, m: MessageId, at: int)
    requires m !in db.messages && CreateMessage(db, n, m, at).1 != Created
    ensures CreateMessage(db, n, m, at).0 == db
    ensures CreateMessage(db, n, m, at).1 == Duplicate ==> KeyTaken(db, n.sender, n.clientId)
  {
    hide MediaObstacle, Bind, Touched, Recipients, Notify, KeyTaken;
  }

  lemma CallStays(before: Db, after: Db, creators: map<MessageId, CallId>, more: map<MessageId, CallId>, c: CallId, call: Call)
    requires CallOk(before, creators, c, call)
    requires forall m, sender, clientId :: HasKey(before, m, sender, clientId) ==> HasKey(after, m, sender, clientId)
    requires forall m :: m in creators ==> m in more && more[m] == creators[m]
    ensures CallOk(after, more, c, call)
  {
    hide KeyTaken;
    if call.Refetching? {
      TakenBySome(before, call.n.sender, call.n.clientId);
      TakenBySome(after, call.n.sender, call.n.clientId);
    }
  }

  lemma ElsewhereKeeps(w: World, retention: nat, e: Event)
    requires Valid(w) && !e.CreatingMessage?
    ensures Valid(Next(w, retention, Elsewhere(e)))
  {
    hide ChatDb.Step, CallOk, HasKey;
    var t := Next(w, retention, Elsewhere(e));
    ElsewhereKeepsKeys(w.db, retention, e);
    forall c | c in t.calls ensures CallOk(t.db, t.creators, c, t.calls[c]) {
      CallStays(w.db, t.db, w.creators, t.creators, c, w.calls[c]);
    }
    UniqueStays(w.db, t.db);
  }

  lemma UniqueStays(before: Db, after: Db)
    requires KeysUnique(before) && SameKeys(before, after)
    ensures KeysUnique(after)
  {
    forall m, k | m in after.messages && HasKey(after, k, after.messages[m].sender, after.messages[m].clientId) ensures k == m {
      assert HasKey(after, m, after.messages[m].sender, after.messages[m].clientId);
      assert HasKey(before, m, after.messages[m].sender, after.messages[m].clientId);
    }
  }

  lemma CreatingKeeps(w: World, c: CallId, m: MessageId, at: int)
    requires Valid(w) && c in w.calls && w.calls[c].Creating?
    ensures Valid(Proceed(w, c, m, at))
  {
    hide CreateMessage, KeyTaken;
    if m !in w.db.messages {
      var n := w.calls[c].n;
      var t := Proceed(w, c, m, at);
      if CreateMessage(w.db, n, m, at).1 == Created {
        CreationAddsKey(w.db, n, m, at);
        CreatedKeeps(w, t, c, m);
      } else {
        CreationOtherwise(w.db, n, m, at);
      }
    }
  }

  lemma CreatedKeeps(w: World, t: World, c: CallId, m: MessageId)
    requires Valid(w) && c in w.calls && w.calls[c].Creating? && m !in w.db.messages
    requires var n := w.calls[c].n;
      && !KeyTaken(w.db, n.sender, n.clientId) && t.db.messages.Keys == w.db.messages.Keys + {m} && HasKey(t.db, m, n.sender, n.clientId)
      && (forall k, sender, clientId :: k != m ==> (HasKey(t.db, k, sender, clientId) <==> HasKey(w.db, k, sender, clientId)))
      && (forall sender, clientId :: HasKey(t.db, m, sender, clientId) ==> sender == n.sender && clientId == n.clientId)
      && t.calls == w.calls[c := Returned(n, m, true)] && t.creators == w.creators[m := c]
    ensures Valid(t)
  {
    hide KeyTaken, KeysUnique, HasKey;
    var n := w.calls[c].n;
    TakenBySome(w.db, n.sender, n.clientId);
    forall k, sender, clientId | HasKey(w.db, k, sender, clientId) ensures HasKey(t.db, k, sender, clientId) {
      assert k in w.db.messages by { KeysAreOfMessages(w.db, k, sender, clientId); }
    }
    forall d | d in t.calls ensures CallOk(t.db, t.creators, d, t.calls[d]) {
      if d != c { CallStays(w.db, t.db, w.creators, t.creators, d, w.calls[d]); }
    }
    forall k | k in t.creators ensures IsCreator(t, k) { if k != m { assert IsCreator(w, k); } }
    assert KeysUnique(t.db) by { NewKeyIsUnique(w.db, t.db, m, n); }
  }

  lemma KeysAreOfMessages(db: Db, m: MessageId, sender: UserId, clientId: nat)
    requires HasKey(db, m, sender, clientId)
    ensures m in db.messages
  {
  }

  lemma NewKeyIsUnique(before: Db, after: Db, m: MessageId, n: NewMessage)
    requires KeysUnique(before) && m !in before.messages && after.messages.Keys == before.messages.Keys + {m}
    requires forall k :: !HasKey(before, k, n.sender, n.clientId)
    requires HasKey(after, m, n.sender, n.clientId)
    requires forall k, sender, clientId :: k != m ==> (HasKey(after, k, sender, clientId) <==> HasKey(before, k, sender, clientId))
    ensures KeysUnique(after)
  {
    forall a, b | a in after.messages && HasKey(after, b, after.messages[a].sender, after.messages[a].clientId) ensures a == b {
      assert HasKey(after, a, after.messages[a].sender, after.messages[a].clientId);
      if a != m { assert HasKey(before, a, after.messages[a].sender, after.messages[a].clientId); }
    }
  }

  lemma NextKeeps(w: World, retention: nat, s: Step)
    requires Valid(w)
    ensures Valid(Next(w, retention, s))
  {
    hide ChatDb.Step, CreateMessage, KeysUnique, HasKey, KeyTaken;
    match s
    case Elsewhere(e) => if !e.CreatingMessage? { ElsewhereKeeps(w, retention, e); }
    case Calling(_, _) =>
    case Proceeding(c, m, at) =>
      if c in w.calls {
        if w.calls[c].Creating? { CreatingKeeps(w, c, m, at); } else { FindingKeeps(w, c, m, at); }
      }
  }

  lemma FindingKeeps(w: World, c: CallId, m: MessageId, at: int)
    requires Valid(w) && c in w.calls && !w.calls[c].Creating?
    ensures Valid(Proceed(w, c, m, at))
  {
    hide KeysUnique, KeyTaken;
  }

  /** Whatever a valid world leads to is valid. */
  lemma LeadsToValid(retention: nat, w: World, t: World)
    requires Valid(w) && R.Leads(Stepper(retention), w, t)
    ensures Valid(t)
  {
    hide Next, Valid;
    var valid := (v: World) => Valid(v);
    forall v, s | valid(v) ensures valid(Stepper(retention)(v, s)) { NextKeeps(v, retention, s); }
    R.LeadsKeeps(Stepper(retention), valid, w, t);
  }

  // ---- What callers see ---------------------------------------------------------------------

  lemma AlwaysValid(retention: nat, steps: seq<Step>)
    ensures Valid(After(retention, steps))
  {
    hide Next;
    LeadsToValid(retention, START, After(retention, steps));
  }

  /** Over any interleaving, all calls with one key that return give the same message, and it carries the key. */
  lemma SameKeySameMessage(retention: nat, steps: seq<Step>, c: CallId, d: CallId)
    requires var calls := After(retention, steps).calls;
      && c in calls && d in calls && calls[c].Returned? && calls[d].Returned?
      && calls[c].n.sender == calls[d].n.sender && calls[c].n.clientId == calls[d].n.clientId
    ensures var w := After(retention, steps);
      w.calls[c].message == w.calls[d].message && IsSent(w.db, w.calls[c].n.sender, w.calls[c].n.clientId, w.calls[c].message)
  {
    hide After;
    AlwaysValid(retention, steps);
    var w := After(retention, steps);
    assert CallOk(w.db, w.creators, c, w.calls[c]) && CallOk(w.db, w.creators, d, w.calls[d]);
  }

  /** Once any of them has returned, exactly one says that it created the message. */
  lemma ExactlyOneCreated(retention: nat, steps: seq<Step>, c: CallId)
    requires c in After(retention, steps).calls && After(retention, steps).calls[c].Returned?
    ensures var calls := After(retention, steps).calls;
      exists creator :: IsTheCreator(calls, creator, calls[c].message) && forall d :: IsTheCreator(calls, d, calls[c].message) ==> d == creator
  {
    hide After, HasKey, KeysUnique;
    AlwaysValid(retention, steps);
    var w := After(retention, steps);
    assert CallOk(w.db, w.creators, c, w.calls[c]);
    var m := w.calls[c].message;
    assert IsCreator(w, m);
    assert IsTheCreator(w.calls, w.creators[m], m);
    forall d | IsTheCreator(w.calls, d, m) ensures d == w.creators[m] { assert CallOk(w.db, w.creators, d, w.calls[d]); }
  }

  ghost predicate IsTheCreator(calls: map<CallId, Call>, c: CallId, m: MessageId) {
    c in calls && calls[c].Returned? && calls[c].message == m && calls[c].created
  }

  /** The second look-up never comes back empty: whoever took the key still has it. */
  lemma RefetchFinds(retention: nat, steps: seq<Step>, c: CallId, m: MessageId, at: int)
    requires c in After(retention, steps).calls && After(retention, steps).calls[c].Refetching?
    ensures var next := Next(After(retention, steps), retention, Proceeding(c, m, at)).calls[c]; next.Returned? && !next.created
  {
    hide After;
    AlwaysValid(retention, steps);
    var w := After(retention, steps);
    assert CallOk(w.db, w.creators, c, w.calls[c]);
  }

  /** Only the call that says created adds notifications, and only for its message. */
  lemma OnlyTheCreatorNotifies(w: World, retention: nat, s: Step, u: UserId, m: MessageId)
    requires (u, m) !in w.db.notifications && (u, m) in Next(w, retention, s).db.notifications
    ensures s.Proceeding? && s.m == m && IsTheCreator(Next(w, retention, s).calls, s.c, m) && !(s.c in w.calls && w.calls[s.c].Returned?)
  {
    hide MediaObstacle, Bind, Touched, KeyTaken, FindByKey;
    if s.Elsewhere? && !s.e.CreatingMessage? { NoneNotified(w.db, retention, s.e, u, m); }
  }

  lemma NoneNotified(db: Db, retention: nat, e: Event, u: UserId, m: MessageId)
    requires !e.CreatingMessage? && (u, m) !in db.notifications
    ensures (u, m) !in ChatDb.Step(db, retention, e).notifications
  {
    hide G.Step, G.Create, G.Remove, G.Leave, IsCandidate, Later, LifecycleAllows, IsMember;
  }

  /** A text call in an existing conversation cannot fail at its transaction: it creates, or goes on to look again. */
  lemma TextCallsSucceed(w: World, c: CallId, m: MessageId, at: int)
    requires c in w.calls && w.calls[c].Creating? && m !in w.db.messages
    requires !w.calls[c].n.isMedia && w.calls[c].n.conversation in w.db.conversations
    ensures !Proceed(w, c, m, at).calls[c].Failed?
  {
    hide KeyTaken, Touched, Recipients, Notify;
  }

  /** A call whose key is taken by the time of its transaction goes on to the winner's message exactly if it is a text
      call or nothing would stand in the way of binding its attachments. */
  lemma TakenKeyIsRecovered(w: World, c: CallId, m: MessageId, at: int)
    requires c in w.calls && w.calls[c].Creating? && m !in w.db.messages
    requires KeyTaken(w.db, w.calls[c].n.sender, w.calls[c].n.clientId)
    ensures var n := w.calls[c].n;
      Proceed(w, c, m, at).calls[c] == (if !n.isMedia || MediaObstacle(w.db, n).None? then Refetching(n) else Failed(n))
  {
    hide KeyTaken, MediaObstacle, Bind, Touched, Recipients, Notify;
  }

  /** A media call whose twin has just succeeded does fail there: its attachments are bound already, and that is
      noticed before the unique index could fire. */
  lemma LateMediaTwinFails(db: Db, n: NewMessage, m: MessageId, at: int, k: MessageId, later: int)
    requires m !in db.messages && n.isMedia && CreateMessage(db, n, m, at).1 == Created
    requires k !in CreateMessage(db, n, m, at).0.messages
    ensures CreateMessage(CreateMessage(db, n, m, at).0, n, k, later).1 == BindingError
  {
    hide Bind, KeyTaken, Recipients, Notify, TotalSize;
    var t := CreateMessage(db, n, m, at).0;
    F.BindChanges(db.attachments, n, m, |n.attachmentIds|, at);
    assert F.IsBoundAt(db.attachments, t.attachments, n, m, 0, at);
    var first := n.attachmentIds[0];
    assert first in n.attachmentIds && !IsAvailable(t.attachments, n, first);
    assert IsMember(t, n.conversation, n.sender);
  }

  // ---- Calls that nobody disturbs --------------------------------------------------------------

  /** Some message was sent with the key. */
  ghost predicate IsSent(db: Db, sender: UserId, clientId: nat, m: MessageId) {
    m in db.messages && db.messages[m].sender == sender && db.messages[m].clientId == clientId
  }

  /** A call whose key is free looks, creates, and returns the new message as created by it; a refused one fails, and the tables
      stay as they are. */
  lemma UndisturbedCall(retention: nat, w: World, c: CallId, n: NewMessage, m: MessageId, at: int)
    requires c !in w.calls && m !in w.db.messages && forall k :: !IsSent(w.db, n.sender, n.clientId, k)
    ensures var t := Next(Next(Next(w, retention, Calling(c, n)), retention, Proceeding(c, 0, 0)), retention, Proceeding(c, m, at));
      var (db, outcome) := CreateMessage(w.db, n, m, at);
      && c in t.calls && t.db == db
      && (outcome == Created ==> t.calls == w.calls[c := Returned(n, m, true)] && t.creators == w.creators[m := c])
      && (outcome != Created ==> t.calls == w.calls[c := Failed(n)] && t.db == w.db && t.creators == w.creators)
      && (outcome == Created <==> n.conversation in w.db.conversations && (n.isMedia ==> MediaObstacle(w.db, n).None?))
  {
    hide MediaObstacle, Touched, Recipients, Notify, FindByKey, Bind;
    forall k | k in w.db.messages ensures w.db.messages[k].sender != n.sender || w.db.messages[k].clientId != n.clientId {
      assert !IsSent(w.db, n.sender, n.clientId, k);
    }
    if n.isMedia && MediaObstacle(w.db, n).None? {
      A.BindSucceeds(w.db, n, m, |n.attachmentIds|, at);
      MemberHasConversation(w.db, n);
    }
  }

  lemma MemberHasConversation(db: Db, n: NewMessage)
    requires MediaObstacle(db, n).None?
    ensures n.conversation in db.conversations
  {
  }

  /** A call whose key was used returns that message at once, as not created by it. */
  lemma RepeatedCall(retention: nat, w: World, c: CallId, n: NewMessage, k: MessageId)
    requires Valid(w) && c !in w.calls && IsSent(w.db, n.sender, n.clientId, k)
    ensures Next(Next(w, retention, Calling(c, n)), retention, Proceeding(c, 0, 0)) == w.(calls := w.calls[c := Returned(n, k, false)])
  {
    var m := w.db.messages[k];
    assert HasKey(w.db, k, m.sender, m.clientId);
    var found := FindByKey(w.db, n.sender, n.clientId);
    assert KeyTaken(w.db, n.sender, n.clientId);
    assert found.Some? && HasKey(w.db, found.value, m.sender, m.clientId);
  }
}
