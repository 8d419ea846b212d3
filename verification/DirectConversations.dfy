/** getOrCreateDirectConversation under any interleaving: find the user, look the key up, create, and look it up
    again when the unique index on the key fires. */
module DirectConversations {
  import opened Prelude
  import opened DirectKey
  import R = Runs

  type ConversationId = nat
  type CallId = nat

  datatype Failure = CannotMessageSelf | UserNotFound | NotThere

  /** The await a call is about to make, or how it ended; `me` and `other` are the two user ids. */
  datatype Call =
    | FindingUser(me: string, target: string)
    | Looking(me: string, other: string)
    | Creating(me: string, other: string)
    | Refetching(me: string, other: string)
    | Returned(me: string, other: string, conversation: ConversationId, created: bool)
    | Failed(failure: Failure)

  /** `users` are the ids of the available users; `direct` is the unique index on the key, `members` the member rows
      of its conversations, and `creators` remembers who inserted them. */
  datatype World = World(
    users: set<string>, direct: map<string, ConversationId>, members: map<ConversationId, set<string>>,
    calls: map<CallId, Call>, creators: map<ConversationId, CallId>)

  const START := World({}, map[], map[], map[], map[])

  function Start(me: string, target: string): Call {
    if Lower(me) == Lower(target) then Failed(CannotMessageSelf) else FindingUser(me, target)
  }

  /** The user with that id, written as it is stored: in lower case. */
  function FindAvailableUser(users: set<string>, target: string): Option<string> {
    if Lower(target) in users then Some(Lower(target)) else None
  }

  function Lookup(w: World, c: CallId, me: string, other: string, otherwise: Call): World
    requires c in w.calls
  {
    var key := CreateKey(me, other);
    w.(calls := w.calls[c := if key in w.direct then Returned(me, other, w.direct[key], false) else otherwise])
  }

  /** The next await of call `c`; `id` is the id the database gives to a new conversation. */
  function Proceed(w: World, c: CallId, id: ConversationId): World
    requires c in w.calls
  {
    match w.calls[c]
    case FindingUser(me, target) =>
      var found := FindAvailableUser(w.users, target);
      w.(calls := w.calls[c := if found.Some? then Looking(me, found.value) else Failed(UserNotFound)])
    case Looking(me, other) => Lookup(w, c, me, other, Creating(me, other))
    case Creating(me, other) =>
      var key := CreateKey(me, other);
      if id in w.members then w
      else if key in w.direct then w.(calls := w.calls[c := Refetching(me, other)])
      else World(w.users, w.direct[key := id], w.members[id := Pair(me, other)],
                 w.calls[c := Returned(me, other, id, true)], w.creators[id := c])
    case Refetching(me, other) => Lookup(w, c, me, other, Failed(NotThere))
    case _ => w
  }

  /** User ids are UUIDs. */
  datatype Step = Calling(c: CallId, me: string, target: string) | Proceeding(c: CallId, id: ConversationId) | ChangingUsers(users: set<string>)

  ghost predicate WellFormed(s: Step) {
    s.Calling? ==> IsId(s.me) && IsId(s.target)
  }

  ghost function Next(w: World, s: Step): World {
    match s
    case Calling(c, me, target) => if c in w.calls || !WellFormed(s) then w else w.(calls := w.calls[c := Start(me, target)])
    case Proceeding(c, id) => if c in w.calls then Proceed(w, c, id) else w
    case ChangingUsers(users) => w.(users := users)
  }

  ghost function Stepper(): (World, Step) -> World {
    (w: World, s: Step) => Next(w, s)
  }

  ghost function After(steps: seq<Step>): World {
    R.Resume(Stepper(), START, steps)
  }

  // ---- The invariant --------------------------------------------------------------------------

  ghost predicate Under(w: World, me: string, other: string, conversation: ConversationId) {
    CreateKey(me, other) in w.direct && w.direct[CreateKey(me, other)] == conversation
  }

  ghost predicate CallOk(w: World, c: CallId, call: Call) {
    match call
    case FindingUser(me, target) => IsId(me) && IsId(target)
    case Looking(me, other) => IsId(me) && IsId(other)
    case Creating(me, other) => IsId(me) && IsId(other)
    case Refetching(me, other) => IsId(me) && IsId(other) && CreateKey(me, other) in w.direct
    case Returned(me, other, conversation, created) =>
      && IsId(me) && IsId(other) && Under(w, me, other, conversation)
      && conversation in w.creators && (created <==> w.creators[conversation] == c)
    case Failed(failure) => failure != NotThere
  }

  /** Every conversation in the index was inserted by a call for the pair of its members, under their key. */
  ghost predicate RowOk(w: World, key: string)
    requires key in w.direct
  {
    var id := w.direct[key];
    && id in w.members && id in w.creators && w.creators[id] in w.calls
    && var call := w.calls[w.creators[id]];
       && call.Returned? && call.created && call.conversation == id && key == CreateKey(call.me, call.other)
       && w.members[id] == Pair(call.me, call.other)
  }

  ghost predicate Valid(w: World) {
    && (forall c :: c in w.calls ==> CallOk(w, c, w.calls[c]))
    && (forall key :: key in w.direct ==> RowOk(w, key))
    && (forall id :: id in w.members <==> id in w.creators)
  }

  // ---- Steps ------------------------------------------------------------------------------------

  lemma StartKeeps(w: World, s: Step)
    requires Valid(w) && s.Calling?
    ensures Valid(Next(w, s))
  {
    hide CreateKey, Pair, Lower, IsId;
    var t := Next(w, s);
    forall key | key in t.direct ensures RowOk(t, key) { assert RowOk(w, key); }
    forall c | c in t.calls ensures CallOk(t, c, t.calls[c]) { if c in w.calls { assert CallOk(w, c, w.calls[c]); } }
  }

  /** What a step of call `c`, which has not returned, leaves as it is. */
  ghost predicate Extends(w: World, t: World, c: CallId) {
    && (forall key :: key in w.direct ==> key in t.direct && t.direct[key] == w.direct[key])
    && (forall id :: id in w.members ==> id in t.members && t.members[id] == w.members[id])
    && (forall id :: id in w.creators ==> id in t.creators && t.creators[id] == w.creators[id])
    && (forall d :: d in w.calls && d != c ==> d in t.calls && t.calls[d] == w.calls[d])
  }

  lemma RowStays(w: World, t: World, c: CallId, key: string)
    requires key in w.direct && RowOk(w, key) && Extends(w, t, c) && c in w.calls && !w.calls[c].Returned?
    ensures key in t.direct && RowOk(t, key)
  {
    hide CreateKey, Pair;
  }

  lemma CallStays(w: World, t: World, c: CallId, d: CallId, call: Call)
    requires CallOk(w, d, call) && Extends(w, t, c)
    ensures CallOk(t, d, call)
  {
    hide CreateKey, IsId;
  }

  lemma LookingKeeps(w: World, c: CallId, id: ConversationId)
    requires Valid(w) && c in w.calls && !w.calls[c].Creating?
    ensures Valid(Proceed(w, c, id))
  {
    hide CreateKey, CallOk, RowOk;
    var t := Proceed(w, c, id);
    if t != w {
      forall key | key in t.direct ensures RowOk(t, key) { RowStays(w, t, c, key); }
      forall d | d in t.calls && d != c ensures CallOk(t, d, t.calls[d]) { CallStays(w, t, c, d, w.calls[d]); }
      LookedUp(w, c, id);
    }
  }

  lemma LookedUp(w: World, c: CallId, id: ConversationId)
    requires Valid(w) && c in w.calls && !w.calls[c].Creating?
    ensures var t := Proceed(w, c, id); c in t.calls && CallOk(t, c, t.calls[c])
  {
    hide CreateKey, Pair, Lower;
    var call := w.calls[c];
    assert CallOk(w, c, call);
    if call.FindingUser? { LowerIsId(call.target); }
    if (call.Looking? || call.Refetching?) && CreateKey(call.me, call.other) in w.direct { assert RowOk(w, CreateKey(call.me, call.other)); }
  }

  lemma CreatingKeeps(w: World, c: CallId, id: ConversationId)
    requires Valid(w) && c in w.calls && w.calls[c].Creating?
    ensures Valid(Proceed(w, c, id))
  {
    hide CreateKey, Pair, CallOk, RowOk;
    var t := Proceed(w, c, id);
    if t != w {
      forall key | key in w.direct ensures key in t.direct && RowOk(t, key) { RowStays(w, t, c, key); }
      forall d | d in t.calls && d != c ensures CallOk(t, d, t.calls[d]) { CallStays(w, t, c, d, w.calls[d]); }
      Created(w, c, id);
    }
  }

  lemma Created(w: World, c: CallId, id: ConversationId)
    requires Valid(w) && c in w.calls && w.calls[c].Creating?
    ensures var t := Proceed(w, c, id);
      c in t.calls && CallOk(t, c, t.calls[c]) && forall key :: key in t.direct && key !in w.direct ==> RowOk(t, key)
  {
    hide CreateKey, Pair, Lower, IsId;
    assert CallOk(w, c, w.calls[c]);
  }

  lemma NextKeeps(w: World, s: Step)
    requires Valid(w)
    ensures Valid(Next(w, s))
  {
    match s
    case Calling(_, _, _) => StartKeeps(w, s);
    case Proceeding(c, id) =>
      hide Valid;
      if c in w.calls {
        if w.calls[c].Creating? { CreatingKeeps(w, c, id); } else { LookingKeeps(w, c, id); }
      }
    case ChangingUsers(users) =>
      var t := Next(w, s);
      forall key | key in t.direct ensures RowOk(t, key) { assert RowOk(w, key); }
      forall d | d in t.calls ensures CallOk(t, d, t.calls[d]) { assert CallOk(w, d, w.calls[d]); }
  }

  /** Whatever a valid world leads to is valid. */
  lemma LeadsToValid(w: World, t: World)
    requires Valid(w) && R.Leads(Stepper(), w, t)
    ensures Valid(t)
  {
    hide Next, Valid;
    var valid := (v: World) => Valid(v);
    forall v, s | valid(v) ensures valid(Stepper()(v, s)) { NextKeeps(v, s); }
    R.LeadsKeeps(Stepper(), valid, w, t);
  }

  // ---- What callers see ---------------------------------------------------------------------------

  lemma AlwaysValid(steps: seq<Step>)
    ensures Valid(After(steps))
  {
    hide Next;
    LeadsToValid(START, After(steps));
  }

  /** Over any interleaving, two calls return the same conversation exactly if they are about the same two users,
      in whichever order and spelling; and its members are those two. */
  lemma OneConversationPerPair(steps: seq<Step>, c: CallId, d: CallId)
    requires var calls := After(steps).calls; c in calls && d in calls && calls[c].Returned? && calls[d].Returned?
    ensures var w := After(steps); var x, y := w.calls[c], w.calls[d];
      && (x.conversation == y.conversation <==> Pair(x.me, x.other) == Pair(y.me, y.other))
      && x.conversation in w.members && w.members[x.conversation] == Pair(x.me, x.other)
  {
    hide After, CreateKey, Pair;
    AlwaysValid(steps);
    var w := After(steps);
    var x, y := w.calls[c], w.calls[d];
    assert CallOk(w, c, x) && CallOk(w, d, y);
    assert RowOk(w, CreateKey(x.me, x.other)) && RowOk(w, CreateKey(y.me, y.other));
    var z := w.calls[w.creators[x.conversation]];
    assert CallOk(w, w.creators[x.conversation], z);
    KeyInjective(x.me, x.other, y.me, y.other);
    KeyInjective(x.me, x.other, z.me, z.other);
  }

  ghost predicate IsTheCreator(calls: map<CallId, Call>, c: CallId, conversation: ConversationId) {
    c in calls && calls[c].Returned? && calls[c].conversation == conversation && calls[c].created
  }

  /** Of the calls that returned a conversation exactly one says that it created it. */
  lemma ExactlyOneCreated(steps: seq<Step>, c: CallId)
    requires c in After(steps).calls && After(steps).calls[c].Returned?
    ensures var calls := After(steps).calls;
      exists creator :: IsTheCreator(calls, creator, calls[c].conversation)
        && forall d :: IsTheCreator(calls, d, calls[c].conversation) ==> d == creator
  {
    hide After, CreateKey, Pair;
    AlwaysValid(steps);
    var w := After(steps);
    var x := w.calls[c];
    assert CallOk(w, c, x) && RowOk(w, CreateKey(x.me, x.other));
    assert IsTheCreator(w.calls, w.creators[x.conversation], x.conversation);
    forall d | IsTheCreator(w.calls, d, x.conversation) ensures d == w.creators[x.conversation] { assert CallOk(w, d, w.calls[d]); }
  }

  /** The second look-up always finds the winner's conversation; a call fails only for the caller's own reasons. */
  lemma RaceIsRecovered(steps: seq<Step>, c: CallId, id: ConversationId)
    requires c in After(steps).calls
    ensures After(steps).calls[c].Refetching? ==> Next(After(steps), Proceeding(c, id)).calls[c].Returned?
    ensures After(steps).calls[c].Failed? ==> After(steps).calls[c].failure != NotThere
  {
    hide After, CreateKey;
    AlwaysValid(steps);
    var w := After(steps);
    assert CallOk(w, c, w.calls[c]);
  }

  // ---- Calls that nobody disturbs ----------------------------------------------------------------

  /** Nobody talks to themselves, in whatever spelling, nor to somebody who is not available. */
  lemma EarlyFailures(w: World, c: CallId, me: string, target: string, id: ConversationId)
    requires c !in w.calls && IsId(me) && IsId(target)
    ensures Lower(me) == Lower(target) ==>
      Next(w, Calling(c, me, target)) == w.(calls := w.calls[c := Failed(CannotMessageSelf)])
    ensures Lower(me) != Lower(target) && Lower(target) !in w.users ==>
      Next(Next(w, Calling(c, me, target)), Proceeding(c, id)) == w.(calls := w.calls[c := Failed(UserNotFound)])
  {
  }

  /** The first call about two users creates their conversation with the id it is given; its members are the two. */
  lemma FirstCall(w: World, c: CallId, me: string, target: string, id: ConversationId)
    requires Valid(w) && c !in w.calls && IsId(me) && IsId(target) && Lower(me) != Lower(target) && Lower(target) in w.users && id !in w.members
    requires forall k :: k in w.members ==> w.members[k] != {Lower(me), Lower(target)}
    ensures
      var t := Next(Next(Next(Next(w, Calling(c, me, target)), Proceeding(c, id)), Proceeding(c, id)), Proceeding(c, id));
      && t.members == w.members[id := {Lower(me), Lower(target)}] && t.calls == w.calls[c := Returned(me, Lower(target), id, true)]
      && t.users == w.users && t.creators == w.creators[id := c]
  {
    hide CreateKey, Lower, IsId;
    LowerTwice(target);
    var key := CreateKey(me, Lower(target));
    if key in w.direct {
      assert RowOk(w, key);
      var call := w.calls[w.creators[w.direct[key]]];
      assert CallOk(w, w.creators[w.direct[key]], call);
      LowerIsId(target);
      KeyInjective(me, Lower(target), call.me, call.other);
      assert false;
    }
  }

  /** A later call about them, from either side, returns that conversation as not created by it. */
  lemma LaterCall(w: World, c: CallId, me: string, target: string, id: ConversationId, any: ConversationId)
    requires Valid(w) && c !in w.calls && IsId(me) && IsId(target) && Lower(me) != Lower(target) && Lower(target) in w.users
    requires id in w.members && w.members[id] == {Lower(me), Lower(target)} && (exists key :: key in w.direct && w.direct[key] == id)
    ensures
      var t := Next(Next(Next(w, Calling(c, me, target)), Proceeding(c, any)), Proceeding(c, any));
      t == w.(calls := w.calls[c := Returned(me, Lower(target), id, false)])
  {
    hide CreateKey, Lower, IsId;
    LowerTwice(target);
    var key :| key in w.direct && w.direct[key] == id;
    assert RowOk(w, key);
    var call := w.calls[w.creators[id]];
    assert CallOk(w, w.creators[id], call);
    LowerIsId(target);
    KeyInjective(me, Lower(target), call.me, call.other);
  }
}
