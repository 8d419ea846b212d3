/** getOrCreateDirectConversation as it is written, while other calls go on during its awaits. */
module DirectConversationService {
  import opened Prelude
  import opened DirectKey
  import opened DirectConversations
  import R = Runs

  lemma OneStepLeads(w: World, v: World, s: Step)
    requires R.Leads(Stepper(), w, v)
    ensures R.Leads(Stepper(), w, Next(v, s))
  {
    R.OneStep(Stepper(), w, v, s);
  }

  /** The own steps of a call: it finds the user, looks, creates with the id it is given, and looks again. */
  function Looks(c: CallId): seq<seq<Step>> {
    [[Proceeding(c, 0)]]
  }

  function Creates(c: CallId, id: ConversationId, again: bool): seq<seq<Step>> {
    [[Proceeding(c, id)]] + if again then Looks(c) else []
  }

  function AllSteps(c: CallId, id: ConversationId, n: nat): seq<seq<Step>> {
    if n == 0 then []
    else if n == 1 then Looks(c)
    else if n == 2 then Looks(c) + Looks(c)
    else Looks(c) + (Looks(c) + Creates(c, id, n == 4))
  }

  function Called(w: World, c: CallId, me: string, target: string): World {
    w.(calls := w.calls[c := Start(me, target)])
  }

  lemma PlayedThere(outside: (nat, World) -> World, w: World, from: nat, own: seq<seq<Step>>, t: World, until: nat)
    requires R.Plays(Stepper(), outside, w, from, own, t, until)
    ensures R.Played(Stepper(), outside, w, from, own) == t
  {
  }

  class ConversationService {
    /** What the others have made of the world by the time await number k is answered. */
    const outside: (nat, World) -> World
    /** The id the database gives to a new conversation. */
    const newId: (nat, World) -> ConversationId

    var users: set<string>
    var direct: map<string, ConversationId>
    var members: map<ConversationId, set<string>>
    var calls: map<CallId, Call>
    var creators: map<ConversationId, CallId>
    var awaits: nat

    function View(): World reads this {
      World(users, direct, members, calls, creators)
    }

    constructor (outside: (nat, World) -> World, newId: (nat, World) -> ConversationId)
      ensures View() == START && this.outside == outside && this.newId == newId
    {
      this.outside, this.newId, awaits := outside, newId, 0;
      users, direct, members, calls, creators := {}, map[], map[], map[], map[];
    }

    /** The others take steps, but not those of call `c`; ids are fresh. */
    ghost predicate Fair(c: CallId) {
      && (forall k, w :: R.Leads(Stepper(), w, outside(k, w)))
      && (forall k: nat, w: World :: c in w.calls ==> c in outside(k, w).calls && outside(k, w).calls[c] == w.calls[c])
      && (forall k, w :: newId(k, w) !in w.members)
    }

    method Await(c: CallId)
      requires c in calls && Fair(c)
      modifies this
      ensures View() == outside(old(awaits), old(View())) && awaits == old(awaits) + 1
      ensures R.Leads(Stepper(), old(View()), View()) && c in calls && calls[c] == old(calls[c])
    {
      hide R.Leads;
      var w := outside(awaits, View());
      users, direct, members, calls, creators, awaits := w.users, w.direct, w.members, w.calls, w.creators, awaits + 1;
    }

    method FindByKey(c: CallId, me: string, other: string) returns (found: Option<ConversationId>)
      requires c in calls && Fair(c) && (calls[c] == Looking(me, other) || calls[c] == Refetching(me, other))
      modifies this
      ensures R.Plays(Stepper(), outside, old(View()), old(awaits), Looks(c), View(), awaits) && awaits == old(awaits) + 1
      ensures R.Leads(Stepper(), old(View()), View()) && c in calls
      ensures calls[c] ==
        if found.Some? then Returned(me, other, found.value, false)
        else if old(calls[c]).Looking? then Creating(me, other) else Failed(NotThere)
    {
      hide R.Leads, R.Plays, CreateKey;
      ghost var start := View();
      R.OneAwait(Stepper(), outside, start, awaits, Proceeding(c, 0));
      Await(c);
      OneStepLeads(start, View(), Proceeding(c, 0));
      var key := CreateKey(me, other);
      found := if key in direct then Some(direct[key]) else None;
      calls := calls[c :=
        if found.Some? then Returned(me, other, found.value, false)
        else if calls[c].Looking? then Creating(me, other) else Failed(NotThere)];
    }

    /** The insertion; None if the unique index on the key fires. */
    method CreateDirectConversation(c: CallId, me: string, other: string) returns (created: Option<ConversationId>)
      requires c in calls && Fair(c) && calls[c] == Creating(me, other)
      modifies this
      ensures var id := newId(old(awaits) + 1, outside(old(awaits), old(View())));
        R.Plays(Stepper(), outside, old(View()), old(awaits), [[Proceeding(c, id)]], View(), awaits) && awaits == old(awaits) + 1
      ensures R.Leads(Stepper(), old(View()), View()) && c in calls
      ensures calls[c] == if created.Some? then Returned(me, other, created.value, true) else Refetching(me, other)
    {
      hide R.Leads, R.Plays, CreateKey, Pair;
      ghost var start, k := View(), awaits;
      Await(c);
      var id := newId(awaits, View());
      R.OneAwait(Stepper(), outside, start, k, Proceeding(c, id));
      OneStepLeads(start, View(), Proceeding(c, id));
      var key := CreateKey(me, other);
      if key in direct {
        calls := calls[c := Refetching(me, other)];
        return None;
      }
      direct, members, creators := direct[key := id], members[id := Pair(me, other)], creators[id := c];
      calls := calls[c := Returned(me, other, id, true)];
      return Some(id);
    }

    /** The user who is to be found, in lower case. */
    method FindUser(c: CallId, me: string, target: string) returns (found: Option<string>)
      requires c in calls && Fair(c) && calls[c] == FindingUser(me, target)
      modifies this
      ensures R.Plays(Stepper(), outside, old(View()), old(awaits), Looks(c), View(), awaits) && awaits == old(awaits) + 1
      ensures R.Leads(Stepper(), old(View()), View()) && c in calls && (found.Some? ==> found.value == Lower(target))
      ensures calls[c] == if found.Some? then Looking(me, found.value) else Failed(UserNotFound)
    {
      hide R.Leads, R.Plays, Lower;
      ghost var start := View();
      R.OneAwait(Stepper(), outside, start, awaits, Proceeding(c, 0));
      Await(c);
      OneStepLeads(start, View(), Proceeding(c, 0));
      found := FindAvailableUser(users, target);
      calls := calls[c := if found.Some? then Looking(me, found.value) else Failed(UserNotFound)];
    }

    /** The first look-up and, if it finds nothing, the rest. */
    method FindOrCreate(c: CallId, me: string, other: string) returns (conversation: Option<ConversationId>, created: bool)
      requires c in calls && Fair(c) && calls[c] == Looking(me, other)
      modifies this
      ensures
        var k := old(awaits);
        var looked := R.Played(Stepper(), outside, old(View()), k, Looks(c));
        var id := newId(k + 2, outside(k + 1, looked));
        && k < awaits <= k + 3
        && if awaits == k + 1 then R.Plays(Stepper(), outside, old(View()), k, Looks(c), View(), awaits)
           else R.Plays(Stepper(), outside, old(View()), k, Looks(c) + Creates(c, id, awaits == k + 3), View(), awaits)
      ensures R.Leads(Stepper(), old(View()), View()) && c in calls
      ensures calls[c] == if conversation.Some? then Returned(me, other, conversation.value, created) else Failed(NotThere)
    {
      hide R.Leads, R.Plays, R.Played, Looks, CreateKey, Pair;
      ghost var start, k := View(), awaits;
      conversation := FindByKey(c, me, other);
      ghost var looked, k1 := View(), awaits;
      PlayedThere(outside, start, k, Looks(c), looked, k1);
      if conversation.Some? {
        return conversation, false;
      }
      ghost var id := newId(k + 2, outside(k + 1, looked));
      conversation := CreateDirectConversation(c, me, other);
      ghost var tried, k2 := View(), awaits;
      R.PlaysOn(Stepper(), outside, start, k, Looks(c), looked, k1, [[Proceeding(c, id)]], tried, k2);
      R.LeadsOn(Stepper(), start, looked, tried);
      assert Creates(c, id, false) == [[Proceeding(c, id)]];
      if conversation.Some? {
        return conversation, true;
      }
      conversation := FindByKey(c, me, other);
      R.PlaysOn(Stepper(), outside, start, k, Looks(c) + Creates(c, id, false), tried, k2, Looks(c), View(), awaits);
      assert Looks(c) + Creates(c, id, false) + Looks(c) == Looks(c) + Creates(c, id, true);
      R.LeadsOn(Stepper(), start, tried, View());
      return conversation, false;
    }

    /** The one conversation of the two users, and whether this call created it. */
    method GetOrCreateDirectConversation(c: CallId, me: string, target: string) returns (result: Result<(ConversationId, bool), Failure>)
      requires c !in calls && Fair(c) && DirectConversations.Valid(View()) && IsId(me) && IsId(target)
      modifies this
      ensures
        var w, k := Called(old(View()), c, me, target), old(awaits);
        var found := R.Played(Stepper(), outside, w, k, Looks(c));
        var looked := R.Played(Stepper(), outside, found, k + 1, Looks(c));
        var id := newId(k + 3, outside(k + 2, looked));
        && k <= awaits <= k + 4
        && R.Plays(Stepper(), outside, w, k, AllSteps(c, id, awaits - k), View(), awaits)
      ensures R.Leads(Stepper(), old(View()), View()) && DirectConversations.Valid(View())
      ensures c in calls
      ensures result.Ok? ==> calls[c] == Returned(me, Lower(target), result.value.0, result.value.1)
      ensures result.Err? ==> calls[c] == Failed(result.error) && result.error != NotThere
    {
      hide R.Leads, R.Plays, R.Played, Looks, Creates, DirectConversations.Valid, Lower;
      ghost var before, k := View(), awaits;
      R.Here(Stepper(), before);
      OneStepLeads(before, before, Calling(c, me, target));
      calls := calls[c := Start(me, target)];
      ghost var start := View();
      if Lower(me) == Lower(target) {
        LeadsToValid(before, View());
        R.NothingPlayed(Stepper(), outside, start, k);
        return Err(CannotMessageSelf);
      }
      var other := FindUser(c, me, target);
      ghost var found, k1 := View(), awaits;
      PlayedThere(outside, start, k, Looks(c), found, k1);
      R.LeadsOn(Stepper(), before, start, found);
      if other.None? {
        LeadsToValid(before, found);
        return Err(UserNotFound);
      }
      var conversation, created := FindOrCreate(c, me, other.value);
      ghost var id := newId(k + 3, outside(k + 2, R.Played(Stepper(), outside, found, k + 1, Looks(c))));
      ghost var rest := if awaits == k1 + 1 then Looks(c) else Looks(c) + Creates(c, id, awaits == k1 + 3);
      R.PlaysOn(Stepper(), outside, start, k, Looks(c), found, k1, rest, View(), awaits);
      assert Looks(c) + rest == AllSteps(c, id, awaits - k);
      R.LeadsOn(Stepper(), before, found, View());
      LeadsToValid(before, View());
      NeverNotThere(View(), c);
      return Ok((conversation.value, created));
    }
  }

  lemma NeverNotThere(w: World, c: CallId)
    requires DirectConversations.Valid(w) && c in w.calls
    ensures w.calls[c] != Failed(NotThere)
  {
    assert CallOk(w, c, w.calls[c]);
  }
}
