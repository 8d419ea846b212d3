/** createMessage as the message repository runs it, while other calls and transactions go on during its awaits. */
module MessageCreation {
  import opened Prelude
  import opened ChatDb
  import opened Idempotency
  import D = ChatDatabase
  import R = Runs

  lemma OneStepLeads(retention: nat, w: World, v: World, s: Step)
    requires R.Leads(Stepper(retention), w, v)
    ensures R.Leads(Stepper(retention), w, Next(v, retention, s))
  {
    R.OneStep(Stepper(retention), w, v, s);
  }

  /** The own steps of a call: it looks; if it finds nothing it creates, with the id and time it is given; and it looks again if
      the unique index has fired. */
  function Looks(c: CallId): seq<seq<Step>> {
    [[Proceeding(c, 0, 0)]]
  }

  function Creates(c: CallId, row: (MessageId, int), again: bool): seq<seq<Step>> {
    [[Proceeding(c, row.0, row.1)]] + if again then Looks(c) else []
  }

  function Called(w: World, c: CallId, n: NewMessage): World {
    w.(calls := w.calls[c := Looking(n)])
  }

  /** Keys are unique, so there is one answer to a look-up; and a call that looks again finds the winner's message. */
  lemma FoundAsSpecified(w: World, c: CallId, n: NewMessage, found: Option<MessageId>)
    requires Idempotency.Valid(w) && c in w.calls && (w.calls[c] == Looking(n) || w.calls[c] == Refetching(n))
    requires match found case Some(m) => HasKey(w.db, m, n.sender, n.clientId) case None => !KeyTaken(w.db, n.sender, n.clientId)
    ensures found == FindByKey(w.db, n.sender, n.clientId) && (w.calls[c].Refetching? ==> found.Some?)
  {
    assert CallOk(w.db, w.creators, c, w.calls[c]);
    TakenBySome(w.db, n.sender, n.clientId);
    var spec := FindByKey(w.db, n.sender, n.clientId);
    if found.Some? && spec.Some? {
      var m := w.db.messages[found.value];
      assert HasKey(w.db, spec.value, m.sender, m.clientId);
    }
  }

  lemma PlayedThere(retention: nat, outside: (nat, World) -> World, w: World, from: nat, own: seq<seq<Step>>, t: World, until: nat)
    requires R.Plays(Stepper(retention), outside, w, from, own, t, until)
    ensures R.Played(Stepper(retention), outside, w, from, own) == t
  {
  }

  class MessageRepository {
    const database: D.Database
    const retention: nat
    /** What the others have made of the world by the time await number k is answered. */
    const outside: (nat, World) -> World
    /** The id and time the database gives to a new message. */
    const newRow: (nat, Db) -> (MessageId, int)

    var calls: map<CallId, Call>
    var creators: map<MessageId, CallId>
    var awaits: nat

    function View(): World reads this, database {
      World(database.View(), calls, creators)
    }

    constructor (database: D.Database, retention: nat, outside: (nat, World) -> World, newRow: (nat, Db) -> (MessageId, int))
      requires database.View() == EMPTY
      ensures View() == START && this.database == database && this.retention == retention
      ensures this.outside == outside && this.newRow == newRow
    {
      this.database, this.retention, this.outside, this.newRow := database, retention, outside, newRow;
      calls, creators, awaits := map[], map[], 0;
    }

    /** The others take steps, but not those of call `c`; ids are fresh. */
    ghost predicate Fair(c: CallId) {
      && (forall k, w :: R.Leads(Stepper(retention), w, outside(k, w)))
      && (forall k: nat, w: World :: c in w.calls ==> c in outside(k, w).calls && outside(k, w).calls[c] == w.calls[c])
      && (forall k, db :: newRow(k, db).0 !in db.messages)
    }

    method Await(c: CallId)
      requires c in calls && Fair(c)
      modifies this, database
      ensures View() == outside(old(awaits), old(View())) && awaits == old(awaits) + 1
      ensures R.Leads(Stepper(retention), old(View()), View()) && c in calls && calls[c] == old(calls[c])
    {
      hide R.Leads;
      var w := outside(awaits, View());
      database.Load(w.db);
      calls, creators, awaits := w.calls, w.creators, awaits + 1;
    }

    method Find(c: CallId, n: NewMessage) returns (found: Option<MessageId>)
      requires c in calls && Fair(c) && Idempotency.Valid(View()) && (calls[c] == Looking(n) || calls[c] == Refetching(n))
      modifies this, database
      ensures R.Plays(Stepper(retention), outside, old(View()), old(awaits), Looks(c), View(), awaits)
      ensures awaits == old(awaits) + 1
      ensures R.Leads(Stepper(retention), old(View()), View()) && Idempotency.Valid(View()) && c in calls
      ensures found.Some? ==> calls[c] == Returned(n, found.value, false)
      ensures found.None? ==> old(calls[c]) == Looking(n) && calls[c] == Creating(n)
    {
      hide R.Leads, R.Plays, Idempotency.Valid, FindByKey, KeyTaken, HasKey, ChatDb.CreateMessage, ChatDb.Step;
      ghost var start := View();
      R.OneAwait(Stepper(retention), outside, start, awaits, Proceeding(c, 0, 0));
      Await(c);
      ghost var w := View();
      found := database.FindByIdempotencyKey(n.sender, n.clientId);
      LeadsToValid(retention, start, w);
      FoundAsSpecified(w, c, n, found);
      OneStepLeads(retention, start, w, Proceeding(c, 0, 0));
      calls := calls[c := if found.Some? then Returned(n, found.value, false) else Creating(n)];
      LeadsToValid(retention, start, View());
    }

    /** The message with the call's key and whether this call created it, or the failure of the transaction. */
    method CreateMessage(c: CallId, n: NewMessage) returns (result: Result<(MessageId, bool), CreateOutcome>)
      requires c !in calls && Fair(c) && Idempotency.Valid(View())
      modifies this, database
      ensures
        var w, k := Called(old(View()), c, n), old(awaits);
        var looked := R.Played(Stepper(retention), outside, w, k, Looks(c));
        var row := newRow(k + 2, outside(k + 1, looked).db);
        if awaits == k + 1 then R.Plays(Stepper(retention), outside, w, k, Looks(c), View(), awaits)
        else R.Plays(Stepper(retention), outside, w, k, Looks(c) + Creates(c, row, awaits == k + 3), View(), awaits)
      ensures R.Leads(Stepper(retention), old(View()), View()) && Idempotency.Valid(View())
      ensures c in calls && calls[c] == if result.Ok? then Returned(n, result.value.0, result.value.1) else Failed(n)
      ensures result.Err? ==> result.error != Duplicate
    {
      hide R.Leads, R.Plays, R.Played, Looks, Creates, Idempotency.Valid, ChatDb.CreateMessage;
      ghost var before, k := View(), awaits;
      calls := calls[c := Looking(n)];
      ghost var start := View();
      R.Here(Stepper(retention), before);
      OneStepLeads(retention, before, before, Calling(c, n));
      LeadsToValid(retention, before, start);
      var existing := Find(c, n);
      ghost var looked, k1 := View(), awaits;
      PlayedThere(retention, outside, start, k, Looks(c), looked, k1);
      R.LeadsOn(Stepper(retention), before, start, looked);
      if existing.Some? {
        return Ok((existing.value, false));
      }
      result := CreateOrRecover(c, n);
      ghost var row := newRow(k + 2, outside(k + 1, looked).db);
      R.PlaysOn(Stepper(retention), outside, start, k, Looks(c), looked, k1, Creates(c, row, awaits == k + 3), View(), awaits);
      R.LeadsOn(Stepper(retention), before, looked, View());
    }

    /** The transaction and, if the unique index has fired, the second look-up. */
    method CreateOrRecover(c: CallId, n: NewMessage) returns (result: Result<(MessageId, bool), CreateOutcome>)
      requires c in calls && Fair(c) && Idempotency.Valid(View()) && calls[c] == Creating(n)
      modifies this, database
      ensures old(awaits) < awaits <= old(awaits) + 2
      ensures var row := newRow(old(awaits) + 1, outside(old(awaits), old(View())).db);
        R.Plays(Stepper(retention), outside, old(View()), old(awaits), Creates(c, row, awaits == old(awaits) + 2), View(), awaits)
      ensures R.Leads(Stepper(retention), old(View()), View()) && Idempotency.Valid(View())
      ensures c in calls && calls[c] == if result.Ok? then Returned(n, result.value.0, result.value.1) else Failed(n)
      ensures result.Err? ==> result.error != Duplicate
    {
      hide R.Leads, R.Plays, Idempotency.Valid, ChatDb.CreateMessage;
      ghost var start, k := View(), awaits;
      ghost var row := newRow(k + 1, outside(k, start).db);
      var outcome, m := Create(c, n);
      ghost var tried, k1 := View(), awaits;
      assert [[Proceeding(c, row.0, row.1)]] + [] == [[Proceeding(c, row.0, row.1)]];
      LeadsToValid(retention, start, tried);
      if outcome == Created {
        return Ok((m, true));
      }
      if outcome != Duplicate {
        return Err(outcome);
      }
      var raced := Find(c, n);
      R.PlaysOn(Stepper(retention), outside, start, k, [[Proceeding(c, row.0, row.1)]], tried, k1, Looks(c), View(), awaits);
      R.LeadsOn(Stepper(retention), start, tried, View());
      return Ok((raced.value, false));
    }

    method Create(c: CallId, n: NewMessage) returns (outcome: CreateOutcome, m: MessageId)
      requires c in calls && Fair(c) && calls[c] == Creating(n)
      modifies this, database
      ensures var row := newRow(old(awaits) + 1, outside(old(awaits), old(View())).db);
        R.Plays(Stepper(retention), outside, old(View()), old(awaits), [[Proceeding(c, row.0, row.1)]], View(), awaits)
      ensures awaits == old(awaits) + 1
      ensures R.Leads(Stepper(retention), old(View()), View()) && c in calls
      ensures calls[c] == if outcome == Created then Returned(n, m, true) else if outcome == Duplicate then Refetching(n) else Failed(n)
    {
      hide R.Leads, R.Plays, ChatDb.CreateMessage;
      ghost var start, k := View(), awaits;
      Await(c);
      ghost var w := View();
      var (id, at) := newRow(awaits, database.View());
      R.OneAwait(Stepper(retention), outside, start, k, Proceeding(c, id, at));
      outcome := database.CreateMessageTransaction(n, id, at);
      OneStepLeads(retention, start, w, Proceeding(c, id, at));
      m := id;
      if outcome == Created {
        calls, creators := calls[c := Returned(n, m, true)], creators[m := c];
      } else {
        calls := calls[c := if outcome == Duplicate then Refetching(n) else Failed(n)];
      }
    }
  }
}
