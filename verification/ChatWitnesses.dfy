/** Concrete runs in which the chat does not do what one might expect. */
module ChatWitnesses {
  import opened Prelude
  import opened ChatDb
  import A = ChatAttachments
  import F = ChatFrames
  import G = Groups
  import I = Idempotency
  import R = Runs

  // ---- A run up to a ready attachment ---------------------------------------------------

  /** User 0 has uploaded attachment 3 in their direct conversation 7 with user 1. */
  function UploadEvents(): seq<Event> {
    [SettingUsers({0, 1}), CreatingDirect(7, 0, 1, 0), CreatingAttachment(3, 0, 7, 100, 0),
     ChangingStatus(3, Processing, None), ChangingStatus(3, Ready, Some(5))]
  }

  const MEMBER := G.Membership(G.Member, 0, None, false)

  function Uploaded(): Db {
    Db({0, 1}, map[7 := Conversation(false, None, map[0 := MEMBER, 1 := MEMBER])], map[],
       map[3 := Attachment(0, 7, None, 0, None, 0, Ready, Some(5), 100)], map[], map[])
  }

  lemma OneMore(retention: nat, events: seq<Event>, e: Event)
    ensures After(retention, events + [e]) == Step(After(retention, events), retention, e)
  {
    assert (events + [e])[..|events|] == events;
  }

  lemma UploadRuns(retention: nat)
    ensures After(retention, UploadEvents()) == Uploaded()
  {
    hide After;
    var all := UploadEvents();
    assert After(retention, []) == EMPTY by { Nothing(retention); }
    OneMore(retention, [], all[0]);
    OneMore(retention, all[..1], all[1]);
    OneMore(retention, all[..2], all[2]);
    OneMore(retention, all[..3], all[3]);
    OneMore(retention, all[..4], all[4]);
    assert [] + [all[0]] == all[..1] && all[..1] + [all[1]] == all[..2] && all[..2] + [all[2]] == all[..3];
    assert all[..3] + [all[3]] == all[..4] && all[..4] + [all[4]] == all;
  }

  lemma Nothing(retention: nat)
    ensures After(retention, []) == EMPTY
  {
  }

  // ---- A caption that cannot be added -----------------------------------------------------

  /** The message that user 0 sends with the attachment and without a caption. */
  function Captionless(): NewMessage {
    NewMessage(7, 0, 9, true, None, [3])
  }

  lemma NothingObstructs()
    ensures MediaObstacle(Uploaded(), Captionless()).None? && !KeyTaken(Uploaded(), 0, 9)
  {
    var db, ids := Uploaded(), Captionless().attachmentIds;
    assert ids == [3] && ids[..0] == [];
    assert TotalSize(db.attachments, []) == 0;
    assert TotalSize(db.attachments, ids) == 5;
    assert IsAvailable(db.attachments, Captionless(), 3);
  }

  lemma Sends(m: MessageId, at: int)
    ensures CreateMessage(Uploaded(), Captionless(), m, at).1 == Created
    ensures m in CreateMessage(Uploaded(), Captionless(), m, at).0.messages
    ensures CreateMessage(Uploaded(), Captionless(), m, at).0.messages == map[m := Message(7, 0, 9, true, None, at, None, None)]
  {
    hide MediaObstacle, KeyTaken, Bind, Touched, Notify, Recipients;
    NothingObstructs();
    A.CreationBinds(Uploaded(), Captionless(), m, at);
  }

  /** In a reachable state of the tables, user 0 asks to add a caption to their own, undeleted media message, and nothing
      happens: there is no body to compare with. */
  lemma CaptionIsNotAdded(retention: nat)
    ensures var db := After(retention, UploadEvents() + [CreatingMessage(Captionless(), 11, 1)]);
      && CanDelete(db, 7, 11, 0) && db.messages[11].isMedia && db.messages[11].body.None?
      && EditMessage(db, 7, 11, 0, true, Some("caption"), 2) == db
  {
    hide After, CreateMessage;
    UploadRuns(retention);
    OneMore(retention, UploadEvents(), CreatingMessage(Captionless(), 11, 1));
    Sends(11, 1);
  }

  // ---- A media message and its twin ---------------------------------------------------------

  /** The calls' world after transactions of others alone. */
  lemma {:induction false} OthersOnly(retention: nat, events: seq<Event>)
    requires forall e :: e in events ==> !e.CreatingMessage?
    ensures R.Leads(I.Stepper(retention), I.START, I.World(After(retention, events), map[], map[]))
    decreases |events|
  {
    hide Step;
    if events == [] {
      R.Here(I.Stepper(retention), I.START);
    } else {
      var n := |events| - 1;
      InPrefix(events, n);
      OthersOnly(retention, events[..n]);
      assert events[n] in events;
      R.OneStep(I.Stepper(retention), I.START, I.World(After(retention, events[..n]), map[], map[]), I.Elsewhere(events[n]));
    }
  }

  lemma Then(retention: nat, w: I.World, s: I.Step) returns (t: I.World)
    requires R.Leads(I.Stepper(retention), I.START, w)
    ensures R.Leads(I.Stepper(retention), I.START, t) && t == I.Next(w, retention, s)
  {
    t := I.Next(w, retention, s);
    R.OneStep(I.Stepper(retention), I.START, w, s);
  }

  /** Two calls with the same key and the same attachment: both find the key free, the first creates the message, and the
      second fails instead of returning it. */
  lemma TwinFails(retention: nat) returns (w: I.World)
    ensures R.Leads(I.Stepper(retention), I.START, w)
    ensures w.calls == map[0 := I.Returned(Captionless(), 11, true), 1 := I.Failed(Captionless())]
  {
    hide R.Leads, CreateMessage, After, Step, I.FindByKey, KeyTaken;
    var n := Captionless();
    UploadRuns(retention);
    OthersOnly(retention, UploadEvents());
    w := I.World(Uploaded(), map[], map[]);
    NothingObstructs();
    w := Then(retention, w, I.Calling(0, n));
    w := Then(retention, w, I.Calling(1, n));
    NoneFound();
    w := Then(retention, w, I.Proceeding(0, 0, 0));
    w := Then(retention, w, I.Proceeding(1, 0, 0));
    assert w == I.World(Uploaded(), map[0 := I.Creating(n), 1 := I.Creating(n)], map[]);
    Sends(11, 1);
    w := Then(retention, w, I.Proceeding(0, 11, 1));
    I.LateMediaTwinFails(Uploaded(), n, 11, 1, 12, 2);
    w := Then(retention, w, I.Proceeding(1, 12, 2));
  }

  lemma NoneFound()
    ensures I.FindByKey(Uploaded(), 0, 9) == None
  {
    NothingObstructs();
    I.TakenBySome(Uploaded(), 0, 9);
  }
}
