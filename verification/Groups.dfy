/** The members of one group: roles, capacity and membership windows. Each function is one transaction
    of the conversation repository, run under the group's lock. */
module Groups {
  import opened Prelude

  type UserId = nat

  datatype Role = Member | Admin | Owner

  datatype Membership = Membership(role: Role, joinedAt: int, leftAt: Option<int>, muted: bool)

  type Members = map<UserId, Membership>

  datatype Failure =
    | ConversationNotFound
    | InsufficientRole
    | TargetNotFound
    | TargetIsOwner
    | AlreadyActive
    | MemberLimit
    | LastOwner
    | SameUser

  const MEMBER_LIMIT: nat := 100

  predicate IsActive(ms: Members, u: UserId) {
    u in ms && ms[u].leftAt.None?
  }

  predicate IsManager(role: Role) {
    role == Owner || role == Admin
  }

  function Active(ms: Members): set<UserId> {
    set u | u in ms && ms[u].leftAt.None?
  }

  function Owners(ms: Members): set<UserId> {
    set u | u in ms && ms[u].leftAt.None? && ms[u].role == Owner
  }

  function Ids(userIds: seq<UserId>): set<UserId> {
    set u | u in userIds
  }

  /** Fails unless every listed user is available: the count over distinct ids must match the list. */
  function Create(available: set<UserId>, creator: UserId, userIds: seq<UserId>, now: int): Option<Members> {
    var all := [creator] + userIds;
    if |Ids(all) * available| != |all| then None
    else Some((map u | u in userIds :: Membership(Member, now, None, false))[creator := Membership(Owner, now, None, false)])
  }

  function Add(ms: Members, available: set<UserId>, actor: UserId, user: UserId, joinedAt: int): Result<Members, Failure> {
    if !IsActive(ms, actor) then Err(ConversationNotFound)
    else if !IsManager(ms[actor].role) then Err(InsufficientRole)
    else if user !in available then Err(TargetNotFound)
    else if IsActive(ms, user) then Err(AlreadyActive)
    else if |Active(ms)| >= MEMBER_LIMIT then Err(MemberLimit)
    else Ok(ms[user := Membership(Member, joinedAt, None, false)])
  }

  function Remove(ms: Members, actor: UserId, user: UserId, leftAt: int): Result<Members, Failure> {
    if !IsActive(ms, actor) then Err(ConversationNotFound)
    else if actor == user then Err(SameUser)
    else if !IsActive(ms, user) then Err(TargetNotFound)
    else if ms[user].role == Owner then Err(TargetIsOwner)
    else if !IsManager(ms[actor].role) then Err(InsufficientRole)
    else Ok(ms[user := ms[user].(leftAt := Some(leftAt))])
  }

  function Leave(ms: Members, actor: UserId, leftAt: int): Result<Members, Failure> {
    if !IsActive(ms, actor) then Err(ConversationNotFound)
    else if ms[actor].role == Owner && |Active(ms)| == 1 then Err(LastOwner)
    else Ok(ms[actor := ms[actor].(leftAt := Some(leftAt))])
  }

  /** `admin` tells the two roles apart that can be given away. */
  function UpdateRole(ms: Members, actor: UserId, user: UserId, admin: bool): Result<Members, Failure> {
    if !IsActive(ms, actor) then Err(ConversationNotFound)
    else if !IsActive(ms, user) then Err(TargetNotFound)
    else if ms[user].role == Owner then Err(TargetIsOwner)
    else if ms[actor].role != Owner then Err(InsufficientRole)
    else Ok(ms[user := ms[user].(role := if admin then Admin else Member)])
  }

  function Transfer(ms: Members, actor: UserId, user: UserId): Result<Members, Failure> {
    if !IsActive(ms, actor) then Err(ConversationNotFound)
    else if ms[actor].role != Owner then Err(InsufficientRole)
    else if actor == user then Err(SameUser)
    else if !IsActive(ms, user) then Err(TargetNotFound)
    else
      var demoted: Members := map u | u in ms :: if u in Owners(ms) then ms[u].(role := Admin) else ms[u];
      Ok(demoted[user := demoted[user].(role := Owner)])
  }

  function Mute(ms: Members, user: UserId, muted: bool): Members {
    if IsActive(ms, user) then ms[user := ms[user].(muted := muted)] else ms
  }

  // ---- Runs -----------------------------------------------------------------------

  datatype Event =
    | Adding(actor: UserId, user: UserId, at: int)
    | Removing(actor: UserId, user: UserId, at: int)
    | Leaving(actor: UserId, at: int)
    | ChangingRole(actor: UserId, user: UserId, admin: bool)
    | Transferring(actor: UserId, user: UserId)
    | Muting(user: UserId, muted: bool)

  function OrElse(r: Result<Members, Failure>, ms: Members): Members {
    if r.Ok? then r.value else ms
  }

  /** One transaction; who is available may change between any two of them. */
  function Step(ms: Members, available: set<UserId>, e: Event): Members {
    match e
    case Adding(actor, user, at) => OrElse(Add(ms, available, actor, user, at), ms)
    case Removing(actor, user, at) => OrElse(Remove(ms, actor, user, at), ms)
    case Leaving(actor, at) => OrElse(Leave(ms, actor, at), ms)
    case ChangingRole(actor, user, admin) => OrElse(UpdateRole(ms, actor, user, admin), ms)
    case Transferring(actor, user) => OrElse(Transfer(ms, actor, user), ms)
    case Muting(user, muted) => Mute(ms, user, muted)
  }

  function Run(ms: Members, steps: seq<(set<UserId>, Event)>): Members
    decreases |steps|
  {
    if steps == [] then ms else Run(Step(ms, steps[0].0, steps[0].1), steps[1..])
  }

  ghost predicate Valid(ms: Members) {
    |Active(ms)| <= MEMBER_LIMIT && |Owners(ms)| <= 1
  }

  /** The step by which the owner leaves for good. */
  predicate OwnerLeaves(ms: Members, e: Event) {
    e.Leaving? && e.actor in Owners(ms) && Leave(ms, e.actor, e.at).Ok?
  }

  lemma AtMostOne(s: set<UserId>, x: UserId, y: UserId)
    requires |s| <= 1 && x in s && y in s
    ensures x == y && s == {x}
  {
    if s != {x} {
      StrictSubsetSize({x}, s);
    }
  }

  /** Every successful creation has one owner, the creator, and one member per listed user. */
  lemma CreatedGroup(available: set<UserId>, creator: UserId, userIds: seq<UserId>, now: int)
    requires Create(available, creator, userIds, now).Some?
    ensures var ms := Create(available, creator, userIds, now).value;
      && Owners(ms) == {creator} && |Active(ms)| == 1 + |userIds|
      && ms.Keys == Active(ms) && (forall u :: u in ms <==> u == creator || u in userIds)
  {
    var ms, all := Create(available, creator, userIds, now).value, [creator] + userIds;
    DistinctSize(all);
    SubsetSize(Ids(all) * available, Ids(all));
    assert |Ids(all)| == |all|;
    assert Active(ms) == Ids(all);
    if creator in userIds {
      assert Ids(all) == Ids(userIds);
      DistinctSize(userIds);
      assert false;
    }
    assert Owners(ms) == {creator};
  }

  lemma StrictSubsetSize(a: set<UserId>, b: set<UserId>)
    requires a < b
    ensures |a| < |b|
  {
    assert !(b <= a);
    var x :| x in b && x !in a;
    SubsetSize(a, b - {x});
  }

  lemma {:induction false} DistinctSize(s: seq<UserId>)
    ensures |Ids(s)| <= |s|
  {
    if s != [] {
      DistinctSize(s[1..]);
      assert s == [s[0]] + s[1..];
      assert Ids(s) == {s[0]} + Ids(s[1..]);
    }
  }

  /** What one transaction does to the owners: it keeps their number, unless the owner leaves, which makes it 0. */
  lemma StepOwners(ms: Members, available: set<UserId>, e: Event)
    requires Valid(ms)
    ensures |Owners(Step(ms, available, e))| == if OwnerLeaves(ms, e) then 0 else |Owners(ms)|
    ensures OwnerLeaves(ms, e) ==> |Owners(ms)| == 1
    ensures e.Transferring? && Transfer(ms, e.actor, e.user).Ok? ==> Owners(Step(ms, available, e)) == {e.user}
  {
    var t := Step(ms, available, e);
    match e {
      case Leaving(actor, at) =>
        if OwnerLeaves(ms, e) {
          AtMostOne(Owners(ms), actor, actor);
          assert forall u :: u in Owners(t) ==> u in Owners(ms) && u != actor;
          assert Owners(t) == {};
        } else {
          assert Owners(t) == Owners(ms);
        }
      case Transferring(actor, user) =>
        if Transfer(ms, actor, user).Ok? {
          AtMostOne(Owners(ms), actor, actor);
          assert Owners(t) == {user};
        }
      case _ => assert Owners(t) == Owners(ms);
    }
  }

  lemma StepActive(ms: Members, available: set<UserId>, e: Event)
    requires Valid(ms)
    ensures |Active(Step(ms, available, e))| <= MEMBER_LIMIT
  {
    var t := Step(ms, available, e);
    match e {
      case Adding(actor, user, at) =>
        if Add(ms, available, actor, user, at).Ok? { assert Active(t) == Active(ms) + {user}; }
      case Removing(actor, user, at) =>
        if Remove(ms, actor, user, at).Ok? { assert Active(t) == Active(ms) - {user}; }
      case Leaving(actor, at) =>
        if Leave(ms, actor, at).Ok? { assert Active(t) == Active(ms) - {actor}; }
      case _ => assert Active(t) == Active(ms);
    }
  }

  /** How many steps of a run are an owner's successful departure. */
  ghost function Departures(ms: Members, steps: seq<(set<UserId>, Event)>): nat
    decreases |steps|
  {
    if steps == [] then 0
    else (if OwnerLeaves(ms, steps[0].1) then 1 else 0) + Departures(Step(ms, steps[0].0, steps[0].1), steps[1..])
  }

  /** For every run: the capacity holds, and the number of active owners drops by exactly the departures of
      an owner; so there is at most one departure, and a group without owner never has one again. */
  lemma {:induction false} OwnersConserved(ms: Members, steps: seq<(set<UserId>, Event)>)
    requires Valid(ms)
    ensures Valid(Run(ms, steps))
    ensures |Owners(Run(ms, steps))| + Departures(ms, steps) == |Owners(ms)|
    decreases |steps|
  {
    if steps != [] {
      StepOwners(ms, steps[0].0, steps[0].1);
      StepActive(ms, steps[0].0, steps[0].1);
      OwnersConserved(Step(ms, steps[0].0, steps[0].1), steps[1..]);
    }
  }

  /** From creation on, with at most 99 listed users: never more than 100 active members, and exactly one
      active owner until an owner leaves, none afterwards, even if the former owner comes back. */
  lemma GroupFromCreation(available: set<UserId>, creator: UserId, userIds: seq<UserId>, now: int, steps: seq<(set<UserId>, Event)>)
    requires |userIds| < MEMBER_LIMIT && Create(available, creator, userIds, now).Some?
    ensures var ms := Create(available, creator, userIds, now).value; var t := Run(ms, steps);
      && |Active(t)| <= MEMBER_LIMIT
      && Departures(ms, steps) <= 1
      && |Owners(t)| == 1 - Departures(ms, steps)
  {
    CreatedGroup(available, creator, userIds, now);
    OwnersConserved(Create(available, creator, userIds, now).value, steps);
  }

  /** What an actor without the needed role cannot do: an outsider or plain member changes nobody else's
      row, and an admin changes nobody's role and never touches an owner. */
  lemma Authority(ms: Members, available: set<UserId>, e: Event, u: UserId)
    requires !e.Muting? && u != e.actor && u in ms
    ensures u in Step(ms, available, e)
    ensures !(IsActive(ms, e.actor) && IsManager(ms[e.actor].role)) ==> Step(ms, available, e)[u] == ms[u]
    ensures !(IsActive(ms, e.actor) && ms[e.actor].role == Owner) && IsActive(ms, u) ==>
      Step(ms, available, e)[u].role == ms[u].role && (ms[u].role == Owner ==> Step(ms, available, e)[u] == ms[u])
  {
  }

  /** Only a removal or a departure ends a membership; while it lasts, its join time stays. */
  lemma WindowKept(ms: Members, available: set<UserId>, e: Event, u: UserId)
    requires IsActive(ms, u)
    ensures
      || (IsActive(Step(ms, available, e), u) && Step(ms, available, e)[u].joinedAt == ms[u].joinedAt)
      || (e.Removing? && Remove(ms, e.actor, e.user, e.at).Ok? && u == e.user)
      || (e.Leaving? && Leave(ms, e.actor, e.at).Ok? && u == e.actor)
  {
  }

  // ---- When a transaction succeeds, and what it does then -------------------------------

  /** Creation succeeds exactly if everybody is available and nobody is listed twice, or is the creator. */
  lemma CreationSucceeds(available: set<UserId>, creator: UserId, userIds: seq<UserId>, now: int)
    ensures Create(available, creator, userIds, now).Some? <==>
      && creator in available && (forall u :: u in userIds ==> u in available && u != creator)
      && forall i, j :: 0 <= i < j < |userIds| ==> userIds[i] != userIds[j]
    ensures Create(available, creator, userIds, now).Some? ==>
      var ms := Create(available, creator, userIds, now).value;
      && creator in ms && ms[creator] == Membership(Owner, now, None, false)
      && forall u :: u in ms && u != creator ==> ms[u] == Membership(Member, now, None, false)
  {
    var all := [creator] + userIds;
    AllDistinct(all);
    SubsetSize(Ids(all) * available, Ids(all));
    assert creator == all[0] && forall i :: 0 <= i < |userIds| ==> userIds[i] == all[i + 1];
    DistinctSize(all);
    if |Ids(all) * available| == |all| {
      assert Ids(all) * available == Ids(all) by { if Ids(all) * available != Ids(all) { StrictSubsetSize(Ids(all) * available, Ids(all)); } }
      assert forall u :: u in userIds ==> u in Ids(all);
      assert creator in Ids(all);
    } else if (forall u :: u in userIds ==> u in available) && creator in available {
      assert Ids(all) * available == Ids(all);
    }
  }

  /** A list has as many ids as places exactly if none is repeated. */
  lemma {:induction false} AllDistinct(s: seq<UserId>)
    ensures |Ids(s)| == |s| <==> forall i, j :: 0 <= i < j < |s| ==> s[i] != s[j]
    decreases |s|
  {
    if s != [] {
      var n := |s| - 1;
      var before := s[..n];
      AllDistinct(before);
      DistinctSize(before);
      assert s == before + [s[n]];
      assert Ids(s) == Ids(before) + {s[n]};
      if s[n] in before {
        assert Ids(s) == Ids(before);
        var i :| 0 <= i < n && before[i] == s[n];
        assert s[i] == s[n];
      } else {
        assert |Ids(s)| == |Ids(before)| + 1;
        hide Ids;
        assert forall i :: 0 <= i < n ==> s[i] == before[i] && s[i] != s[n];
      }
    }
  }

  /** An owner or admin adds an available user who is not a member, while fewer than 100 are; a former member comes back as a
      plain, unmuted one with a new join time. */
  lemma AddSucceeds(ms: Members, available: set<UserId>, actor: UserId, user: UserId, at: int)
    ensures Add(ms, available, actor, user, at).Ok? <==>
      && actor in ms && ms[actor].leftAt.None? && ms[actor].role in {Owner, Admin}
      && user in available && (user in ms ==> ms[user].leftAt.Some?) && |set u | u in ms && ms[u].leftAt.None?| < 100
    ensures Add(ms, available, actor, user, at).Ok? ==> Add(ms, available, actor, user, at).value == ms[user := Membership(Member, at, None, false)]
  {
    assert Active(ms) == set u | u in ms && ms[u].leftAt.None?;
  }

  /** An owner or admin removes another member who is not an owner. */
  lemma RemoveSucceeds(ms: Members, actor: UserId, user: UserId, at: int)
    ensures Remove(ms, actor, user, at).Ok? <==>
      && actor in ms && ms[actor].leftAt.None? && ms[actor].role in {Owner, Admin}
      && user != actor && user in ms && ms[user].leftAt.None? && ms[user].role in {Member, Admin}
    ensures Remove(ms, actor, user, at).Ok? ==> Remove(ms, actor, user, at).value == ms[user := ms[user].(leftAt := Some(at))]
  {
  }

  /** Every member may leave, an owner too as long as somebody else stays. */
  lemma LeaveSucceeds(ms: Members, actor: UserId, at: int)
    ensures Leave(ms, actor, at).Ok? <==>
      && actor in ms && ms[actor].leftAt.None?
      && (ms[actor].role == Owner ==> exists u :: u != actor && u in ms && ms[u].leftAt.None?)
    ensures Leave(ms, actor, at).Ok? ==> Leave(ms, actor, at).value == ms[actor := ms[actor].(leftAt := Some(at))]
  {
    if actor in ms && ms[actor].leftAt.None? {
      assert actor in Active(ms);
      if u :| u != actor && u in ms && ms[u].leftAt.None? {
        assert u in Active(ms);
        StrictSubsetSize({actor}, Active(ms));
      } else {
        assert Active(ms) == {actor};
      }
    }
  }

  /** An owner makes another member an admin or a plain member. */
  lemma UpdateRoleSucceeds(ms: Members, actor: UserId, user: UserId, admin: bool)
    ensures UpdateRole(ms, actor, user, admin).Ok? <==>
      && actor in ms && ms[actor].leftAt.None? && ms[actor].role == Owner
      && user in ms && ms[user].leftAt.None? && ms[user].role in {Member, Admin}
    ensures UpdateRole(ms, actor, user, admin).Ok? ==>
      UpdateRole(ms, actor, user, admin).value == ms[user := ms[user].(role := if admin then Admin else Member)]
  {
  }

  /** An owner hands over to another member: the target alone is owner then, and every former owner an admin. */
  lemma TransferSucceeds(ms: Members, actor: UserId, user: UserId)
    ensures Transfer(ms, actor, user).Ok? <==>
      && actor in ms && ms[actor].leftAt.None? && ms[actor].role == Owner && user != actor && user in ms && ms[user].leftAt.None?
    ensures Transfer(ms, actor, user).Ok? ==>
      var t := Transfer(ms, actor, user).value;
      && t.Keys == ms.Keys && t[user] == ms[user].(role := Owner)
      && forall u :: u in ms && u != user ==>
        t[u] == if ms[u].leftAt.None? && ms[u].role == Owner then ms[u].(role := Admin) else ms[u]
  {
  }

  /** Muting is a member's own flag. */
  lemma MuteEffect(ms: Members, user: UserId, muted: bool)
    ensures Mute(ms, user, muted) == if user in ms && ms[user].leftAt.None? then ms[user := ms[user].(muted := muted)] else ms
  {
  }

  /** Which refusal comes first: to outsiders the group does not exist; then, to an active actor, the checks in the order of
      the transaction. */
  lemma Refusals(ms: Members, available: set<UserId>, actor: UserId, user: UserId, at: int, admin: bool)
    ensures actor !in ms || ms[actor].leftAt.Some? ==>
      && Add(ms, available, actor, user, at) == Err(ConversationNotFound) && Remove(ms, actor, user, at) == Err(ConversationNotFound)
      && Leave(ms, actor, at) == Err(ConversationNotFound) && UpdateRole(ms, actor, user, admin) == Err(ConversationNotFound)
      && Transfer(ms, actor, user) == Err(ConversationNotFound)
    ensures actor in ms && ms[actor].leftAt.None? ==>
      var role := ms[actor].role; var member := user in ms && ms[user].leftAt.None?;
      && (role == Member ==> Add(ms, available, actor, user, at) == Err(InsufficientRole))
      && (role != Member && user !in available ==> Add(ms, available, actor, user, at) == Err(TargetNotFound))
      && (role != Member && user in available && member ==> Add(ms, available, actor, user, at) == Err(AlreadyActive))
      && (role != Member && user in available && !member && |Active(ms)| >= 100 ==> Add(ms, available, actor, user, at) == Err(MemberLimit))
      && (user == actor ==> Remove(ms, actor, user, at) == Err(SameUser))
      && (user != actor && !member ==> Remove(ms, actor, user, at) == Err(TargetNotFound))
      && (user != actor && member && ms[user].role == Owner ==> Remove(ms, actor, user, at) == Err(TargetIsOwner))
      && (user != actor && member && ms[user].role != Owner && role == Member ==> Remove(ms, actor, user, at) == Err(InsufficientRole))
      && (Leave(ms, actor, at).Err? ==> Leave(ms, actor, at) == Err(LastOwner))
      && (!member ==> UpdateRole(ms, actor, user, admin) == Err(TargetNotFound))
      && (member && ms[user].role == Owner ==> UpdateRole(ms, actor, user, admin) == Err(TargetIsOwner))
      && (member && ms[user].role != Owner && role != Owner ==> UpdateRole(ms, actor, user, admin) == Err(InsufficientRole))
      && (role != Owner ==> Transfer(ms, actor, user) == Err(InsufficientRole))
      && (role == Owner && user == actor ==> Transfer(ms, actor, user) == Err(SameUser))
      && (role == Owner && user != actor && !member ==> Transfer(ms, actor, user) == Err(TargetNotFound))
  {
  }
}
