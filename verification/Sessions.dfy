/** Sign-in sessions: refresh tokens are rotated by reading the session, generating the next token and
    comparing-and-setting its hash, all of it interleaved with other clients, revocations and deactivations. */
module Sessions {
  import opened Prelude

  type SessionId = nat
  type UserId = nat
  type Hash = nat

  datatype Session = Session(userId: UserId, hash: Hash, expiresAt: int, lastUsedAt: int, revokedAt: Option<int>)

  predicate IsExpired(expiresAt: int, now: int) {
    expiresAt <= now
  }

  // ---- The guarded updates ------------------------------------------------------

  /** The where clause of the compare-and-set. */
  predicate CanRotate(sessions: map<SessionId, Session>, activeUsers: set<UserId>, id: SessionId, userId: UserId, current: Hash, rotatedAt: int) {
    && id in sessions
    && var s := sessions[id];
       && s.userId == userId && s.hash == current && s.revokedAt.None?
       && s.expiresAt > rotatedAt && s.lastUsedAt <= rotatedAt
       && userId in activeUsers
  }

  function Rotated(sessions: map<SessionId, Session>, id: SessionId, next: Hash, rotatedAt: int): map<SessionId, Session>
    requires id in sessions
  {
    sessions[id := sessions[id].(hash := next, lastUsedAt := rotatedAt)]
  }

  predicate CanRevoke(sessions: map<SessionId, Session>, id: SessionId, userId: UserId) {
    id in sessions && sessions[id].userId == userId && sessions[id].revokedAt.None?
  }

  function Others(sessions: map<SessionId, Session>, userId: UserId, current: SessionId): set<SessionId> {
    set id | id in sessions && sessions[id].userId == userId && id != current && sessions[id].revokedAt.None?
  }

  function Revoked(sessions: map<SessionId, Session>, ids: set<SessionId>, at: int): map<SessionId, Session> {
    map id | id in sessions :: if id in ids then sessions[id].(revokedAt := Some(at)) else sessions[id]
  }

  predicate CanTouch(sessions: map<SessionId, Session>, id: SessionId, at: int) {
    id in sessions && sessions[id].revokedAt.None? && sessions[id].expiresAt > at && sessions[id].lastUsedAt <= at
  }

  ghost predicate UniqueHashes(sessions: map<SessionId, Session>) {
    forall i, j :: i in sessions && j in sessions && sessions[i].hash == sessions[j].hash ==> i == j
  }

  /** The answer of a look-up by hash. */
  ghost predicate Finds(sessions: map<SessionId, Session>, hash: Hash, found: Option<SessionId>) {
    match found
    case Some(id) => id in sessions && sessions[id].hash == hash
    case None => forall id :: id in sessions ==> sessions[id].hash != hash
  }

  /** The session's current token, presented at `now`, may be exchanged: neither revoked, expired, used later, nor of an
      inactive user. */
  ghost predicate IsUsable(s: Session, activeUsers: set<UserId>, current: Hash, now: int) {
    s.hash == current && s.revokedAt.None? && now < s.expiresAt && s.lastUsedAt <= now && s.userId in activeUsers
  }

  class AuthSessionRepository {
    var sessions: map<SessionId, Session>
    var activeUsers: set<UserId>

    constructor ()
      ensures sessions == map[] && activeUsers == {}
    {
      sessions, activeUsers := map[], {};
    }

    /** Refused when the unique index on the token hash fires; so hashes stay unique. */
    method CreateSession(id: SessionId, session: Session) returns (created: bool)
      requires id !in sessions
      modifies this`sessions
      ensures created <==> forall i :: i in old(sessions) ==> old(sessions)[i].hash != session.hash
      ensures sessions == if created then old(sessions)[id := session] else old(sessions)
      ensures old(UniqueHashes(sessions)) ==> UniqueHashes(sessions)
    {
      if exists i :: i in sessions && sessions[i].hash == session.hash {
        return false;
      }
      sessions := sessions[id := session];
      return true;
    }

    method FindSessionByRefreshTokenHash(hash: Hash) returns (found: Option<SessionId>)
      ensures found.Some? ==> found.value in sessions && sessions[found.value].hash == hash
      ensures found.None? ==> forall id :: id in sessions ==> sessions[id].hash != hash
      ensures Finds(sessions, hash, found)
    {
      if exists id :: id in sessions && sessions[id].hash == hash {
        var id :| id in sessions && sessions[id].hash == hash;
        found := Some(id);
      } else {
        found := None;
      }
    }

    /** The compare-and-set: the presented hash is replaced exactly if it is still current in an unrevoked, unexpired
        session of an active user that was not used later; nothing else changes. */
    method RotateRefreshToken(id: SessionId, userId: UserId, current: Hash, next: Hash, rotatedAt: int) returns (rotated: bool)
      modifies this`sessions
      ensures rotated <==>
        && id in old(sessions) && old(sessions)[id].userId == userId && old(sessions)[id].hash == current
        && old(sessions)[id].revokedAt.None? && rotatedAt < old(sessions)[id].expiresAt && old(sessions)[id].lastUsedAt <= rotatedAt
        && userId in activeUsers
      ensures sessions.Keys == old(sessions).Keys
      ensures forall i :: i in old(sessions) && (i != id || !rotated) ==> sessions[i] == old(sessions)[i]
      ensures rotated ==>
        && userId in activeUsers && old(sessions)[id].userId == userId && old(sessions)[id].revokedAt.None?
        && old(sessions)[id].hash == current && sessions[id].hash == next
        && old(sessions)[id].lastUsedAt <= sessions[id].lastUsedAt == rotatedAt < sessions[id].expiresAt
        && Advances(old(sessions)[id], sessions[id]) && sessions == Rotated(old(sessions), id, next, rotatedAt)
    {
      if id !in sessions || userId !in activeUsers {
        return false;
      }
      var s := sessions[id];
      if s.userId != userId || s.hash != current || s.revokedAt.Some? || s.expiresAt <= rotatedAt || s.lastUsedAt > rotatedAt {
        return false;
      }
      sessions := sessions[id := s.(hash := next, lastUsedAt := rotatedAt)];
      return true;
    }

    /** The user's session ends revoked, at the first revocation's time; no other session changes. */
    method RevokeSession(id: SessionId, userId: UserId, revokedAt: int) returns (revoked: bool)
      modifies this`sessions
      ensures sessions.Keys == old(sessions).Keys && forall i :: i in old(sessions) && i != id ==> sessions[i] == old(sessions)[i]
      ensures id in old(sessions) ==> Advances(old(sessions)[id], sessions[id])
      ensures id in old(sessions) && old(sessions)[id].userId == userId ==> sessions[id].revokedAt.Some?
      ensures id in old(sessions) && old(sessions)[id].userId != userId ==> !revoked && sessions == old(sessions)
      ensures revoked <==> id in old(sessions) && old(sessions)[id].revokedAt.None? && sessions[id].revokedAt == Some(revokedAt)
      ensures id in old(sessions) && old(sessions)[id].userId == userId && old(sessions)[id].revokedAt.None? ==> revoked
      ensures sessions == if CanRevoke(old(sessions), id, userId) then Revoked(old(sessions), {id}, revokedAt) else old(sessions)
    {
      revoked := id in sessions && sessions[id].userId == userId && sessions[id].revokedAt.None?;
      if revoked {
        sessions := sessions[id := sessions[id].(revokedAt := Some(revokedAt))];
      }
    }

    /** Finds the other unrevoked sessions of the user, then revokes them: of the user's sessions only the current one
        may be left usable, while it, everybody else's sessions and earlier revocations stay as they are. */
    method RevokeOtherSessions(userId: UserId, current: SessionId, revokedAt: int) returns (ids: set<SessionId>)
      modifies this`sessions
      ensures sessions.Keys == old(sessions).Keys
      ensures forall i :: i in sessions && sessions[i].userId == userId && sessions[i].revokedAt.None? ==> i == current
      ensures forall i :: i in ids ==> i in old(sessions) && old(sessions)[i].revokedAt.None? && sessions[i].revokedAt == Some(revokedAt)
      ensures forall i :: i in old(sessions) ==> Advances(old(sessions)[i], sessions[i])
      ensures forall i :: i in old(sessions) && (i == current || old(sessions)[i].userId != userId || i !in ids) ==>
        sessions[i] == old(sessions)[i]
      ensures sessions == Revoked(old(sessions), Others(old(sessions), userId, current), revokedAt)
    {
      ids := set i | i in sessions && sessions[i].userId == userId && i != current && sessions[i].revokedAt.None?;
      if ids == {} {
        assert forall i :: i in sessions && sessions[i].userId == userId && i != current && sessions[i].revokedAt.None? ==> i in ids;
        assert Others(sessions, userId, current) == {};
        return;
      }
      sessions := map i | i in sessions ::
        if sessions[i].userId == userId && i in ids && sessions[i].revokedAt.None? then sessions[i].(revokedAt := Some(revokedAt)) else sessions[i];
    }

    /** The use time only moves forward, and only while the session is neither revoked nor expired; nothing else changes. */
    method UpdateLastUsedAt(id: SessionId, lastUsedAt: int) returns (updated: bool)
      modifies this`sessions
      ensures sessions.Keys == old(sessions).Keys && forall i :: i in old(sessions) && i != id ==> sessions[i] == old(sessions)[i]
      ensures id in old(sessions) ==> Advances(old(sessions)[id], sessions[id]) && sessions[id].revokedAt == old(sessions)[id].revokedAt
      ensures updated <==>
        && id in old(sessions) && old(sessions)[id].revokedAt.None?
        && old(sessions)[id].lastUsedAt <= lastUsedAt < old(sessions)[id].expiresAt
      ensures updated ==> sessions[id].lastUsedAt == lastUsedAt
      ensures !updated ==> sessions == old(sessions)
      ensures updated <==> CanTouch(old(sessions), id, lastUsedAt)
    {
      updated := id in sessions && sessions[id].revokedAt.None? && sessions[id].expiresAt > lastUsedAt && sessions[id].lastUsedAt <= lastUsedAt;
      if updated {
        sessions := sessions[id := sessions[id].(lastUsedAt := lastUsedAt)];
      }
    }
  }

  /** The service call when nobody interferes: it succeeds exactly for a current, usable session. */
  method RotateRefreshToken(repository: AuthSessionRepository, current: Hash, now: int, next: Hash) returns (rotated: Option<SessionId>)
    requires UniqueHashes(repository.sessions)
    modifies repository`sessions
    ensures rotated.Some? <==>
      next != current && exists id :: id in old(repository.sessions) && IsUsable(old(repository.sessions)[id], repository.activeUsers, current, now)
    ensures rotated.Some? ==>
      && rotated.value in old(repository.sessions) && old(repository.sessions)[rotated.value].hash == current
      && repository.sessions == old(repository.sessions)[rotated.value :=
           old(repository.sessions)[rotated.value].(hash := next, lastUsedAt := now)]
    ensures rotated.None? ==> repository.sessions == old(repository.sessions)
  {
    var found := repository.FindSessionByRefreshTokenHash(current);
    if found.None? {
      return None;
    }
    var session := repository.sessions[found.value];
    if session.revokedAt.Some? || IsExpired(session.expiresAt, now) {
      return None;
    }
    if next == current {
      return None;
    }
    var ok := repository.RotateRefreshToken(found.value, session.userId, current, next, now);
    if !ok {
      return None;
    }
    return Some(found.value);
  }

  // ---- Many clients at once -----------------------------------------------------

  /** Where one call of rotateRefreshToken stands between two awaits. */
  datatype Client =
    | Presented(current: Hash, now: int)
    | Generated(session: SessionId, userId: UserId, current: Hash, next: Hash, now: int)
    | Failed
    | Succeeded(session: SessionId, current: Hash, next: Hash)

  datatype Rotation = Rotation(session: SessionId, from: Hash, to: Hash, at: int)

  /** The tables, the calls in flight and the history: the hashes generated so far, the first hash of each
      session and the successful rotations in the order they happened. */
  datatype World = World(
    sessions: map<SessionId, Session>, activeUsers: set<UserId>, clients: map<nat, Client>,
    issued: set<Hash>, first: map<SessionId, Hash>, rotations: seq<Rotation>)

  datatype Event =
    | SignIn(id: SessionId, userId: UserId, hash: Hash, expiresAt: int, now: int)
    | Present(client: nat, hash: Hash, now: int)
    | Read(client: nat, found: Option<SessionId>, next: Hash)
    | CompareAndSet(client: nat)
    | Revoke(id: SessionId, userId: UserId, at: int)
    | RevokeOthers(userId: UserId, current: SessionId, at: int)
    | Touch(id: SessionId, at: int)
    | SetUserActive(userId: UserId, active: bool)

  ghost predicate ClientAt(w: World, client: nat, presented: bool) {
    client in w.clients && (if presented then w.clients[client].Presented? else w.clients[client].Generated?)
  }

  /** An event that cannot happen in `w` leaves it unchanged. Generated tokens are fresh. */
  ghost function Step(w: World, e: Event): World {
    match e
    case SignIn(id, userId, hash, expiresAt, now) =>
      if id in w.sessions || hash in w.issued then w
      else w.(sessions := w.sessions[id := Session(userId, hash, expiresAt, now, None)],
              issued := w.issued + {hash}, first := w.first[id := hash])
    case Present(client, hash, now) =>
      if client in w.clients then w else w.(clients := w.clients[client := Presented(hash, now)])
    case Read(client, found, next) =>
      if !ClientAt(w, client, true) || !Finds(w.sessions, w.clients[client].current, found) then w
      else AfterRead(w, client, found, next)
    case CompareAndSet(client) =>
      if !ClientAt(w, client, false) then w else AfterCompareAndSet(w, client)
    case Revoke(id, userId, at) =>
      if CanRevoke(w.sessions, id, userId) then w.(sessions := Revoked(w.sessions, {id}, at)) else w
    case RevokeOthers(userId, current, at) =>
      w.(sessions := Revoked(w.sessions, Others(w.sessions, userId, current), at))
    case Touch(id, at) =>
      if CanTouch(w.sessions, id, at) then w.(sessions := w.sessions[id := w.sessions[id].(lastUsedAt := at)]) else w
    case SetUserActive(userId, active) =>
      w.(activeUsers := if active then w.activeUsers + {userId} else w.activeUsers - {userId})
  }

  ghost function AfterRead(w: World, client: nat, found: Option<SessionId>, next: Hash): World
    requires ClientAt(w, client, true) && Finds(w.sessions, w.clients[client].current, found)
  {
    var c := w.clients[client];
    if found.None? || w.sessions[found.value].revokedAt.Some? || IsExpired(w.sessions[found.value].expiresAt, c.now) || next == c.current
    then w.(clients := w.clients[client := Failed])
    else if next in w.issued then w
    else
      var id := found.value;
      w.(clients := w.clients[client := Generated(id, w.sessions[id].userId, c.current, next, c.now)], issued := w.issued + {next})
  }

  ghost function AfterCompareAndSet(w: World, client: nat): World
    requires ClientAt(w, client, false)
  {
    var c := w.clients[client];
    if CanRotate(w.sessions, w.activeUsers, c.session, c.userId, c.current, c.now) then
      w.(sessions := Rotated(w.sessions, c.session, c.next, c.now),
         clients := w.clients[client := Succeeded(c.session, c.current, c.next)],
         rotations := w.rotations + [Rotation(c.session, c.current, c.next, c.now)])
    else w.(clients := w.clients[client := Failed])
  }

  /** A client that presents the current token of a usable session, reads it, is given a new token and then comes to its
      compare-and-set with nobody in between succeeds: the session has the new token and that time of use. */
  lemma UndisturbedClientSucceeds(w: World, client: nat, id: SessionId, current: Hash, next: Hash, now: int)
    requires Valid(w) && client !in w.clients && id in w.sessions && next !in w.issued
    requires IsUsable(w.sessions[id], w.activeUsers, current, now)
    ensures var t := Step(Step(Step(w, Present(client, current, now)), Read(client, Some(id), next)), CompareAndSet(client));
      && client in t.clients && t.clients[client] == Succeeded(id, current, next)
      && t.sessions == w.sessions[id := w.sessions[id].(hash := next, lastUsedAt := now)]
      && t.rotations == w.rotations + [Rotation(id, current, next, now)]
  {
    hide Chained, Spent, Pending;
    assert w.sessions[id].hash in w.issued;
  }

  /** Whatever happened in between, a compare-and-set succeeds exactly if the session is usable with that token now and still
      belongs to the user it was read for. */
  lemma CompareAndSetSucceeds(w: World, client: nat)
    requires ClientAt(w, client, false)
    ensures var c := w.clients[client];
      Step(w, CompareAndSet(client)).clients[client].Succeeded? <==>
        c.session in w.sessions && w.sessions[c.session].userId == c.userId && IsUsable(w.sessions[c.session], w.activeUsers, c.current, c.now)
  {
  }

  /** What a client learns from reading: it goes on exactly if the token is current in a session that is neither revoked nor
      expired and the generated token is another one. */
  lemma ReadGoesOn(w: World, client: nat, found: Option<SessionId>, next: Hash)
    requires ClientAt(w, client, true) && Finds(w.sessions, w.clients[client].current, found) && next !in w.issued
    ensures var c := w.clients[client];
      Step(w, Read(client, found, next)).clients[client].Generated? <==>
        && found.Some? && w.sessions[found.value].revokedAt.None? && c.now < w.sessions[found.value].expiresAt && next != c.current
  {
  }

  /** The rotations of session `id` lead from `start` to `end`, each starting from the hash the previous one set. */
  ghost predicate Linked(rotations: seq<Rotation>, id: SessionId, start: Hash, end: Hash) {
    if rotations == [] then start == end
    else
      var n := |rotations| - 1;
      var last := rotations[n];
      if last.session == id then last.to == end && Linked(rotations[..n], id, start, last.from)
      else Linked(rotations[..n], id, start, end)
  }

  ghost predicate NoneOf(rotations: seq<Rotation>, id: SessionId, from: nat, until: nat) {
    forall k :: from <= k < until <= |rotations| ==> rotations[k].session != id
  }

  /** What such a chain is, rotation by rotation: the first of the session's rotations starts at `start`, each later one where
      the one before it ended, and the last ends at `end`. */
  lemma {:induction false} LinkedInOrder(rotations: seq<Rotation>, id: SessionId, start: Hash, end: Hash, i: nat, j: nat)
    requires Linked(rotations, id, start, end)
    requires i < |rotations| && rotations[i].session == id
    ensures NoneOf(rotations, id, 0, i) ==> rotations[i].from == start
    ensures i < j < |rotations| && rotations[j].session == id && NoneOf(rotations, id, i + 1, j) ==> rotations[j].from == rotations[i].to
    ensures NoneOf(rotations, id, i + 1, |rotations|) ==> rotations[i].to == end
  {
    var n := |rotations| - 1;
    var before, last := rotations[..n], rotations[n];
    var middle := if last.session == id then last.from else end;
    if i == n {
      if NoneOf(rotations, id, 0, n) { Untouched(before, id, start, middle); }
    } else {
      LinkedInOrder(before, id, start, middle, i, j);
      assert rotations[i] == before[i];
      assert NoneOf(rotations, id, 0, i) ==> NoneOf(before, id, 0, i);
      assert NoneOf(rotations, id, i + 1, j) && j <= n ==> NoneOf(before, id, i + 1, j);
      assert NoneOf(rotations, id, i + 1, n) ==> NoneOf(before, id, i + 1, n);
      assert NoneOf(rotations, id, i + 1, n + 1) ==> rotations[n].session != id && NoneOf(rotations, id, i + 1, n);
    }
  }

  lemma {:induction false} Untouched(rotations: seq<Rotation>, id: SessionId, start: Hash, end: Hash)
    requires Linked(rotations, id, start, end) && NoneOf(rotations, id, 0, |rotations|)
    ensures start == end
  {
    if rotations != [] {
      var n := |rotations| - 1;
      assert rotations[n].session != id && NoneOf(rotations[..n], id, 0, n);
      Untouched(rotations[..n], id, start, end);
    }
  }

  /** Each session's rotations form one chain from its first hash to its current one. */
  ghost predicate Chained(w: World) {
    && w.first.Keys == w.sessions.Keys
    && (forall i :: 0 <= i < |w.rotations| ==> w.rotations[i].session in w.sessions)
    && forall id :: id in w.sessions ==> Linked(w.rotations, id, w.first[id], w.sessions[id].hash)
  }

  /** No hash is current in two sessions, and every hash in use was issued. */
  ghost predicate Current(w: World) {
    UniqueHashes(w.sessions) && forall id :: id in w.sessions ==> w.sessions[id].hash in w.issued
  }

  /** A hash that was rotated away is spent: it is issued and current nowhere. */
  ghost predicate Spent(w: World) {
    && (forall i :: 0 <= i < |w.rotations| ==> w.rotations[i].from in w.issued)
    && (forall i, id :: 0 <= i < |w.rotations| && id in w.sessions ==> w.rotations[i].from != w.sessions[id].hash)
    && forall i, j :: 0 <= i < j < |w.rotations| ==> w.rotations[i].from != w.rotations[j].from
  }

  /** The next hash of a call in flight is its own: issued, never current and not spent. */
  ghost predicate Pending(w: World) {
    && (forall c :: c in w.clients && w.clients[c].Generated? ==> NextIsNew(w, w.clients[c].next))
    && forall c, d :: c in w.clients && d in w.clients && c != d && w.clients[c].Generated? && w.clients[d].Generated? ==>
         w.clients[c].next != w.clients[d].next
  }

  ghost predicate NextIsNew(w: World, next: Hash) {
    && next in w.issued
    && (forall id :: id in w.sessions ==> w.sessions[id].hash != next)
    && forall i :: 0 <= i < |w.rotations| ==> w.rotations[i].from != next
  }

  ghost predicate Valid(w: World) {
    Chained(w) && Current(w) && Spent(w) && Pending(w)
  }

  const INITIAL := World(map[], {}, map[], {}, map[], [])

  lemma SignInKeeps(w: World, e: Event)
    requires Valid(w) && e.SignIn? && e.id !in w.sessions && e.hash !in w.issued
    ensures Valid(Step(w, e))
  {
    hide Chained, Current, Spent, Pending;
    SignInChained(w, e);
    SignInSpent(w, e);
    SignInPending(w, e);
  }

  lemma SignInChained(w: World, e: Event)
    requires Chained(w) && e.SignIn? && e.id !in w.sessions && e.hash !in w.issued
    ensures Chained(Step(w, e))
  {
    hide Linked;
    UnlinkedSession(w.rotations, e.id, e.hash);
  }

  lemma SignInSpent(w: World, e: Event)
    requires Current(w) && Spent(w) && e.SignIn? && e.id !in w.sessions && e.hash !in w.issued
    ensures Current(Step(w, e)) && Spent(Step(w, e))
  {
  }

  lemma SignInPending(w: World, e: Event)
    requires Pending(w) && e.SignIn? && e.id !in w.sessions && e.hash !in w.issued
    ensures Pending(Step(w, e))
  {
    var t := Step(w, e);
    forall c | c in t.clients && t.clients[c].Generated? ensures NextIsNew(t, t.clients[c].next) {
      assert NextIsNew(w, w.clients[c].next);
    }
  }

  lemma {:induction false} UnlinkedSession(rotations: seq<Rotation>, id: SessionId, hash: Hash)
    requires forall i :: 0 <= i < |rotations| ==> rotations[i].session != id
    ensures Linked(rotations, id, hash, hash)
  {
    if rotations != [] {
      UnlinkedSession(rotations[..|rotations| - 1], id, hash);
    }
  }

  lemma ReadKeeps(w: World, e: Event)
    requires Valid(w) && e.Read?
    ensures Valid(Step(w, e))
  {
    hide Linked;
    var t := Step(w, e);
    assert t.sessions == w.sessions && t.rotations == w.rotations && t.first == w.first && w.issued <= t.issued;
    forall c | c in t.clients && t.clients[c].Generated? ensures NextIsNew(t, t.clients[c].next) {
      assert c in w.clients && w.clients[c].Generated? ==> NextIsNew(w, w.clients[c].next);
    }
  }

  /** Updates that leave every hash alone. */
  lemma SameHashesKeep(w: World, t: World)
    requires Valid(w) && t == w.(sessions := t.sessions) && t.sessions.Keys == w.sessions.Keys
    requires forall id :: id in w.sessions ==> t.sessions[id].hash == w.sessions[id].hash
    ensures Valid(t)
  {
    hide Linked;
    forall c | c in t.clients && t.clients[c].Generated? ensures NextIsNew(t, t.clients[c].next) {
      assert NextIsNew(w, w.clients[c].next);
    }
  }

  lemma CompareAndSetKeeps(w: World, client: nat)
    requires Valid(w) && ClientAt(w, client, false)
    ensures Valid(AfterCompareAndSet(w, client))
  {
    hide Chained, Current, Spent;
    var c, t := w.clients[client], AfterCompareAndSet(w, client);
    if CanRotate(w.sessions, w.activeUsers, c.session, c.userId, c.current, c.now) {
      assert NextIsNew(w, c.next);
      var r := Rotation(c.session, c.current, c.next, c.now);
      ChainExtends(w, t, r);
      SpendExtends(w, t, r);
      PendingRotated(w, t, client, r);
    } else {
      ClientEnds(w, client);
    }
  }

  lemma ClientEnds(w: World, client: nat)
    requires Valid(w) && client in w.clients
    ensures Valid(w.(clients := w.clients[client := Failed]))
  {
    hide Linked;
    var t := w.(clients := w.clients[client := Failed]);
    forall d | d in t.clients && t.clients[d].Generated? ensures NextIsNew(t, t.clients[d].next) { assert NextIsNew(w, w.clients[d].next); }
  }

  lemma SpendExtends(w: World, t: World, r: Rotation)
    requires Current(w) && Spent(w) && NextIsNew(w, r.to) && r.session in w.sessions && w.sessions[r.session].hash == r.from
    requires t.rotations == w.rotations + [r] && t.sessions == Rotated(w.sessions, r.session, r.to, r.at) && t.issued == w.issued
    ensures Current(t) && Spent(t)
  {
    forall i | 0 <= i < |t.rotations| ensures t.rotations[i] == if i < |w.rotations| then w.rotations[i] else r { }
  }

  lemma PendingRotated(w: World, t: World, client: nat, r: Rotation)
    requires Valid(w) && ClientAt(w, client, false) && w.clients[client].next == r.to
    requires r.session in w.sessions && w.sessions[r.session].hash == r.from
    requires t.rotations == w.rotations + [r] && t.sessions == Rotated(w.sessions, r.session, r.to, r.at) && t.issued == w.issued
    requires client in t.clients && t.clients == w.clients[client := t.clients[client]] && !t.clients[client].Generated?
    ensures Pending(t)
  {
    hide Chained, Spent, Current;
    forall d | d in t.clients && t.clients[d].Generated? ensures NextIsNew(t, t.clients[d].next) {
      assert d != client && NextIsNew(w, w.clients[d].next);
    }
  }

  lemma ChainExtends(w: World, t: World, r: Rotation)
    requires Chained(w) && r.session in w.sessions && w.sessions[r.session].hash == r.from
    requires t.rotations == w.rotations + [r] && t.first == w.first
    requires t.sessions == Rotated(w.sessions, r.session, r.to, r.at)
    ensures Chained(t)
  {
    assert t.rotations[..|w.rotations|] == w.rotations;
    forall i | 0 <= i < |t.rotations| ensures t.rotations[i].session in t.sessions {
      assert i < |w.rotations| ==> t.rotations[i] == w.rotations[i];
    }
  }

  /** Steps that leave sessions, hashes and rotations alone and bring no call to its second await. */
  lemma PresentKeeps(w: World, e: Event)
    requires Valid(w) && (e.Present? || e.SetUserActive?)
    ensures Valid(Step(w, e))
  {
    hide Linked;
    var t := Step(w, e);
    forall c | c in t.clients && t.clients[c].Generated? ensures NextIsNew(t, t.clients[c].next) { assert NextIsNew(w, w.clients[c].next); }
  }

  lemma StepKeeps(w: World, e: Event)
    requires Valid(w)
    ensures Valid(Step(w, e))
  {
    hide Valid, CanRotate, AfterRead, AfterCompareAndSet;
    match e
    case SignIn(id, _, hash, _, _) => if id !in w.sessions && hash !in w.issued { SignInKeeps(w, e); }
    case Read(_, _, _) => ReadKeeps(w, e);
    case CompareAndSet(client) => if ClientAt(w, client, false) { CompareAndSetKeeps(w, client); }
    case Revoke(_, _, _) => SameHashesKeep(w, Step(w, e));
    case RevokeOthers(_, _, _) => SameHashesKeep(w, Step(w, e));
    case Touch(_, _) => SameHashesKeep(w, Step(w, e));
    case _ => PresentKeeps(w, e);
  }

  ghost function Run(w: World, events: seq<Event>): World
    decreases |events|
  {
    if events == [] then w else Run(Step(w, events[0]), events[1..])
  }

  lemma {:induction false} RunKeeps(w: World, events: seq<Event>)
    requires Valid(w)
    ensures Valid(Run(w, events))
    decreases |events|
  {
    hide Valid, Step;
    if events != [] {
      StepKeeps(w, events[0]);
      RunKeeps(Step(w, events[0]), events[1..]);
    }
  }

  ghost function After(events: seq<Event>): World {
    Run(INITIAL, events)
  }

  /** In every interleaving: no token is rotated twice, in whatever session, and the successful rotations of
      a session form one chain from its first token to its current one. */
  lemma EachTokenRotatesOnce(events: seq<Event>, i: nat, j: nat, id: SessionId)
    ensures var w := After(events);
      && (i < |w.rotations| && j < |w.rotations| && w.rotations[i].from == w.rotations[j].from ==> i == j)
      && (id in w.sessions ==> id in w.first && Linked(w.rotations, id, w.first[id], w.sessions[id].hash))
  {
    hide Run, Linked;
    RunKeeps(INITIAL, events);
  }

  /** The same chain, rotation by rotation. */
  lemma TokensFormAChain(events: seq<Event>, id: SessionId, i: nat, j: nat)
    requires id in After(events).sessions
    ensures var w := After(events); var rs, n := w.rotations, |w.rotations|;
      && id in w.first
      && (NoneOf(rs, id, 0, n) ==> w.first[id] == w.sessions[id].hash)
      && (i < n && rs[i].session == id ==>
           && (NoneOf(rs, id, 0, i) ==> rs[i].from == w.first[id])
           && (i < j < n && rs[j].session == id && NoneOf(rs, id, i + 1, j) ==> rs[j].from == rs[i].to)
           && (NoneOf(rs, id, i + 1, n) ==> rs[i].to == w.sessions[id].hash))
  {
    hide Run, Linked;
    EachTokenRotatesOnce(events, 0, 0, id);
    var w := After(events);
    if NoneOf(w.rotations, id, 0, |w.rotations|) { Untouched(w.rotations, id, w.first[id], w.sessions[id].hash); }
    if i < |w.rotations| && w.rotations[i].session == id { LinkedInOrder(w.rotations, id, w.first[id], w.sessions[id].hash, i, j); }
  }

  /** What one step may do to a session that exists. */
  ghost predicate Advances(before: Session, after: Session) {
    && after.userId == before.userId
    && after.expiresAt == before.expiresAt
    && after.lastUsedAt >= before.lastUsedAt
    && (before.revokedAt.Some? ==> after == before)
  }

  lemma StepAdvances(w: World, e: Event, id: SessionId)
    requires id in w.sessions
    ensures id in Step(w, e).sessions && Advances(w.sessions[id], Step(w, e).sessions[id])
    ensures w.rotations <= Step(w, e).rotations
    ensures |Step(w, e).rotations| <= |w.rotations| + 1
    ensures forall r :: Step(w, e).rotations == w.rotations + [r] && r.session == id ==>
      w.sessions[id].revokedAt.None? && !IsExpired(w.sessions[id].expiresAt, r.at) && w.sessions[id].userId in w.activeUsers
  {
    var t := Step(w, e);
    forall r | t.rotations == w.rotations + [r] && r.session == id
      ensures w.sessions[id].revokedAt.None? && !IsExpired(w.sessions[id].expiresAt, r.at) && w.sessions[id].userId in w.activeUsers
    {
      assert t.rotations[|w.rotations|] == r;
    }
  }

  /** From any state on: expiry never moves, the last use never goes back, the first revocation stands, and
      every later rotation of the session happens before its revocation, before its expiry by the clock of
      the call, and while its user is active. */
  lemma {:induction false} SessionsOnlyAdvance(w: World, events: seq<Event>, id: SessionId)
    requires id in w.sessions
    ensures var t := Run(w, events);
      && id in t.sessions && t.sessions[id].userId == w.sessions[id].userId && t.sessions[id].expiresAt == w.sessions[id].expiresAt
      && t.sessions[id].lastUsedAt >= w.sessions[id].lastUsedAt
      && (w.sessions[id].revokedAt.Some? ==> t.sessions[id] == w.sessions[id])
      && w.rotations <= t.rotations
      && forall i :: |w.rotations| <= i < |t.rotations| && t.rotations[i].session == id ==>
           w.sessions[id].revokedAt.None? && !IsExpired(w.sessions[id].expiresAt, t.rotations[i].at)
    decreases |events|
  {
    if events != [] {
      var next := Step(w, events[0]);
      StepAdvances(w, events[0], id);
      SessionsOnlyAdvance(next, events[1..], id);
      var t := Run(next, events[1..]);
      if |next.rotations| > |w.rotations| {
        var r := next.rotations[|w.rotations|];
        assert next.rotations == w.rotations + [r] && t.rotations[|w.rotations|] == r;
      }
    }
  }
}
