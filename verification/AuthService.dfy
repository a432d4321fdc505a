/** AuthService and JwtGuard as they run alone, over the session and code tables. The random
    tokens and the clock are parameters. */
module AuthService {
  import opened Seqs
  import opened Sessions
  import opened AuthCodes

  /** One row of listMySessions. */
  datatype SessionView = SessionView(id: SessionId, expiresAt: int, isCurrent: bool)

  /** Rows are ids of t, each marked against the session of the request. */
  function Views(t: Table, ids: seq<SessionId>, current: SessionId): (r: seq<SessionView>)
    requires forall id :: id in ids ==> id in t
    ensures |r| == |ids|
    ensures forall i :: 0 <= i < |ids| ==> r[i] == SessionView(ids[i], t[ids[i]].expiresAt, ids[i] == current)
  {
    seq(|ids|, i requires 0 <= i < |ids| => SessionView(ids[i], t[ids[i]].expiresAt, ids[i] == current))
  }

  class Service {
    var sessions: Table
    var nextSession: SessionId
    var codes: Codes
    var nextCode: CodeId
    var active: set<UserId>

    /** Row numbers are not reused, and no two rows hold the same token or code. */
    ghost predicate Valid()
      reads this
    {
      && (forall id :: id in sessions ==> id < nextSession)
      && (forall i, j :: i in sessions && j in sessions && sessions[i].token == sessions[j].token ==> i == j)
      && (forall id :: id in codes ==> id < nextCode)
      && (forall i, j :: i in codes && j in codes && codes[i].hash == codes[j].hash ==> i == j)
    }

    /** The token is in no row: it has just been drawn at random. */
    ghost predicate NewToken(token: Token)
      reads this
    {
      forall id :: id in sessions ==> sessions[id].token != Sha256(token)
    }

    constructor ()
      ensures Valid() && sessions == map[] && codes == map[] && active == {}
    {
      sessions, nextSession, codes, nextCode, active := map[], 0, map[], 0, {};
    }

    method EnforceActiveSessionLimit(u: UserId, now: int)
      requires Valid()
      modifies this`sessions
      ensures Valid() && sessions == Enforce(old(sessions), u, now)
      ensures forall id :: id in sessions <==> Survives(old(sessions), u, now, id)
      ensures forall id :: id in sessions ==> sessions[id] == old(sessions)[id]
    {
      EnforceExact(sessions, u, now);
      hide Descending, Survives;
      sessions := DeleteExpired(sessions, u, now);
      var found := FindByUser(sessions, u);
      if |found| <= MAX_ACTIVE_SESSIONS { return; }
      sessions := sessions - Stale(found);
    }

    method IssueTokens(u: UserId, refreshToken: Token, now: int) returns (id: SessionId)
      requires Valid() && NewToken(refreshToken)
      modifies this`sessions, this`nextSession
      ensures Valid() && id == old(nextSession) && nextSession == id + 1
      ensures sessions == Enforce(old(sessions)[id := Session(u, Sha256(refreshToken), now + SESSION_TTL_MS)], u, now)
      ensures id in sessions && |OfUser(sessions, u)| <= 3
    {
      id := nextSession;
      sessions := sessions[id := Session(u, Sha256(refreshToken), now + SESSION_TTL_MS)];
      nextSession := nextSession + 1;
      EnforceKeepsNewest(sessions, u, now, id);
      EnforceActiveSessionLimit(u, now);
    }

    /** The session whose tokens were rotated, if the token was accepted: the one unexpired session of an active
        user that holds it. */
    method Refresh(token: Token, renewed: Token, now: int) returns (r: Option<SessionId>)
      requires Valid() && NewToken(renewed)
      modifies this`sessions
      ensures Valid() && sessions == RefreshTable(old(sessions), active, now, token, renewed)
      ensures forall id :: r == Some(id) <==> id in old(sessions) && Refreshable(old(sessions)[id], active, now, token)
      ensures r.Some? ==> sessions == old(sessions)[r.value := old(sessions)[r.value].(token := Sha256(renewed))]
    {
      var found := FindByToken(sessions, Sha256(token));
      if found.None? { return None; }
      var id := found.value;
      if sessions[id].expiresAt < now {
        sessions := sessions - {id};
        return None;
      }
      if sessions[id].userId !in active { return None; }
      sessions := sessions[id := sessions[id].(token := Sha256(renewed))];
      return Some(id);
    }

    method Logout(id: SessionId)
      requires Valid()
      modifies this`sessions
      ensures Valid() && sessions == old(sessions) - {id}
    {
      sessions := sessions - {id};
    }

    /** Whether a row was removed, and whether it was the caller's own session. */
    method RemoveMySession(u: UserId, id: SessionId, current: SessionId) returns (removed: bool, removedCurrent: bool)
      requires Valid()
      modifies this`sessions
      ensures Valid() && removed == (id in OfUser(old(sessions), u)) && removedCurrent == (removed && id == current)
      ensures sessions == if removed then old(sessions) - {id} else old(sessions)
    {
      if id !in sessions || sessions[id].userId != u { return false, false; }
      sessions := map x | x in sessions && !(x == id && sessions[x].userId == u) :: sessions[x];
      return true, id == current;
    }

    method ListMySessions(u: UserId, current: SessionId, now: int) returns (r: seq<SessionView>)
      requires Valid()
      modifies this`sessions
      ensures Valid() && sessions == Enforce(old(sessions), u, now)
      ensures r == Views(sessions, FindByUser(sessions, u), current)
    {
      EnforceActiveSessionLimit(u, now);
      var found := FindByUser(sessions, u);
      r := Views(sessions, found, current);
    }

    /** JwtGuard.canActivate, the access token being verified: an expired row is removed. */
    method CanActivate(u: UserId, id: SessionId, now: int) returns (admitted: bool)
      requires Valid()
      modifies this`sessions
      ensures Valid()
      ensures admitted == (id in OfUser(old(sessions), u) && old(sessions)[id].expiresAt >= now && u in active)
      ensures sessions == if id in OfUser(old(sessions), u) && old(sessions)[id].expiresAt < now
                          then old(sessions) - {id} else old(sessions)
    {
      if id !in sessions || sessions[id].userId != u { return false; }
      if sessions[id].expiresAt < now {
        sessions := sessions - {id};
        return false;
      }
      if u !in active { return false; }
      return true;
    }

    method IssueGoogleAuthCode(u: UserId, code: Token, now: int)
      requires Valid() && forall id :: id in codes ==> codes[id].hash != Sha256(code)
      modifies this`codes, this`nextCode
      ensures Valid()
      ensures codes == DropExpired(old(codes), now)[old(nextCode) := Code(Sha256(code), u,
          now + 60 * 1000, None)]
    {
      codes := DropExpired(codes, now);
      codes := codes[nextCode := Code(Sha256(code), u, now + GOOGLE_AUTH_CODE_TTL_MS, None)];
      nextCode := nextCode + 1;
    }

    /** Succeeds exactly on a stored, unused, unexpired code, which it uses up. */
    method ExchangeGoogleAuthCode(code: Token, refreshToken: Token, now: int) returns (r: Option<SessionId>)
      requires Valid() && NewToken(refreshToken)
      modifies this
      ensures Valid()
      ensures r.Some? <==>
                exists id :: && id in old(codes) && old(codes)[id].hash == Sha256(code)
                             && old(codes)[id].usedAt.None? && now <= old(codes)[id].expiresAt
      ensures forall id :: id in codes && codes[id].hash == Sha256(code) && r.Some? ==> !Usable(codes[id], now)
      ensures var found := FindCode(old(codes), Sha256(code));
              var ok := found.Some? && Usable(old(codes)[found.value], now);
              && codes == (if ok then old(codes)[found.value := old(codes)[found.value].(usedAt := Some(now))]
                           else old(codes))
              && (r.Some? <==> ok) && active == old(active)
              && sessions == (if ok then Enforce(old(sessions)[old(nextSession) :=
                                Session(old(codes)[found.value].userId, Sha256(refreshToken), now + SESSION_TTL_MS)],
                                old(codes)[found.value].userId, now) else old(sessions))
    {
      hide FindCode, Enforce;
      var pending := FindCode(codes, Sha256(code));
      if pending.None? { return None; }
      var id := pending.value;
      var row := codes[id];
      if row.usedAt.Some? || row.expiresAt < now { return None; }
      var affected := if Claims(codes, id) then 1 else 0;
      codes := MarkUsed(codes, id, now);
      if affected != 1 { return None; }
      var session := IssueTokens(row.userId, refreshToken, now);
      return Some(session);
    }
  }

  predicate Refreshable(row: Session, active: set<UserId>, now: int, token: Token)
  {
    row.token == Sha256(token) && row.expiresAt >= now && row.userId in active
  }

  /** The newest session of a user survives enforcement, with at most two others. */
  lemma EnforceKeepsNewest(t: Table, u: UserId, now: int, id: SessionId)
    requires id in t && t[id].userId == u && t[id].expiresAt >= now
    requires forall x :: x in t ==> x <= id
    ensures id in Enforce(t, u, now) && |OfUser(Enforce(t, u, now), u)| <= MAX_ACTIVE_SESSIONS
  {
    hide Descending;
    var purged := DeleteExpired(t, u, now);
    var found := FindByUser(purged, u);
    var left := OfUser(Enforce(t, u, now), u);
    assert id in found && found[0] in found;
    var k :| 0 <= k < |found| && found[k] == id;
    assert k == 0;
    if |found| > MAX_ACTIVE_SESSIONS {
      assert forall j :: 3 <= j < |found| ==> found[3..][j - 3] == found[j];
      forall x | x in left ensures x in {found[0], found[1], found[2]} {
        assert x in found;
        var j :| 0 <= j < |found| && found[j] == x;
      }
      assert id !in Stale(found) by {
        forall j | 3 <= j < |found| ensures found[j] != id {}
      }
      var top := {found[0], found[1], found[2]};
      assert top == left + (top - left);
    } else {
      assert left == OfUser(purged, u);
    }
  }
}
