/** The session table: the statements AuthService and JwtGuard issue against it, the service
    methods as sequences of statements, and what every interleaving of statements keeps.
    Session rows are numbered in the order they are inserted, which is the order of created_at. */
module Sessions {
  import opened Seqs

  type UserId = nat
  type SessionId = nat
  type Token = nat

  /** SHA-256 of a refresh token or code, taken as injective. */
  datatype Digest = Sha256(token: Token)

  datatype Session = Session(userId: UserId, token: Digest, expiresAt: int)
  type Table = map<SessionId, Session>

  const SESSION_TTL_MS: int := 7 * 24 * 60 * 60 * 1000
  const MAX_ACTIVE_SESSIONS: nat := 3

  // ----- statements -----

  function OfUser(t: Table, u: UserId): set<SessionId> { set id | id in t && t[id].userId == u }

  function Newer(ids: set<SessionId>, id: SessionId): set<SessionId> { set x | x in ids && x > id }

  /** The user's sessions that have not expired. */
  function Running(t: Table, u: UserId, now: int): set<SessionId>
  {
    set id | id in t && t[id].userId == u && t[id].expiresAt >= now
  }

  /** delete({ userId, expiresAt: LessThan(now) }) */
  function DeleteExpired(t: Table, u: UserId, now: int): Table
  {
    map id | id in t && !(t[id].userId == u && t[id].expiresAt < now) :: t[id]
  }

  /** find({ userId }, order createdAt DESC) */
  function FindByUser(t: Table, u: UserId): seq<SessionId> { Descending(OfUser(t, u)) }

  /** slice(MAX_ACTIVE_SESSIONS), empty when there are not that many. */
  function Stale(found: seq<SessionId>): set<SessionId>
  {
    if |found| <= MAX_ACTIVE_SESSIONS then {} else set x | x in found[MAX_ACTIVE_SESSIONS..]
  }

  /** enforceActiveSessionLimit run without interruption. */
  function Enforce(t: Table, u: UserId, now: int): Table
  {
    var purged := DeleteExpired(t, u, now);
    purged - Stale(FindByUser(purged, u))
  }

  function Itself(id: SessionId): SessionId { id }

  lemma NewerAreBefore(ids: set<SessionId>, sorted: seq<SessionId>, k: nat)
    requires k < |sorted| && (forall x :: x in ids <==> x in sorted)
    requires forall i, j :: 0 <= i < j < |sorted| ==> sorted[i] > sorted[j]
    ensures Newer(ids, sorted[k]) == KeySet(sorted[..k], Itself)
  {
    forall x | x in Newer(ids, sorted[k]) ensures x in sorted[..k] {
      var i :| 0 <= i < |sorted| && sorted[i] == x;
      assert i < k && sorted[..k][i] == x;
    }
    forall i | 0 <= i < k ensures sorted[i] in Newer(ids, sorted[k]) { assert sorted[i] in sorted; }
  }

  /** The k-th newest has exactly k newer ones. */
  lemma Rank(ids: set<SessionId>, k: nat)
    requires k < |Descending(ids)|
    ensures |Newer(ids, Descending(ids)[k])| == k
  {
    hide Descending, Newer;
    NewerAreBefore(ids, Descending(ids), k);
    KeySetSize(Descending(ids)[..k], Itself);
  }

  ghost predicate Survives(t: Table, u: UserId, now: int, id: SessionId)
  {
    id in t && (t[id].userId != u || (t[id].expiresAt >= now && |Newer(Running(t, u, now), id)| < MAX_ACTIVE_SESSIONS))
  }

  /** A row survives enforcement exactly when it is somebody else's, or unexpired with fewer than three newer
      unexpired ones of its user; and it survives unchanged. */
  lemma EnforceExact(t: Table, u: UserId, now: int)
    ensures forall id :: id in Enforce(t, u, now) <==> Survives(t, u, now, id)
    ensures forall id :: id in Enforce(t, u, now) ==> Enforce(t, u, now)[id] == t[id]
  {
    var purged := DeleteExpired(t, u, now);
    var found := FindByUser(purged, u);
    assert OfUser(purged, u) == Running(t, u, now);
    forall id | id in t && t[id].userId == u && t[id].expiresAt >= now
      ensures id in Stale(found) <==> |Newer(Running(t, u, now), id)| >= MAX_ACTIVE_SESSIONS
    {
      StaleByRank(Running(t, u, now), id);
    }
    hide Descending, Newer, Stale;
    forall id | id in Stale(found) ensures id in OfUser(purged, u) { StaleFound(OfUser(purged, u), id); }
  }

  lemma StaleFound(ids: set<SessionId>, id: SessionId)
    requires id in Stale(Descending(ids))
    ensures id in ids
  {
    assert id in Descending(ids);
  }

  lemma StaleByRank(ids: set<SessionId>, id: SessionId)
    requires id in ids
    ensures id in Stale(Descending(ids)) <==> |Newer(ids, id)| >= MAX_ACTIVE_SESSIONS
  {
    var found := Descending(ids);
    hide Descending, Newer;
    assert id in found;
    var k :| 0 <= k < |found| && found[k] == id;
    Rank(ids, k);
    if k >= MAX_ACTIVE_SESSIONS { assert found[MAX_ACTIVE_SESSIONS..][k - MAX_ACTIVE_SESSIONS] == id; }
    if id in Stale(found) {
      var j :| 0 <= j < |found[MAX_ACTIVE_SESSIONS..]| && found[MAX_ACTIVE_SESSIONS..][j] == id;
      assert found[j + MAX_ACTIVE_SESSIONS] == id;
    }
  }

  /** findOne({ token }) */
  function FindByToken(t: Table, d: Digest): (r: Option<SessionId>)
    ensures r.Some? ==> r.value in t && t[r.value].token == d
    ensures r.None? <==> forall id :: id in t ==> t[id].token != d
  {
    var ids := set id | id in t && t[id].token == d;
    if id :| id in t && t[id].token == d then assert id in ids; Some(MaxOf(ids)) else None
  }

  /** refresh(token): drop an expired row, leave an inactive user's row alone, else store the new token. */
  function RefreshTable(t: Table, active: set<UserId>, now: int, token: Token, renewed: Token): Table
  {
    match FindByToken(t, Sha256(token))
    case None => t
    case Some(id) =>
      if t[id].expiresAt < now then t - {id}
      else if t[id].userId !in active then t
      else t[id := t[id].(token := Sha256(renewed))]
  }
}
