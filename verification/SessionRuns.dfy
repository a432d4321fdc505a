/** Logins, session listings, refreshes, guarded requests, logouts and the passing of time,
    interleaved statement by statement over one session table. A refresh reads its row and saves it
    later; a row deleted in between is inserted again with the columns that were read. */
module SessionRuns {
  import opened Seqs
  import opened Sessions

  type CallId = nat

  /** Where a call to enforceActiveSessionLimit stands. `at` is the number the next inserted row
      would have had when the snapshot was read. */
  datatype Phase = Saved | Purged | Found(snapshot: seq<SessionId>, at: SessionId)

  /** A login owns the session it inserted; a listing owns none. */
  datatype Call = Call(user: UserId, own: Option<SessionId>, phase: Phase)

  /** What an accepted refresh read. */
  datatype Reading = Reading(id: SessionId, row: Session)

  datatype Birth = Birth(user: UserId, issuedAt: int)

  /** `revived` holds the rows now in the table that a refresh inserted again, and `rotations` counts the
      token pairs issued for each refresh token presented. */
  datatype State = State(
    table: Table, calls: map<CallId, Call>, refreshes: map<CallId, Reading>, active: set<UserId>, now: int,
    nextId: SessionId, born: map<SessionId, Birth>, usedTokens: set<Token>,
    revived: set<SessionId>, rotations: multiset<Token>)

  datatype Step =
    | Save(call: CallId, user: UserId, token: Token)
    | List(call: CallId, user: UserId)
    | Purge(call: CallId)
    | Find(call: CallId)
    | Trim(call: CallId)
    | RefreshRead(call: CallId, token: Token)
    | RefreshSave(call: CallId, renewed: Token)
    | Guard(user: UserId, session: SessionId)
    | Logout(session: SessionId)
    | RemoveMine(user: UserId, session: SessionId)
    | SetActive(user: UserId, on: bool)
    | Tick(elapsed: nat)

  predicate Enabled(s: State, step: Step)
  {
    match step
    case Save(c, _, token) => c !in s.calls && token !in s.usedTokens
    case List(c, _) => c !in s.calls
    case Purge(c) => c in s.calls && s.calls[c].phase == Saved
    case Find(c) => c in s.calls && s.calls[c].phase == Purged
    case Trim(c) => c in s.calls && s.calls[c].phase.Found?
    case RefreshRead(c, _) => c !in s.refreshes
    case RefreshSave(c, renewed) => c in s.refreshes && renewed !in s.usedTokens
    case _ => true
  }

  /** canActivate's decision once the access token is verified. */
  predicate Admits(s: State, u: UserId, id: SessionId)
  {
    id in s.table && s.table[id].userId == u && s.table[id].expiresAt >= s.now && u in s.active
  }

  /** refresh's decision when it reads. */
  predicate Accepts(s: State, token: Token)
  {
    var found := FindByToken(s.table, Sha256(token));
    found.Some? && s.table[found.value].expiresAt >= s.now && s.table[found.value].userId in s.active
  }

  /** An expired row is removed; an accepted one is kept for the save. */
  function Read(s: State, c: CallId, token: Token): State
  {
    match FindByToken(s.table, Sha256(token))
    case None => s
    case Some(id) =>
      if s.table[id].expiresAt < s.now then s.(table := s.table - {id})
      else if s.table[id].userId !in s.active then s
      else s.(refreshes := s.refreshes[c := Reading(id, s.table[id])])
  }

  /** save(session): an update of the row, or its insertion when it is gone. */
  function SaveRead(s: State, c: CallId, renewed: Token): State
    requires c in s.refreshes
  {
    var r := s.refreshes[c];
    s.(table := s.table[r.id := r.row.(token := Sha256(renewed))], refreshes := s.refreshes - {c},
       usedTokens := s.usedTokens + {renewed}, rotations := s.rotations + multiset{r.row.token.token})
  }

  function Effect(s: State, step: Step): State
    requires Enabled(s, step)
  {
    match step
    case Save(c, u, token) =>
      s.(table := s.table[s.nextId := Session(u, Sha256(token), s.now + SESSION_TTL_MS)],
         calls := s.calls[c := Call(u, Some(s.nextId), Saved)],
         nextId := s.nextId + 1, born := s.born[s.nextId := Birth(u, s.now)], usedTokens := s.usedTokens + {token})
    case List(c, u) => s.(calls := s.calls[c := Call(u, None, Saved)])
    case Purge(c) =>
      s.(table := DeleteExpired(s.table, s.calls[c].user, s.now), calls := s.calls[c := s.calls[c].(phase := Purged)])
    case Find(c) =>
      var found := FindByUser(s.table, s.calls[c].user);
      if |found| <= MAX_ACTIVE_SESSIONS then s.(calls := s.calls - {c})
      else s.(calls := s.calls[c := s.calls[c].(phase := Found(found, s.nextId))])
    case Trim(c) => s.(table := s.table - Stale(s.calls[c].phase.snapshot), calls := s.calls - {c})
    case RefreshRead(c, token) => Read(s, c, token)
    case RefreshSave(c, renewed) => SaveRead(s, c, renewed)
    case Guard(u, id) =>
      if id in s.table && s.table[id].userId == u && s.table[id].expiresAt < s.now then s.(table := s.table - {id})
      else s
    case Logout(id) => s.(table := s.table - {id})
    case RemoveMine(u, id) => if id in s.table && s.table[id].userId == u then s.(table := s.table - {id}) else s
    case SetActive(u, on) => s.(active := if on then s.active + {u} else s.active - {u})
    case Tick(elapsed) => s.(now := s.now + elapsed)
  }

  /** The step inserts a deleted row again. */
  predicate Revives(s: State, step: Step)
    requires Enabled(s, step)
  {
    step.RefreshSave? && s.refreshes[step.call].id !in s.table
  }

  function Next(s: State, step: Step): State
    requires Enabled(s, step)
  {
    var e := Effect(s, step);
    e.(revived := (if Revives(s, step) then s.revived + {s.refreshes[step.call].id} else s.revived) * e.table.Keys)
  }

  /** All steps of a run are enabled in turn. */
  predicate Runs(s: State, steps: seq<Step>)
    decreases |steps|
  {
    steps == [] || (Enabled(s, steps[0]) && Runs(Next(s, steps[0]), steps[1..]))
  }

  function After(s: State, steps: seq<Step>): State
    requires Runs(s, steps)
    decreases |steps|
  {
    if steps == [] then s else After(Next(s, steps[0]), steps[1..])
  }

  /** No call under way, and at most three sessions per user, issued with the standard lifetime
      under distinct tokens. */
  ghost predicate Initial(s: State)
  {
    && s.calls == map[] && s.refreshes == map[] && s.revived == {} && WellFormed(s)
    && forall u :: |OfUser(s.table, u)| <= MAX_ACTIVE_SESSIONS
  }

  ghost predicate WellFormed(s: State)
  {
    RowsFormed(s) && ReadingsFormed(s)
  }

  ghost predicate RowsFormed(s: State)
  {
    && s.table.Keys <= s.born.Keys
    && (forall id :: id in s.born ==> id < s.nextId)
    && (forall id :: id in s.table ==>
          s.table[id].userId == s.born[id].user && s.table[id].expiresAt == s.born[id].issuedAt + SESSION_TTL_MS)
    && (forall id :: id in s.table ==> s.table[id].token.token in s.usedTokens)
    && (forall i, j :: i in s.table && j in s.table && i != j ==> s.table[i].token != s.table[j].token)
    && s.revived <= s.table.Keys
  }

  ghost predicate ReadingsFormed(s: State)
  {
    && (forall c :: c in s.refreshes ==> ReadingSound(s, s.refreshes[c]))
    && (forall t :: t in s.rotations ==> Dead(s, t))
  }

  /** What was read was a session's row, and its token is in no other row. */
  ghost predicate ReadingSound(s: State, r: Reading)
  {
    && r.id in s.born && r.row.userId == s.born[r.id].user && r.row.expiresAt == s.born[r.id].issuedAt + SESSION_TTL_MS
    && r.row.token.token in s.usedTokens && (forall j :: j in s.table && s.table[j].token == r.row.token ==> j == r.id)
  }

  /** A token that was issued and is stored in no row. */
  ghost predicate Dead(s: State, token: Token)
  {
    token in s.usedTokens && forall id :: id in s.table ==> s.table[id].token != Sha256(token)
  }

  lemma StepWellFormed(s: State, step: Step)
    requires WellFormed(s) && Enabled(s, step)
    ensures WellFormed(Next(s, step))
  {
    hide WellFormed, FindByUser, Stale, FindByToken, Read, SaveRead;
    match step
    case Save(_, _, _) => SaveWellFormed(s, step);
    case RefreshRead(c, token) => ReadWellFormed(s, c, token);
    case RefreshSave(_, _) => RefreshWellFormed(s, step);
    case _ => ShrinkWellFormed(s, Next(s, step));
  }

  /** Rows go, and nothing else that matters here changes. */
  ghost predicate Shrinks(s: State, s': State)
  {
    && (forall id :: id in s'.table ==> id in s.table && s'.table[id] == s.table[id])
    && s'.refreshes == s.refreshes && s'.nextId == s.nextId && s'.born == s.born && s'.usedTokens == s.usedTokens
    && s'.rotations == s.rotations && s'.revived <= s'.table.Keys
  }

  lemma ShrinkWellFormed(s: State, s': State)
    requires WellFormed(s) && Shrinks(s, s')
    ensures WellFormed(s')
  {
    forall c | c in s'.refreshes ensures ReadingSound(s', s'.refreshes[c]) { assert ReadingSound(s, s.refreshes[c]); }
    forall t | t in s'.rotations ensures Dead(s', t) { assert Dead(s, t); }
  }

  lemma SaveWellFormed(s: State, step: Step)
    requires WellFormed(s) && step.Save? && Enabled(s, step)
    ensures WellFormed(Next(s, step))
  {
    var s' := Next(s, step);
    forall c | c in s'.refreshes ensures ReadingSound(s', s'.refreshes[c]) { assert ReadingSound(s, s.refreshes[c]); }
    forall t | t in s'.rotations ensures Dead(s', t) { assert Dead(s, t); }
  }

  lemma ReadWellFormed(s: State, c: CallId, token: Token)
    requires WellFormed(s) && Enabled(s, RefreshRead(c, token))
    ensures WellFormed(Next(s, RefreshRead(c, token)))
  {
    hide FindByToken;
    var s', found := Next(s, RefreshRead(c, token)), FindByToken(s.table, Sha256(token));
    var s1 := s'.(refreshes := s.refreshes);
    ShrinkWellFormed(s, s1);
    if s' != s1 {
      assert ReadingSound(s', Reading(found.value, s.table[found.value]));
      OneReadingMore(s1, c, Reading(found.value, s.table[found.value]));
    }
  }

  lemma OneReadingMore(s: State, c: CallId, r: Reading)
    requires WellFormed(s) && ReadingSound(s, r)
    ensures WellFormed(s.(refreshes := s.refreshes[c := r]))
  {
    var s' := s.(refreshes := s.refreshes[c := r]);
    forall d | d in s'.refreshes ensures ReadingSound(s', s'.refreshes[d]) {
      if d != c { assert ReadingSound(s, s.refreshes[d]); }
    }
    forall t | t in s'.rotations ensures Dead(s', t) { assert Dead(s, t); }
  }

  lemma RefreshWellFormed(s: State, step: Step)
    requires WellFormed(s) && step.RefreshSave? && Enabled(s, step)
    ensures WellFormed(Next(s, step))
  {
    var s' := Next(s, step);
    var r := s.refreshes[step.call];
    assert ReadingSound(s, r);
    forall c | c in s'.refreshes ensures ReadingSound(s', s'.refreshes[c]) { assert ReadingSound(s, s.refreshes[c]); }
    forall t | t in s'.rotations ensures Dead(s', t) { assert t in s.rotations || t == r.row.token.token; }
  }

  lemma {:induction false} RunWellFormed(s: State, steps: seq<Step>)
    requires WellFormed(s) && Runs(s, steps)
    ensures WellFormed(After(s, steps))
    decreases |steps|
  {
    if steps != [] {
      StepWellFormed(s, steps[0]);
      RunWellFormed(Next(s, steps[0]), steps[1..]);
    }
  }

  // ----- at most three sessions, plus the logins in flight -----

  function InFlight(s: State, u: UserId): set<CallId>
  {
    set c | c in s.calls && s.calls[c].user == u && s.calls[c].own.Some?
  }

  ghost predicate Owned(s: State, u: UserId, id: SessionId)
  {
    exists c :: c in InFlight(s, u) && s.calls[c].own == Some(id)
  }

  /** What a completed enforcement leaves: at most `kept`, rows inserted since `mark`, whose logins are
      all still in flight, and revived ones. */
  ghost predicate Settled(s: State, u: UserId, kept: set<SessionId>, mark: SessionId)
  {
    && |kept| <= MAX_ACTIVE_SESSIONS && mark <= s.nextId && (forall id :: id in kept ==> id < mark)
    && (forall id :: id in OfUser(s.table, u) ==> id in kept || (mark <= id && Owned(s, u, id)) || id in s.revived)
  }

  ghost predicate SnapshotsHold(s: State, u: UserId)
  {
    forall c :: c in s.calls && s.calls[c].user == u ==> SnapshotHolds(s, u, s.calls[c])
  }

  ghost predicate SnapshotHolds(s: State, u: UserId, call: Call)
  {
    && (call.own.Some? ==> call.own.value < s.nextId)
    && (call.phase.Found? ==>
          && MAX_ACTIVE_SESSIONS < |call.phase.snapshot| && call.phase.at <= s.nextId
          && (forall id :: id in call.phase.snapshot ==> id < call.phase.at)
          && (call.own.Some? ==> call.own.value < call.phase.at)
          && forall id :: id in OfUser(s.table, u) ==>
               id in call.phase.snapshot || call.phase.at <= id || id in s.revived)
  }

  ghost predicate Bounded(s: State, u: UserId)
  {
    SnapshotsHold(s, u) && exists kept: set<SessionId>, mark: SessionId :: Settled(s, u, kept, mark)
  }

  function Owns(cs: set<CallId>, calls: map<CallId, Call>): set<Option<SessionId>>
    requires cs <= calls.Keys
  {
    set c | c in cs :: calls[c].own
  }

  lemma {:induction false} OwnsSize(cs: set<CallId>, calls: map<CallId, Call>)
    requires cs <= calls.Keys
    ensures |Owns(cs, calls)| <= |cs|
  {
    if cs != {} {
      var c :| c in cs;
      OwnsSize(cs - {c}, calls);
      assert Owns(cs, calls) == Owns(cs - {c}, calls) + {calls[c].own};
    }
  }

  function Somes(ids: set<SessionId>): set<Option<SessionId>> { set id | id in ids :: Some(id) }

  lemma {:induction false} SomesSize(ids: set<SessionId>)
    ensures |Somes(ids)| == |ids|
  {
    if ids != {} {
      var id :| id in ids;
      SomesSize(ids - {id});
      assert Somes(ids) == Somes(ids - {id}) + {Some(id)};
      assert Some(id) !in Somes(ids - {id});
    }
  }

  lemma BoundFollows(s: State, u: UserId)
    requires Bounded(s, u)
    ensures |OfUser(s.table, u) - s.revived| <= MAX_ACTIVE_SESSIONS + |InFlight(s, u)|
  {
    var kept: set<SessionId>, mark: SessionId :| Settled(s, u, kept, mark);
    var rows, cs := OfUser(s.table, u) - s.revived, InFlight(s, u);
    var recent := set id | id in rows && Owned(s, u, id);
    OwnsSize(cs, s.calls);
    SomesSize(recent);
    forall o | o in Somes(recent) ensures o in Owns(cs, s.calls) {
      var c :| c in cs && s.calls[c].own == o;
    }
    SubsetSize(Somes(recent), Owns(cs, s.calls));
    SubsetSize(rows, kept + recent);
    assert |kept + recent| == |kept| + |recent| - |kept * recent|;
  }

  // ----- each step keeps the bound -----

  ghost predicate OthersSame(s: State, s': State, u: UserId)
  {
    && OfUser(s'.table, u) <= OfUser(s.table, u) + s'.revived
    && s.revived * s'.table.Keys <= s'.revived
    && s'.calls == s.calls && s'.nextId == s.nextId
  }

  lemma ShrinkBounded(s: State, s': State, u: UserId)
    requires Bounded(s, u) && OthersSame(s, s', u)
    ensures Bounded(s', u)
  {
    var kept: set<SessionId>, mark: SessionId :| Settled(s, u, kept, mark);
    assert InFlight(s', u) == InFlight(s, u);
    assert forall id :: Owned(s', u, id) == Owned(s, u, id);
    assert Settled(s', u, kept, mark);
  }

  lemma SaveBounded(s: State, step: Step, u: UserId)
    requires RowsFormed(s) && Bounded(s, u) && (step.Save? || step.List?) && Enabled(s, step)
    ensures Bounded(Next(s, step), u)
  {
    var s' := Next(s, step);
    var kept: set<SessionId>, mark: SessionId :| Settled(s, u, kept, mark);
    forall id | id in OfUser(s'.table, u) ensures id in kept || (mark <= id && Owned(s', u, id)) || id in s'.revived {
      if id in s.table {
        assert id in OfUser(s.table, u);
        if id !in kept && id !in s.revived {
          var c :| c in InFlight(s, u) && s.calls[c].own == Some(id);
          assert c in InFlight(s', u);
        }
      } else {
        assert step.call in InFlight(s', u) && s'.calls[step.call].own == Some(id);
      }
    }
    assert Settled(s', u, kept, mark);
    forall c | c in s'.calls && s'.calls[c].user == u ensures SnapshotHolds(s', u, s'.calls[c]) {
      if c in s.calls {
        assert SnapshotHolds(s, u, s.calls[c]);
      }
    }
  }

  lemma PurgeBounded(s: State, c: CallId, u: UserId)
    requires RowsFormed(s) && Bounded(s, u) && Enabled(s, Purge(c))
    ensures Bounded(Next(s, Purge(c)), u)
  {
    var s' := Next(s, Purge(c));
    var kept: set<SessionId>, mark: SessionId :| Settled(s, u, kept, mark);
    assert InFlight(s', u) == InFlight(s, u);
    assert forall id :: Owned(s, u, id) ==> Owned(s', u, id);
    assert Settled(s', u, kept, mark);
    forall d | d in s'.calls && s'.calls[d].user == u ensures SnapshotHolds(s', u, s'.calls[d]) {
      assert SnapshotHolds(s, u, s.calls[d]);
    }
  }

  lemma FindLeaves(s: State, c: CallId)
    requires RowsFormed(s) && Enabled(s, Find(c))
    ensures var s' := Next(s, Find(c));
            && s'.table == s.table && s'.nextId == s.nextId && s'.revived == s.revived
            && (c !in s'.calls ==>
                  s'.calls == s.calls - {c} && |OfUser(s.table, s.calls[c].user)| <= MAX_ACTIVE_SESSIONS)
            && (c in s'.calls ==>
                  var found := FindByUser(s.table, s.calls[c].user);
                  && s'.calls == s.calls[c := s.calls[c].(phase := Found(found, s.nextId))]
                  && |found| > MAX_ACTIVE_SESSIONS
                  && forall id :: id in found <==> id in OfUser(s.table, s.calls[c].user))
  {
    hide Descending;
  }

  /** A listing of at most three rows ends the call; they are all there is. */
  lemma ShortFindBounded(s: State, c: CallId, u: UserId)
    requires RowsFormed(s) && Bounded(s, u) && Enabled(s, Find(c)) && c !in Next(s, Find(c)).calls
    ensures exists kept: set<SessionId>, mark: SessionId :: Settled(Next(s, Find(c)), u, kept, mark)
  {
    hide Next, Descending, Stale;
    FindLeaves(s, c);
    if s.calls[c].user == u {
      assert Settled(Next(s, Find(c)), u, OfUser(s.table, u), s.nextId);
    } else {
      var kept: set<SessionId>, mark: SessionId :| Settled(s, u, kept, mark);
      OtherCallEnds(s, Next(s, Find(c)), c, u, kept, mark);
    }
  }

  lemma OtherCallEnds(s: State, s': State, c: CallId, u: UserId, kept: set<SessionId>, mark: SessionId)
    requires Settled(s, u, kept, mark) && c in s.calls && s.calls[c].user != u && s'.calls == s.calls - {c}
    requires s'.table == s.table && s'.nextId == s.nextId && s'.revived == s.revived
    ensures Settled(s', u, kept, mark)
  {
    assert InFlight(s', u) == InFlight(s, u);
    assert forall id :: Owned(s, u, id) ==> Owned(s', u, id);
  }

  lemma LongFindBounded(s: State, c: CallId, u: UserId)
    requires RowsFormed(s) && Bounded(s, u) && Enabled(s, Find(c)) && c in Next(s, Find(c)).calls
    ensures exists kept: set<SessionId>, mark: SessionId :: Settled(Next(s, Find(c)), u, kept, mark)
  {
    FindLeaves(s, c);
    hide FindByUser, Next;
    var s' := Next(s, Find(c));
    var kept: set<SessionId>, mark: SessionId :| Settled(s, u, kept, mark);
    assert InFlight(s', u) == InFlight(s, u);
    OwnersStay(s, s', u);
    assert Settled(s', u, kept, mark);
  }

  lemma OwnersStay(s: State, s': State, u: UserId)
    requires InFlight(s', u) == InFlight(s, u) && forall c :: c in InFlight(s, u) ==> s'.calls[c].own == s.calls[c].own
    ensures forall id :: Owned(s, u, id) ==> Owned(s', u, id)
  {
  }

  lemma FindSnapshots(s: State, s': State, c: CallId, u: UserId)
    requires SnapshotsHold(s, u) && c in s.calls && s'.table == s.table && s'.nextId == s.nextId
    requires s'.revived == s.revived
    requires s'.calls.Keys <= s.calls.Keys && forall d :: d in s'.calls && d != c ==> s'.calls[d] == s.calls[d]
    requires c in s'.calls && s.calls[c].user == u ==> SnapshotHolds(s', u, s'.calls[c])
    requires c in s'.calls ==> s'.calls[c].user == s.calls[c].user
    ensures SnapshotsHold(s', u)
  {
    forall d | d in s'.calls && s'.calls[d].user == u ensures SnapshotHolds(s', u, s'.calls[d]) {
      if d != c { assert SnapshotHolds(s, u, s.calls[d]); }
    }
  }

  /** A snapshot just read holds every row of its user. */
  lemma NewSnapshotHolds(s: State, call: Call, found: seq<SessionId>, u: UserId)
    requires SnapshotHolds(s, u, call) && RowsFormed(s) && |found| > MAX_ACTIVE_SESSIONS
    requires forall id :: id in found <==> id in OfUser(s.table, u)
    ensures SnapshotHolds(s, u, call.(phase := Found(found, s.nextId)))
  {
  }

  lemma FindBounded(s: State, c: CallId, u: UserId)
    requires RowsFormed(s) && Bounded(s, u) && Enabled(s, Find(c))
    ensures Bounded(Next(s, Find(c)), u)
  {
    FindLeaves(s, c);
    hide Settled, FindByUser, Next, SnapshotHolds, RowsFormed;
    var s' := Next(s, Find(c));
    if c in s'.calls {
      LongFindBounded(s, c, u);
      if s.calls[c].user == u {
        NewSnapshotHolds(s, s.calls[c], FindByUser(s.table, u), u);
        SnapshotSame(s, s', u, s'.calls[c]);
      }
    } else {
      ShortFindBounded(s, c, u);
    }
    FindSnapshots(s, s', c, u);
  }

  lemma SnapshotSame(s: State, s': State, u: UserId, call: Call)
    requires SnapshotHolds(s, u, call) && s'.table == s.table && s'.nextId == s.nextId && s'.revived == s.revived
    ensures SnapshotHolds(s', u, call)
  {
  }

  function FirstThree(found: seq<SessionId>): set<SessionId>
    requires |found| >= MAX_ACTIVE_SESSIONS
  {
    set x | x in found[..MAX_ACTIVE_SESSIONS]
  }

  lemma FirstThreeSize(found: seq<SessionId>)
    requires |found| > MAX_ACTIVE_SESSIONS
    ensures |FirstThree(found)| <= MAX_ACTIVE_SESSIONS
    ensures forall x :: x in found ==> x in FirstThree(found) || x in Stale(found)
    ensures forall x :: x in FirstThree(found) ==> x in found
  {
    assert FirstThree(found) == {found[0], found[1], found[2]};
    assert found == found[..MAX_ACTIVE_SESSIONS] + found[MAX_ACTIVE_SESSIONS..];
  }

  /** Trimming after the latest enforcement leaves the first three of the snapshot and what came later. */
  lemma TrimSettles(s: State, c: CallId, u: UserId, kept: set<SessionId>, mark: SessionId)
    requires RowsFormed(s) && Settled(s, u, kept, mark) && Enabled(s, Trim(c))
    requires s.calls[c].user == u && SnapshotHolds(s, u, s.calls[c])
    ensures var (call, s') := (s.calls[c], Next(s, Trim(c)));
            if mark <= call.phase.at then Settled(s', u, FirstThree(call.phase.snapshot), call.phase.at)
            else Settled(s', u, kept, mark)
  {
    var s', call := Next(s, Trim(c)), s.calls[c];
    FirstThreeSize(call.phase.snapshot);
    var kept' := if mark <= call.phase.at then FirstThree(call.phase.snapshot) else kept;
    var mark' := if mark <= call.phase.at then call.phase.at else mark;
    forall id | id in OfUser(s'.table, u)
      ensures id in kept' || (mark' <= id && Owned(s', u, id)) || id in s'.revived
    {
      assert id in OfUser(s.table, u) && id !in Stale(call.phase.snapshot);
      if id !in kept' && id !in s.revived {
        assert mark' <= id && Owned(s, u, id);
        var o :| o in InFlight(s, u) && s.calls[o].own == Some(id);
        assert o in InFlight(s', u);
      }
    }
  }

  lemma TrimSnapshots(s: State, c: CallId, u: UserId)
    requires SnapshotsHold(s, u) && Enabled(s, Trim(c))
    ensures SnapshotsHold(Next(s, Trim(c)), u)
  {
    hide Stale;
    var s' := Next(s, Trim(c));
    forall d | d in s'.calls && s'.calls[d].user == u ensures SnapshotHolds(s', u, s'.calls[d]) {
      assert SnapshotHolds(s, u, s.calls[d]);
    }
  }

  lemma OtherTrimSettles(s: State, c: CallId, u: UserId, kept: set<SessionId>, mark: SessionId)
    requires Settled(s, u, kept, mark) && Enabled(s, Trim(c)) && s.calls[c].user != u
    ensures Settled(Next(s, Trim(c)), u, kept, mark)
  {
    hide Stale;
    var s' := Next(s, Trim(c));
    assert InFlight(s', u) == InFlight(s, u);
    OwnersStay(s, s', u);
  }

  lemma TrimBounded(s: State, c: CallId, u: UserId)
    requires RowsFormed(s) && Bounded(s, u) && Enabled(s, Trim(c))
    ensures Bounded(Next(s, Trim(c)), u)
  {
    var kept: set<SessionId>, mark: SessionId :| Settled(s, u, kept, mark);
    TrimSnapshots(s, c, u);
    hide Settled, SnapshotHolds, Next, RowsFormed;
    if s.calls[c].user == u {
      TrimSettles(s, c, u, kept, mark);
    } else {
      OtherTrimSettles(s, c, u, kept, mark);
    }
  }

  lemma ReadShrinks(s: State, c: CallId, token: Token, u: UserId)
    requires WellFormed(s) && Enabled(s, RefreshRead(c, token))
    ensures OthersSame(s, Next(s, RefreshRead(c, token)), u)
  {
    hide FindByToken;
  }

  lemma SaveOthersSame(s: State, c: CallId, renewed: Token, u: UserId)
    requires WellFormed(s) && Enabled(s, RefreshSave(c, renewed))
    ensures OthersSame(s, Next(s, RefreshSave(c, renewed)), u)
  {
    assert ReadingSound(s, s.refreshes[c]);
  }

  lemma StepBounded(s: State, step: Step, u: UserId)
    requires WellFormed(s) && Bounded(s, u) && Enabled(s, step)
    ensures Bounded(Next(s, step), u)
  {
    match step
    case Save(_, _, _) => SaveBounded(s, step, u);
    case List(_, _) => SaveBounded(s, step, u);
    case Purge(c) => PurgeBounded(s, c, u);
    case Find(c) => FindBounded(s, c, u);
    case Trim(c) => TrimBounded(s, c, u);
    case RefreshRead(c, token) => ReadShrinks(s, c, token, u);
      ShrinkBounded(s, Next(s, step), u);
    case RefreshSave(c, renewed) => SaveOthersSame(s, c, renewed, u);
      ShrinkBounded(s, Next(s, step), u);
    case Guard(_, _) => ShrinkBounded(s, Next(s, step), u);
    case Logout(_) => ShrinkBounded(s, Next(s, step), u);
    case RemoveMine(_, _) => ShrinkBounded(s, Next(s, step), u);
    case SetActive(_, _) => ShrinkBounded(s, Next(s, step), u);
    case Tick(_) => ShrinkBounded(s, Next(s, step), u);
  }

  lemma {:induction false} RunBounded(s: State, steps: seq<Step>, u: UserId)
    requires WellFormed(s) && Bounded(s, u) && Runs(s, steps)
    ensures Bounded(After(s, steps), u)
    decreases |steps|
  {
    if steps != [] {
      StepWellFormed(s, steps[0]);
      StepBounded(s, steps[0], u);
      RunBounded(Next(s, steps[0]), steps[1..], u);
    }
  }

  /** However the statements interleave, the sessions of a user that no refresh inserted again are never more
      than three beyond the logins still in flight. */
  lemma SessionCap(s: State, steps: seq<Step>, u: UserId)
    requires Initial(s) && Runs(s, steps)
    ensures |OfUser(After(s, steps).table, u) - After(s, steps).revived| <=
            MAX_ACTIVE_SESSIONS + |InFlight(After(s, steps), u)|
    ensures |OfUser(After(s, steps).table, u)| <=
            MAX_ACTIVE_SESSIONS + |InFlight(After(s, steps), u)|
              + |OfUser(After(s, steps).table, u) * After(s, steps).revived|
  {
    assert Settled(s, u, OfUser(s.table, u), s.nextId);
    RunBounded(s, steps, u);
    var e := After(s, steps);
    BoundFollows(e, u);
    assert OfUser(e.table, u) == (OfUser(e.table, u) - e.revived) + (OfUser(e.table, u) * e.revived);
  }

  /** No step of the run inserts a deleted row again. */
  ghost predicate NeverRevives(s: State, steps: seq<Step>)
    requires Runs(s, steps)
    decreases |steps|
  {
    steps != [] ==> !Revives(s, steps[0]) && NeverRevives(Next(s, steps[0]), steps[1..])
  }

  lemma {:induction false} NoneRevived(s: State, steps: seq<Step>)
    requires s.revived == {} && Runs(s, steps) && NeverRevives(s, steps)
    ensures After(s, steps).revived == {}
    decreases |steps|
  {
    hide Effect;
    if steps != [] { NoneRevived(Next(s, steps[0]), steps[1..]); }
  }

  /** So where every refresh still finds its row, three and the logins in flight are the limit. */
  lemma PlainSessionCap(s: State, steps: seq<Step>, u: UserId)
    requires Initial(s) && Runs(s, steps) && NeverRevives(s, steps)
    ensures |OfUser(After(s, steps).table, u)| <= MAX_ACTIVE_SESSIONS + |InFlight(After(s, steps), u)|
  {
    SessionCap(s, steps, u);
    NoneRevived(s, steps);
    assert OfUser(After(s, steps).table, u) - {} == OfUser(After(s, steps).table, u);
  }

  // ----- which sessions survive -----

  function BornTo(s: State, u: UserId): set<SessionId> { set id | id in s.born && s.born[id].user == u }

  /** No row of u expires or is logged out at this step: only the cap may remove one. */
  ghost predicate Undisturbed(s: State, step: Step, u: UserId)
    requires Enabled(s, step)
  {
    !step.Trim? ==> OfUser(s.table, u) <= OfUser(Next(s, step).table, u)
  }

  ghost predicate UndisturbedRun(s: State, steps: seq<Step>, u: UserId)
    requires Runs(s, steps)
    decreases |steps|
  {
    steps != [] ==> Undisturbed(s, steps[0], u) && UndisturbedRun(Next(s, steps[0]), steps[1..], u)
  }

  ghost predicate Outnumbered(s: State, u: UserId, id: SessionId)
  {
    |Newer(BornTo(s, u), id)| >= MAX_ACTIVE_SESSIONS
  }

  /** A missing or revived session has three newer ones, and so has one a login is about to remove. */
  ghost predicate Justified(s: State, u: UserId)
  {
    && (forall id :: id in BornTo(s, u) && (id !in s.table || id in s.revived) ==> Outnumbered(s, u, id))
    && forall c, id :: c in s.calls && s.calls[c].phase.Found? && id in Stale(s.calls[c].phase.snapshot) ==>
                         id in BornTo(s, s.calls[c].user) && Outnumbered(s, s.calls[c].user, id)
  }

  lemma BornGrows(s: State, step: Step, u: UserId)
    requires RowsFormed(s) && Enabled(s, step)
    ensures BornTo(s, u) <= BornTo(Next(s, step), u)
    ensures forall id :: Outnumbered(s, u, id) ==> Outnumbered(Next(s, step), u, id)
  {
    forall id | Outnumbered(s, u, id) ensures Outnumbered(Next(s, step), u, id) {
      SubsetSize(Newer(BornTo(s, u), id), Newer(BornTo(Next(s, step), u), id));
    }
  }

  lemma StaleOutnumbered(s: State, u: UserId, id: SessionId)
    requires RowsFormed(s) && id in Stale(FindByUser(s.table, u))
    ensures Outnumbered(s, u, id)
  {
    StaleFound(OfUser(s.table, u), id);
    StaleByRank(OfUser(s.table, u), id);
    hide Stale, Descending;
    SubsetSize(Newer(OfUser(s.table, u), id), Newer(BornTo(s, u), id));
  }

  /** Every session missing or revived after the step was so before, or is trimmed by it as stale. */
  lemma StepMissing(s: State, step: Step, u: UserId, id: SessionId)
    requires RowsFormed(s) && Enabled(s, step) && Undisturbed(s, step, u)
    requires var s' := Next(s, step); id in BornTo(s', u) && (id !in s'.table || id in s'.revived)
    ensures id in BornTo(s, u)
    ensures (id !in s.table || id in s.revived) || (step.Trim? && id in Stale(s.calls[step.call].phase.snapshot))
  {
    hide FindByUser, Stale, FindByToken, DeleteExpired, Undisturbed;
    if id in OfUser(s.table, u) && id !in s.revived && !step.Trim? { StaysPut(s, step, u, id); }
  }

  lemma StaysPut(s: State, step: Step, u: UserId, id: SessionId)
    requires Enabled(s, step) && Undisturbed(s, step, u) && !step.Trim?
    requires id in OfUser(s.table, u) && id !in s.revived
    ensures id in Next(s, step).table && id !in Next(s, step).revived
  {
    hide Effect;
    assert id in OfUser(Next(s, step).table, u);
  }

  lemma StepSnapshots(s: State, step: Step, c: CallId, id: SessionId)
    requires RowsFormed(s) && Enabled(s, step)
    requires var s' := Next(s, step);
             c in s'.calls && s'.calls[c].phase.Found? && id in Stale(s'.calls[c].phase.snapshot)
    ensures c in s.calls && s.calls[c].user == Next(s, step).calls[c].user
    ensures (s.calls[c].phase.Found? && id in Stale(s.calls[c].phase.snapshot))
            || id in Stale(FindByUser(s.table, s.calls[c].user))
  {
    hide FindByUser, Stale, FindByToken, DeleteExpired;
  }

  lemma StepJustified(s: State, step: Step, u: UserId)
    requires RowsFormed(s) && Enabled(s, step) && Justified(s, u) && Undisturbed(s, step, u)
    ensures Justified(Next(s, step), u)
  {
    hide Next, RowsFormed, Enabled, Stale, FindByUser, Outnumbered, BornTo;
    var s' := Next(s, step);
    BornGrows(s, step, u);
    forall id | id in BornTo(s', u) && (id !in s'.table || id in s'.revived) ensures Outnumbered(s', u, id) {
      StepMissing(s, step, u, id);
      if !(id !in s.table || id in s.revived) { TrimmedStale(s, step, u, id); }
    }
    forall c, id | c in s'.calls && s'.calls[c].phase.Found? && id in Stale(s'.calls[c].phase.snapshot)
      ensures id in BornTo(s', s'.calls[c].user) && Outnumbered(s', s'.calls[c].user, id)
    {
      StepSnapshots(s, step, c, id);
      BornGrows(s, step, s.calls[c].user);
      if !(s.calls[c].phase.Found? && id in Stale(s.calls[c].phase.snapshot)) {
        StaleOwner(s, s.calls[c].user, id);
        StaleOutnumbered(s, s.calls[c].user, id);
      }
    }
  }

  lemma TrimmedStale(s: State, step: Step, u: UserId, id: SessionId)
    requires Enabled(s, step) && Justified(s, u) && step.Trim? && id in Stale(s.calls[step.call].phase.snapshot)
             && id in BornTo(s, u)
    ensures Outnumbered(s, u, id)
  {
    hide Stale;
  }

  lemma StaleOwner(s: State, u: UserId, id: SessionId)
    requires RowsFormed(s) && id in Stale(FindByUser(s.table, u))
    ensures id in BornTo(s, u)
  {
    assert id in FindByUser(s.table, u);
  }

  lemma {:induction false} RunJustified(s: State, steps: seq<Step>, u: UserId)
    requires WellFormed(s) && Justified(s, u) && Runs(s, steps) && UndisturbedRun(s, steps, u)
    ensures Justified(After(s, steps), u)
    decreases |steps|
  {
    if steps != [] {
      StepWellFormed(s, steps[0]);
      StepJustified(s, steps[0], u);
      RunJustified(Next(s, steps[0]), steps[1..], u);
    }
  }

  /** Among any ids, at most three have fewer than three newer ones, and if some id has three newer
      ones there are exactly three. */
  lemma ThreeNewest(ids: set<SessionId>, id: SessionId) returns (top: set<SessionId>)
    requires |Newer(ids, id)| >= MAX_ACTIVE_SESSIONS
    ensures |top| == MAX_ACTIVE_SESSIONS && id !in top && top <= ids
    ensures forall x :: x in top ==> |Newer(ids, x)| < MAX_ACTIVE_SESSIONS
  {
    var sorted := Descending(Newer(ids, id));
    hide Descending;
    top := {sorted[0], sorted[1], sorted[2]};
    assert sorted[0] in sorted && sorted[1] in sorted && sorted[2] in sorted;
    forall i: nat | i < 3 ensures |Newer(ids, sorted[i])| < MAX_ACTIVE_SESSIONS {
      NewerThan(ids, id, sorted, i);
    }
  }

  lemma NewerThan(ids: set<SessionId>, id: SessionId, sorted: seq<SessionId>, i: nat)
    requires sorted == Descending(Newer(ids, id)) && i < |sorted| && i < 3
    ensures |Newer(ids, sorted[i])| <= i
  {
    hide Descending;
    assert sorted[i] in sorted;
    forall x | x in Newer(ids, sorted[i]) ensures x in Elements(sorted[..i]) {
      assert x in Newer(ids, id);
      var k :| 0 <= k < |sorted| && sorted[k] == x;
      assert k < i && sorted[..i][k] == x;
    }
    ElementsSize(sorted[..i]);
    SubsetSize(Newer(ids, sorted[i]), Elements(sorted[..i]));
  }

  /** Once every login has finished and nothing else removed rows, a session exists exactly when fewer than
      three newer ones were ever created or a refresh inserted it again. */
  lemma NewestSurvive(s: State, steps: seq<Step>, u: UserId, id: SessionId)
    requires Initial(s) && Runs(s, steps) && BornTo(s, u) == OfUser(s.table, u) && UndisturbedRun(s, steps, u)
    requires InFlight(After(s, steps), u) == {}
    ensures id in OfUser(After(s, steps).table, u) <==>
            && id in BornTo(After(s, steps), u)
            && (|Newer(BornTo(After(s, steps), u), id)| < MAX_ACTIVE_SESSIONS || id in After(s, steps).revived)
    ensures id in After(s, steps).revived && id in BornTo(After(s, steps), u) ==>
            |Newer(BornTo(After(s, steps), u), id)| >= MAX_ACTIVE_SESSIONS
  {
    SessionCap(s, steps, u);
    RunWellFormed(s, steps);
    RunJustified(s, steps, u);
    ThreeLeft(After(s, steps), u, id);
  }

  lemma ThreeLeft(e: State, u: UserId, id: SessionId)
    requires RowsFormed(e) && Justified(e, u) && |OfUser(e.table, u) - e.revived| <= MAX_ACTIVE_SESSIONS
    ensures id in OfUser(e.table, u) <==>
            id in BornTo(e, u) && (|Newer(BornTo(e, u), id)| < MAX_ACTIVE_SESSIONS || id in e.revived)
    ensures id in e.revived && id in BornTo(e, u) ==> |Newer(BornTo(e, u), id)| >= MAX_ACTIVE_SESSIONS
  {
    hide Newer;
    var born, rows := BornTo(e, u), OfUser(e.table, u) - e.revived;
    assert forall x :: x in OfUser(e.table, u) ==> x in born;
    assert forall x :: x in born && x in e.table ==> x in OfUser(e.table, u);
    assert forall x :: x in born && !Outnumbered(e, u, x) ==> x in rows;
    if |Newer(born, id)| >= MAX_ACTIVE_SESSIONS {
      var top := ThreeNewest(born, id);
      assert top <= rows;
      if id in rows { SubsetSize(top + {id}, rows); }
    }
  }

  /** And where every refresh still finds its row, exactly the newest three are left. */
  lemma PlainNewestSurvive(s: State, steps: seq<Step>, u: UserId, id: SessionId)
    requires Initial(s) && Runs(s, steps) && BornTo(s, u) == OfUser(s.table, u) && UndisturbedRun(s, steps, u)
    requires InFlight(After(s, steps), u) == {} && NeverRevives(s, steps)
    ensures id in OfUser(After(s, steps).table, u) <==>
            id in BornTo(After(s, steps), u) && |Newer(BornTo(After(s, steps), u), id)| < MAX_ACTIVE_SESSIONS
  {
    NewestSurvive(s, steps, u, id);
    NoneRevived(s, steps);
  }

  // ----- uninterrupted calls -----

  /** What enforcement leaves of the state, run without interruption. */
  ghost predicate Enforced(s: State, c: CallId, s': State)
    requires c in s.calls
  {
    && s'.table == Enforce(s.table, s.calls[c].user, s.now) && s'.calls == s.calls - {c} && s'.refreshes == s.refreshes
    && s'.usedTokens == s.usedTokens && s'.active == s.active && s'.now == s.now
  }

  /** enforceActiveSessionLimit run alone is the Purge, Find and, when needed, Trim steps. */
  lemma EnforceAlone(s: State, c: CallId) returns (steps: seq<Step>)
    requires c in s.calls && s.calls[c].phase == Saved
    ensures Runs(s, steps) && Enforced(s, c, After(s, steps))
  {
    hide FindByUser, DeleteExpired, Runs, After;
    var s2 := Next(s, Purge(c));
    var s3 := Next(s2, Find(c));
    if c in s3.calls {
      RunNothing(Next(s3, Trim(c)));
      ThenRun(s3, Trim(c), []);
      ThenRun(s2, Find(c), [Trim(c)] + []);
      ThenRun(s, Purge(c), [Find(c)] + ([Trim(c)] + []));
      steps := [Purge(c)] + ([Find(c)] + ([Trim(c)] + []));
    } else {
      RunNothing(s3);
      ThenRun(s2, Find(c), []);
      ThenRun(s, Purge(c), [Find(c)] + []);
      steps := [Purge(c)] + ([Find(c)] + []);
    }
  }

  /** issueTokens run alone is the Save step and an enforcement. */
  lemma LoginAlone(s: State, c: CallId, u: UserId, token: Token) returns (steps: seq<Step>)
    requires WellFormed(s) && c !in s.calls && token !in s.usedTokens
    ensures Runs(s, steps) && After(s, steps).calls == s.calls
    ensures After(s, steps).table ==
            Enforce(s.table[s.nextId := Session(u, Sha256(token), s.now + SESSION_TTL_MS)], u, s.now)
    ensures After(s, steps).refreshes == s.refreshes && After(s, steps).usedTokens == s.usedTokens + {token}
  {
    LoginSaved(s, c, u, token);
    hide Enforce, WellFormed, Next, Runs, After;
    var rest := EnforceAlone(Next(s, Save(c, u, token)), c);
    ThenRun(s, Save(c, u, token), rest);
    steps := [Save(c, u, token)] + rest;
  }

  lemma LoginSaved(s: State, c: CallId, u: UserId, token: Token)
    requires c !in s.calls && token !in s.usedTokens
    ensures var s' := Next(s, Save(c, u, token));
            && s'.table == s.table[s.nextId := Session(u, Sha256(token), s.now + SESSION_TTL_MS)] && s'.now == s.now
            && s'.calls == s.calls[c := Call(u, Some(s.nextId), Saved)] && s'.calls - {c} == s.calls
            && s'.refreshes == s.refreshes && s'.usedTokens == s.usedTokens + {token}
  {
  }

  /** refresh run alone is the RefreshRead step and, when it is accepted, the RefreshSave step. */
  lemma RefreshAlone(s: State, c: CallId, token: Token, renewed: Token) returns (steps: seq<Step>)
    requires c !in s.refreshes && renewed !in s.usedTokens
    ensures Runs(s, steps) && After(s, steps).refreshes == s.refreshes
    ensures After(s, steps).table == RefreshTable(s.table, s.active, s.now, token, renewed)
  {
    hide FindByToken, Runs, After;
    var s1 := Next(s, RefreshRead(c, token));
    if c in s1.refreshes {
      RunNothing(Next(s1, RefreshSave(c, renewed)));
      ThenRun(s1, RefreshSave(c, renewed), []);
      ThenRun(s, RefreshRead(c, token), [RefreshSave(c, renewed)] + []);
      steps := [RefreshRead(c, token)] + ([RefreshSave(c, renewed)] + []);
    } else {
      RunNothing(s1);
      ThenRun(s, RefreshRead(c, token), []);
      steps := [RefreshRead(c, token)] + [];
    }
  }

  lemma RunNothing(s: State)
    ensures Runs(s, []) && After(s, []) == s
  {
  }

  lemma ThenRun(s: State, step: Step, rest: seq<Step>)
    requires Enabled(s, step) && Runs(Next(s, step), rest)
    ensures Runs(s, [step] + rest) && After(s, [step] + rest) == After(Next(s, step), rest)
  {
    hide Next;
    assert ([step] + rest)[1..] == rest;
  }

  lemma {:induction false} RunOn(s: State, a: seq<Step>, b: seq<Step>)
    requires Runs(s, a) && Runs(After(s, a), b)
    ensures Runs(s, a + b) && After(s, a + b) == After(After(s, a), b)
    decreases |a|
  {
    hide Next;
    if a == [] {
      assert a + b == b;
    } else {
      RunOn(Next(s, a[0]), a[1..], b);
      assert (a + b)[1..] == a[1..] + b;
    }
  }
}
