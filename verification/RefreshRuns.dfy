/** What interleaved refreshes do: how long a session admits requests, when a removed session comes back,
    and how many token pairs one refresh token can yield. */
module RefreshRuns {
  import opened Seqs
  import opened Sessions
  import opened SessionRuns

  // ----- sessions that come back -----

  predicate ReadBy(s: State, c: CallId, id: SessionId) { c in s.refreshes && s.refreshes[c].id == id }

  /** A refresh that has read this session is unfinished. */
  ghost predicate BeingRefreshed(s: State, id: SessionId)
  {
    exists c :: ReadBy(s, c, id)
  }

  /** The session is in the table at some moment of the run. */
  ghost predicate EverStored(s: State, steps: seq<Step>, id: SessionId)
    requires Runs(s, steps)
    decreases |steps|
  {
    id in s.table || (steps != [] && EverStored(Next(s, steps[0]), steps[1..], id))
  }

  /** A refresh that has read this session saves during the run. */
  ghost predicate SavedBack(s: State, steps: seq<Step>, id: SessionId)
  {
    exists i :: 0 <= i < |steps| && steps[i].RefreshSave? && ReadBy(s, steps[i].call, id)
  }

  lemma StepRemoved(s: State, step: Step, id: SessionId)
    requires WellFormed(s) && Enabled(s, step) && id in s.born && id !in s.table
    ensures id in Next(s, step).born
    ensures id in Next(s, step).table <==> step.RefreshSave? && ReadBy(s, step.call, id)
  {
    hide FindByUser, Stale, FindByToken, ReadingsFormed;
  }

  lemma StepReadBy(s: State, step: Step, id: SessionId, c: CallId)
    requires Enabled(s, step) && id !in s.table && !(step.RefreshSave? && ReadBy(s, step.call, id))
    ensures ReadBy(s, c, id) <==> ReadBy(Next(s, step), c, id)
  {
    hide FindByUser, Stale, FindByToken, DeleteExpired;
  }

  lemma {:induction false} RemovedReturnsIff(s: State, steps: seq<Step>, id: SessionId)
    requires WellFormed(s) && Runs(s, steps) && id in s.born && id !in s.table
    ensures EverStored(s, steps, id) <==> SavedBack(s, steps, id)
    decreases |steps|
  {
    hide WellFormed, Next;
    if steps != [] {
      var s', rest := Next(s, steps[0]), steps[1..];
      StepWellFormed(s, steps[0]);
      StepRemoved(s, steps[0], id);
      if id in s'.table {
        assert steps[0].RefreshSave? && ReadBy(s, steps[0].call, id);
      } else {
        forall c ensures ReadBy(s, c, id) <==> ReadBy(s', c, id) { StepReadBy(s, steps[0], id, c); }
        RemovedReturnsIff(s', rest, id);
        ShiftSaved(s, s', steps, id);
      }
    }
  }

  /** When the first step saves nothing back and leaves the readers alone, the rest decides. */
  lemma ShiftSaved(s: State, s': State, steps: seq<Step>, id: SessionId)
    requires steps != [] && !(steps[0].RefreshSave? && ReadBy(s, steps[0].call, id))
    requires forall c :: ReadBy(s, c, id) <==> ReadBy(s', c, id)
    ensures SavedBack(s, steps, id) <==> SavedBack(s', steps[1..], id)
  {
    if SavedBack(s, steps, id) {
      var i :| 0 <= i < |steps| && steps[i].RefreshSave? && ReadBy(s, steps[i].call, id);
      assert steps[1..][i - 1] == steps[i];
    }
    if SavedBack(s', steps[1..], id) {
      var i :| 0 <= i < |steps[1..]| && steps[1..][i].RefreshSave? && ReadBy(s', steps[1..][i].call, id);
      assert steps[i + 1] == steps[1..][i];
    }
  }

  /** Tokens never run out. */
  lemma UnusedToken(used: set<Token>) returns (token: Token)
    ensures token !in used
  {
    if used == {} { token := 0; } else { token := MaxOf(used) + 1; }
  }

  /** Removing a session is final exactly when no refresh that has read it is unfinished. */
  lemma RemovalFinalIff(s: State, id: SessionId)
    requires WellFormed(s) && id in s.born && id !in s.table
    ensures (forall steps :: Runs(s, steps) ==> !EverStored(s, steps, id)) <==> !BeingRefreshed(s, id)
  {
    hide WellFormed, Next, EverStored, Runs, SavedBack;
    forall steps | Runs(s, steps) ensures EverStored(s, steps, id) <==> SavedBack(s, steps, id) {
      RemovedReturnsIff(s, steps, id);
    }
    if !BeingRefreshed(s, id) {
      forall steps ensures !SavedBack(s, steps, id) { NoneToSave(s, steps, id); }
    } else {
      var c :| ReadBy(s, c, id);
      var renewed := UnusedToken(s.usedTokens);
      var steps := [RefreshSave(c, renewed)];
      OneStep(s, steps[0]);
      assert steps[0].RefreshSave? && ReadBy(s, steps[0].call, id);
      assert SavedBack(s, steps, id) by { OneSaves(s, steps, id); }
      assert EverStored(s, steps, id) by { RemovedReturnsIff(s, steps, id); }
    }
  }

  lemma NoneToSave(s: State, steps: seq<Step>, id: SessionId)
    requires !BeingRefreshed(s, id)
    ensures !SavedBack(s, steps, id)
  {
  }

  lemma OneSaves(s: State, steps: seq<Step>, id: SessionId)
    requires steps != [] && steps[0].RefreshSave? && ReadBy(s, steps[0].call, id)
    ensures SavedBack(s, steps, id)
  {
  }

  lemma OneStep(s: State, step: Step)
    requires Enabled(s, step)
    ensures Runs(s, [step]) && After(s, [step]) == Next(s, step)
  {
    RunNothing(Next(s, step));
    ThenRun(s, step, []);
    assert [step] + [] == [step];
  }

  // ----- which rows a step removes or changes -----

  /** The step takes this row away: an expired one of the purged user, one beyond the three newest that were found,
      one logged out, or an expired one that a refresh or a guarded request came upon. */
  ghost predicate Removes(s: State, step: Step, id: SessionId)
    requires Enabled(s, step) && id in s.table
  {
    var row := s.table[id];
    match step
    case Purge(c) => row.userId == s.calls[c].user && row.expiresAt < s.now
    case Trim(c) => exists k :: 3 <= k < |s.calls[c].phase.snapshot| && s.calls[c].phase.snapshot[k] == id
    case RefreshRead(_, token) => row.token == Sha256(token) && row.expiresAt < s.now
    case Guard(u, session) => id == session && row.userId == u && row.expiresAt < s.now
    case Logout(session) => id == session
    case RemoveMine(u, session) => id == session && row.userId == u
    case _ => false
  }

  /** A row goes exactly when its step removes it; it stays as it is unless a refresh that had read it saves, which
      restores what was read under the new token. */
  lemma RowGoesIff(s: State, step: Step, id: SessionId)
    requires WellFormed(s) && Enabled(s, step) && id in s.table
    ensures id !in Next(s, step).table <==> Removes(s, step, id)
    ensures !Removes(s, step, id) ==>
              Next(s, step).table[id] ==
              if step.RefreshSave? && ReadBy(s, step.call, id)
              then s.refreshes[step.call].row.(token := Sha256(step.renewed)) else s.table[id]
  {
    hide Descending, FindByToken, ReadingsFormed;
    if step.Trim? { StaleFrom(s.calls[step.call].phase.snapshot, id); }
    if step.RefreshRead? {
      var found := FindByToken(s.table, Sha256(step.token));
      assert found.Some? && s.table[found.value].token == s.table[id].token ==> found.value == id;
    }
  }

  lemma StaleFrom(found: seq<SessionId>, id: SessionId)
    ensures id in Stale(found) <==> exists k :: 3 <= k < |found| && found[k] == id
  {
    if id in Stale(found) {
      var j :| 0 <= j < |found[MAX_ACTIVE_SESSIONS..]| && found[MAX_ACTIVE_SESSIONS..][j] == id;
      assert found[j + 3] == id;
    }
    if k :| 3 <= k < |found| && found[k] == id { assert found[MAX_ACTIVE_SESSIONS..][k - 3] == id; }
  }

  // ----- how long a session admits requests -----

  lemma StepBirths(s: State, step: Step, id: SessionId)
    requires id in s.born && id < s.nextId && Enabled(s, step)
    ensures id in Next(s, step).born && Next(s, step).born[id] == s.born[id] && id < Next(s, step).nextId
  {
    hide FindByUser, Stale, FindByToken, DeleteExpired;
  }

  lemma {:induction false} RunBirths(s: State, steps: seq<Step>, id: SessionId)
    requires id in s.born && id < s.nextId && Runs(s, steps)
    ensures id in After(s, steps).born && After(s, steps).born[id] == s.born[id]
    decreases |steps|
  {
    hide Next;
    if steps != [] {
      StepBirths(s, steps[0], id);
      RunBirths(Next(s, steps[0]), steps[1..], id);
    }
  }

  lemma {:induction false} StoredAtEnd(s: State, steps: seq<Step>, id: SessionId)
    requires Runs(s, steps) && id in After(s, steps).table
    ensures EverStored(s, steps, id)
    decreases |steps|
  {
    hide Next;
    if steps != [] { StoredAtEnd(Next(s, steps[0]), steps[1..], id); }
  }

  /** Whatever happens, a request under a session is admitted only for its owner and within seven days of its
      login; and after its row has been removed, only if a refresh that had read it saved it back. */
  lemma AdmissionWindow(s: State, steps: seq<Step>, u: UserId, id: SessionId)
    requires WellFormed(s) && id in s.born && Runs(s, steps) && Admits(After(s, steps), u, id)
    ensures u == s.born[id].user && After(s, steps).now <= s.born[id].issuedAt + 7 * 24 * 60 * 60 * 1000
    ensures u in After(s, steps).active && (id in s.table || SavedBack(s, steps, id))
  {
    hide Next, EverStored;
    RunBirths(s, steps, id);
    RunWellFormed(s, steps);
    if id !in s.table {
      StoredAtEnd(s, steps, id);
      RemovedReturnsIff(s, steps, id);
    }
  }

  /** A request is admitted exactly for the owner of a stored session while the owner is active and the session at
      most seven days old: switching a user off or on takes effect at once, and so does the passing of the term. */
  lemma AdmissionTurns(s: State, u: UserId, id: SessionId, on: bool, elapsed: nat)
    requires WellFormed(s)
    ensures Admits(Next(s, SetActive(u, on)), u, id) <==>
            on && id in OfUser(s.table, u) && s.now <= s.born[id].issuedAt + 7 * 24 * 60 * 60 * 1000
    ensures Admits(Next(s, Tick(elapsed)), u, id) <==>
            && u in s.active && id in OfUser(s.table, u)
            && s.now + elapsed <= s.born[id].issuedAt + 7 * 24 * 60 * 60 * 1000
  {
    hide ReadingsFormed;
  }

  // ----- tokens -----

  lemma StepDead(s: State, step: Step, token: Token)
    requires Dead(s, token) && Enabled(s, step)
    ensures Dead(Next(s, step), token)
  {
    hide FindByUser, Stale, FindByToken;
  }

  lemma {:induction false} RunDead(s: State, steps: seq<Step>, token: Token)
    requires Dead(s, token) && Runs(s, steps)
    ensures Dead(After(s, steps), token)
    decreases |steps|
  {
    hide Next, Dead;
    if steps != [] {
      StepDead(s, steps[0], token);
      RunDead(Next(s, steps[0]), steps[1..], token);
    }
  }

  /** The save of a refresh makes the new token accepted for the session that was read, as far as the session
      is unexpired and its user active; and no refresh that presents the old token from then on is accepted. */
  lemma RotationRetires(s: State, c: CallId, renewed: Token, steps: seq<Step>)
    requires WellFormed(s) && Enabled(s, RefreshSave(c, renewed)) && Runs(Next(s, RefreshSave(c, renewed)), steps)
    ensures var (s', r) := (Next(s, RefreshSave(c, renewed)), s.refreshes[c]);
            && FindByToken(s'.table, Sha256(renewed)) == Some(r.id)
            && (Accepts(s', renewed) <==> r.row.expiresAt >= s.now && r.row.userId in s.active)
            && !Accepts(After(s', steps), r.row.token.token)
  {
    hide FindByToken;
    var s', r := Next(s, RefreshSave(c, renewed)), s.refreshes[c];
    StepWellFormed(s, RefreshSave(c, renewed));
    assert r.row.token.token in s'.rotations && Dead(s', r.row.token.token);
    assert s'.table[r.id].token == Sha256(renewed);
    hide Next, WellFormed;
    RunDead(s', steps, r.row.token.token);
  }

  /** A token names at most one session. */
  lemma OneSessionPerToken(s: State, steps: seq<Step>, i: SessionId, j: SessionId, token: Token)
    requires Initial(s) && Runs(s, steps)
    requires i in After(s, steps).table && After(s, steps).table[i].token == Sha256(token)
    requires j in After(s, steps).table && After(s, steps).table[j].token == Sha256(token)
    ensures i == j
  {
    RunWellFormed(s, steps);
  }

  /** The unfinished refreshes that presented this token and were accepted. */
  function Readers(s: State, token: Token): set<CallId>
  {
    set c | c in s.refreshes && s.refreshes[c].row.token == Sha256(token)
  }

  /** Once a token is in no row, nobody starts to read it, and each reader that saves is issued one pair. */
  lemma StepReaders(s: State, step: Step, token: Token)
    requires Dead(s, token) && Enabled(s, step)
    ensures Readers(Next(s, step), token) <= Readers(s, token)
    ensures Next(s, step).rotations[token] + |Readers(Next(s, step), token)| == s.rotations[token] + |Readers(s, token)|
  {
    hide Dead, Next;
    var s' := Next(s, step);
    ReadersAfter(s, step, token);
    if step.RefreshSave? && step.call in Readers(s, token) {
      assert Readers(s', token) == Readers(s, token) - {step.call};
    } else {
      assert Readers(s', token) == Readers(s, token);
    }
  }

  lemma ReadersAfter(s: State, step: Step, token: Token)
    requires Dead(s, token) && Enabled(s, step)
    ensures var (s', saves) := (Next(s, step), step.RefreshSave? && step.call in Readers(s, token));
            && (forall c :: c in Readers(s', token) <==> c in Readers(s, token) && !(saves && c == step.call))
            && s'.rotations[token] == s.rotations[token] + if saves then 1 else 0
  {
    hide FindByUser, Stale, FindByToken, DeleteExpired;
  }

  lemma {:induction false} RunReaders(s: State, steps: seq<Step>, token: Token)
    requires Dead(s, token) && Runs(s, steps)
    ensures Readers(After(s, steps), token) <= Readers(s, token)
    ensures After(s, steps).rotations[token] + |Readers(After(s, steps), token)| ==
            s.rotations[token] + |Readers(s, token)|
    decreases |steps|
  {
    hide Next, Dead, Readers;
    if steps != [] {
      StepDead(s, steps[0], token);
      StepReaders(s, steps[0], token);
      RunReaders(Next(s, steps[0]), steps[1..], token);
    }
  }

  /** The refreshes that are issued tokens for one refresh token are exactly those that had read it when the
      first of them saved: no later one is accepted, and when all have finished there is one pair for each. So
      two refreshes of one token both succeed exactly when both read before either saves. */
  lemma PairsPerToken(s: State, c: CallId, renewed: Token, steps: seq<Step>, token: Token)
    requires WellFormed(s) && c in Readers(s, token) && s.rotations[token] == 0
    requires Enabled(s, RefreshSave(c, renewed)) && Runs(Next(s, RefreshSave(c, renewed)), steps)
    ensures var e := After(Next(s, RefreshSave(c, renewed)), steps);
            && Readers(e, token) <= Readers(s, token) - {c} && !Accepts(e, token)
            && e.rotations[token] == |Readers(s, token) - Readers(e, token)|
            && (Readers(e, token) == {} ==> e.rotations[token] == |Readers(s, token)|)
  {
    var s' := Next(s, RefreshSave(c, renewed));
    RotationRetires(s, c, renewed, steps);
    FirstSave(s, c, renewed, token);
    hide Next, Dead, WellFormed, Readers, Accepts;
    RunReaders(s', steps, token);
    var e := After(s', steps);
    assert Readers(s, token) == (Readers(s, token) - Readers(e, token)) + Readers(e, token);
  }

  lemma FirstSave(s: State, c: CallId, renewed: Token, token: Token)
    requires WellFormed(s) && c in Readers(s, token) && Enabled(s, RefreshSave(c, renewed))
    ensures var s' := Next(s, RefreshSave(c, renewed));
            && Dead(s', token) && Readers(s', token) == Readers(s, token) - {c}
               && s'.rotations[token] == s.rotations[token] + 1
            && s.refreshes[c].row.token.token == token
  {
    StepWellFormed(s, RefreshSave(c, renewed));
    hide RowsFormed, Dead;
  }

  /** For a refresh c that has read a token and another, d, presenting it: when d reads before c saves, and is
      accepted, both can save and both are issued a pair; when c has saved, d is not accepted at any later time. */
  lemma TwoRefreshes(s: State, c: CallId, d: CallId, token: Token, first: Token, second: Token, steps: seq<Step>)
    requires WellFormed(s) && c in Readers(s, token) && d !in s.refreshes && first != second
    requires Enabled(s, RefreshSave(c, first)) && second !in s.usedTokens && Runs(Next(s, RefreshSave(c, first)), steps)
    ensures var both := Next(s, RefreshRead(d, token));
            d in both.refreshes ==>
              && Enabled(both, RefreshSave(c, first))
              && var once := Next(both, RefreshSave(c, first));
                 && Enabled(once, RefreshSave(d, second))
                 && Next(once, RefreshSave(d, second)).rotations[token] == s.rotations[token] + 2
    ensures var late := After(Next(s, RefreshSave(c, first)), steps);
            d !in late.refreshes ==> d !in Next(late, RefreshRead(d, token)).refreshes
  {
    FirstSave(s, c, first, token);
    RotationRetires(s, c, first, steps);
    hide FindByToken, WellFormed, Dead;
    ReadAccepted(s, d, token);
    var late := After(Next(s, RefreshSave(c, first)), steps);
    if d !in late.refreshes { ReadAccepted(late, d, token); }
  }

  lemma ReadAccepted(s: State, d: CallId, token: Token)
    requires d !in s.refreshes
    ensures var s' := Next(s, RefreshRead(d, token));
            && (d in s'.refreshes <==> Accepts(s, token)) && s'.usedTokens == s.usedTokens
               && s'.rotations == s.rotations
            && (forall c :: c in s.refreshes ==> c in s'.refreshes && s'.refreshes[c] == s.refreshes[c])
            && (d in s'.refreshes ==> s'.refreshes[d].row.token == Sha256(token))
  {
    hide FindByToken;
  }

  // ----- more than three sessions -----

  lemma ReadOldest(s: State, u: UserId, id: SessionId)
    requires WellFormed(s) && s.refreshes == map[] && u in s.active && id in OfUser(s.table, u)
             && s.table[id].expiresAt >= s.now
    ensures var s1 := Next(s, RefreshRead(0, s.table[id].token.token));
            && s1.refreshes == map[0 := Reading(id, s.table[id])] && s1.table == s.table && s1.calls == s.calls
            && s1.nextId == s.nextId && s1.now == s.now
  {
    hide FindByToken;
    assert FindByToken(s.table, Sha256(s.table[id].token.token)) == Some(id);
  }

  /** Around the enforcement of a login: the three sessions, the new one, and the oldest put back make four. */
  lemma FourLeft(t: Table, u: UserId, now: int, added: SessionId, row: Session, oldest: SessionId, back: Session)
    requires |OfUser(t, u)| == MAX_ACTIVE_SESSIONS && oldest == Descending(OfUser(t, u))[2]
    requires forall id :: id in OfUser(t, u) ==> t[id].expiresAt >= now && id < added
    requires added !in t && row.userId == u && row.expiresAt >= now && back.userId == u
    ensures |OfUser(Enforce(t[added := row], u, now)[oldest := back], u)| == MAX_ACTIVE_SESSIONS + 1
  {
    hide Enforce, Descending;
    var ids, t1 := OfUser(t, u), t[added := row];
    var sorted := Descending(ids);
    EnforceExact(t1, u, now);
    assert Running(t1, u, now) == ids + {added};
    forall x | x in ids + {added} && x != oldest ensures Survives(t1, u, now, x) {
      StillAmongThree(ids, added, x, sorted);
    }
    assert sorted[2] in sorted;
    hide Survives;
    forall x | x in Enforce(t1, u, now) ensures x in t1 { SurvivorStored(t1, u, now, x); }
    assert OfUser(Enforce(t1, u, now)[oldest := back], u) == ids + {added};
  }

  lemma SurvivorStored(t: Table, u: UserId, now: int, x: SessionId)
    requires Survives(t, u, now, x)
    ensures x in t
  {
  }

  lemma StillAmongThree(ids: set<SessionId>, added: SessionId, x: SessionId, sorted: seq<SessionId>)
    requires sorted == Descending(ids) && |sorted| == MAX_ACTIVE_SESSIONS && x in ids + {added} && x != sorted[2]
    requires forall id :: id in ids ==> id < added
    ensures |Newer(ids + {added}, x)| < MAX_ACTIVE_SESSIONS
  {
    if x == added {
      assert Newer(ids + {added}, x) == {};
    } else {
      hide Descending, Newer;
      assert x in sorted;
      var k :| 0 <= k < |sorted| && sorted[k] == x;
      Rank(ids, k);
      OneNewer(ids, added, x);
    }
  }

  lemma OneNewer(ids: set<SessionId>, added: SessionId, x: SessionId)
    ensures |Newer(ids + {added}, x)| <= |Newer(ids, x)| + 1
  {
    SubsetSize(Newer(ids + {added}, x), Newer(ids, x) + {added});
  }

  /** From any state in which an active user has exactly three unexpired sessions and nothing is in flight, a
      refresh of the oldest around a login leaves four, with nothing in flight. */
  lemma FourSessions(s: State, u: UserId) returns (steps: seq<Step>)
    requires WellFormed(s) && s.calls == map[] && s.refreshes == map[] && u in s.active
    requires |OfUser(s.table, u)| == MAX_ACTIVE_SESSIONS && forall id :: id in OfUser(s.table, u) ==>
               s.table[id].expiresAt >= s.now
    ensures Runs(s, steps) && InFlight(After(s, steps), u) == {}
            && |OfUser(After(s, steps).table, u)| == MAX_ACTIVE_SESSIONS + 1
  {
    hide Enforce, Runs, After, Descending, Effect, FindByToken;
    var ids := OfUser(s.table, u);
    var oldest := Descending(ids)[2];
    assert oldest in Descending(ids);
    var read := RefreshRead(0, s.table[oldest].token.token);
    var s1 := Next(s, read);
    ReadOldest(s, u, oldest);
    StepWellFormed(s, read);
    var token := UnusedToken(s1.usedTokens);
    var login := LoginAlone(s1, 0, u, token);
    var s2 := After(s1, login);
    var renewed := UnusedToken(s2.usedTokens);
    var save := RefreshSave(0, renewed);
    OneStep(s2, save);
    RunOn(s1, login, [save]);
    ThenRun(s, read, login + [save]);
    steps := [read] + (login + [save]);
    AfterSave(s2, 0, renewed);
    FourLeft(s.table, u, s.now, s.nextId, Session(u, Sha256(token), s.now + SESSION_TTL_MS), oldest,
             s.table[oldest].(token := Sha256(renewed)));
  }

  lemma AfterSave(s: State, c: CallId, renewed: Token)
    requires Enabled(s, RefreshSave(c, renewed))
    ensures var (s', r) := (Next(s, RefreshSave(c, renewed)), s.refreshes[c]);
            s'.table == s.table[r.id := r.row.(token := Sha256(renewed))] && s'.calls == s.calls
  {
  }
}
