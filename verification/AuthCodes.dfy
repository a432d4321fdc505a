/** One-time Google login codes: the statements against their table, and concurrent exchanges
    interleaved statement by statement. */
module AuthCodes {
  import opened Seqs
  import opened Sessions

  type CodeId = nat
  type CallId = nat

  datatype Code = Code(hash: Digest, userId: UserId, expiresAt: int, usedAt: Option<int>)
  type Codes = map<CodeId, Code>

  const GOOGLE_AUTH_CODE_TTL_MS: int := 60 * 1000

  // ----- statements -----

  /** findOne({ codeHash }) */
  function FindCode(codes: Codes, d: Digest): (r: Option<CodeId>)
    ensures r.Some? ==> r.value in codes && codes[r.value].hash == d
    ensures r.None? <==> forall id :: id in codes ==> codes[id].hash != d
  {
    var ids := set id | id in codes && codes[id].hash == d;
    if id :| id in codes && codes[id].hash == d then assert id in ids; Some(MaxOf(ids)) else None
  }

  function Usable(c: Code, now: int): bool { c.usedAt.None? && c.expiresAt >= now }

  /** UPDATE ... SET used_at = now WHERE id = :id AND used_at IS NULL affects a row. */
  predicate Claims(codes: Codes, id: CodeId) { id in codes && codes[id].usedAt.None? }

  function MarkUsed(codes: Codes, id: CodeId, now: int): Codes
  {
    if Claims(codes, id) then codes[id := codes[id].(usedAt := Some(now))] else codes
  }

  /** delete({ expiresAt: LessThan(now) }) */
  function DropExpired(codes: Codes, now: int): Codes
  {
    map id | id in codes && codes[id].expiresAt >= now :: codes[id]
  }

  // ----- interleaved exchanges -----

  /** Where an exchange stands: about to read the row, having read it as usable, having claimed it. */
  datatype Phase = Begun | Read(id: CodeId) | Claimed(id: CodeId)
  datatype Exchange = Exchange(code: Token, phase: Phase)

  datatype State = State(codes: Codes, calls: map<CallId, Exchange>, now: int, nextId: CodeId, minted: set<Token>,
                         issued: seq<Token>)

  datatype Step =
    | Mint(code: Token, user: UserId)
    | Sweep
    | Begin(call: CallId, code: Token)
    | Lookup(call: CallId)
    | Claim(call: CallId)
    | Issue(call: CallId)
    | Tick(elapsed: nat)

  predicate Enabled(s: State, step: Step)
  {
    match step
    case Mint(code, _) => code !in s.minted
    case Begin(c, _) => c !in s.calls
    case Lookup(c) => c in s.calls && s.calls[c].phase.Begun?
    case Claim(c) => c in s.calls && s.calls[c].phase.Read?
    case Issue(c) => c in s.calls && s.calls[c].phase.Claimed?
    case _ => true
  }

  function Next(s: State, step: Step): State
    requires Enabled(s, step)
  {
    match step
    case Mint(code, u) =>
      s.(codes := s.codes[s.nextId := Code(Sha256(code), u, s.now + GOOGLE_AUTH_CODE_TTL_MS, None)],
         nextId := s.nextId + 1, minted := s.minted + {code})
    case Sweep => s.(codes := DropExpired(s.codes, s.now))
    case Begin(c, code) => s.(calls := s.calls[c := Exchange(code, Begun)])
    case Lookup(c) =>
      var found := FindCode(s.codes, Sha256(s.calls[c].code));
      if found.Some? && Usable(s.codes[found.value], s.now)
      then s.(calls := s.calls[c := s.calls[c].(phase := Read(found.value))])
      else s.(calls := s.calls - {c})
    case Claim(c) =>
      var id := s.calls[c].phase.id;
      if Claims(s.codes, id) then s.(codes := MarkUsed(s.codes, id, s.now),
                                     calls := s.calls[c := s.calls[c].(phase := Claimed(id))])
      else s.(calls := s.calls - {c})
    case Issue(c) => s.(calls := s.calls - {c}, issued := s.issued + [s.calls[c].code])
    case Tick(elapsed) => s.(now := s.now + elapsed)
  }

  predicate Runs(s: State, steps: seq<Step>)
    decreases |steps|
  {
    steps == [] || (Enabled(s, steps[0]) && Runs(Next(s, steps[0]), steps[1..]))
  }

  function After(s: State, steps: seq<Step>): State
    requires Runs(s, steps)
    decreases |steps|
  {
    if steps == [] then s else After(Next(s, steps[0]), steps[1..])
  }

  ghost predicate Initial(s: State)
  {
    s.calls == map[] && s.issued == [] && CodesKnown(s)
  }

  /** Stored codes are minted, numbered below nextId, and stored once. */
  ghost predicate CodesKnown(s: State)
  {
    && (forall id :: id in s.codes ==> id < s.nextId && s.codes[id].hash.token in s.minted)
    && (forall i, j :: i in s.codes && j in s.codes && i != j ==> s.codes[i].hash != s.codes[j].hash)
  }

  function ClaimedCalls(s: State, code: Token): set<CallId>
  {
    set c | c in s.calls && s.calls[c].phase.Claimed? && s.calls[c].code == code
  }

  /** Exchanges of a code that have been let through: token pairs issued, and claims about to issue. */
  function Granted(s: State, code: Token): nat { multiset(s.issued)[code] + |ClaimedCalls(s, code)| }

  /** The code can still be claimed. */
  ghost predicate Open(s: State, code: Token)
  {
    exists id :: id in s.codes && s.codes[id].hash == Sha256(code) && s.codes[id].usedAt.None?
  }

  ghost predicate Safe(s: State, code: Token)
  {
    && CodesKnown(s)
    && Granted(s, code) <= 1
    && (Granted(s, code) == 1 ==> !Open(s, code) && code in s.minted)
    && (forall c :: c in s.calls && s.calls[c].phase.Read? ==>
          var id := s.calls[c].phase.id;
          id < s.nextId && (id in s.codes ==> s.codes[id].hash == Sha256(s.calls[c].code)))
  }

  lemma StepSafe(s: State, step: Step, code: Token)
    requires Safe(s, code) && Enabled(s, step)
    ensures Safe(Next(s, step), code)
  {
    match step
    case Claim(c) => ClaimSafe(s, c, code);
    case Issue(c) => IssueSafe(s, c, code);
    case Lookup(c) => LookupSafe(s, c, code);
    case Begin(c, _) => assert ClaimedCalls(Next(s, step), code) == ClaimedCalls(s, code);
    case Mint(_, _) => MintSafe(s, step, code);
    case Sweep => assert ClaimedCalls(Next(s, step), code) == ClaimedCalls(s, code);
    case Tick(_) => assert ClaimedCalls(Next(s, step), code) == ClaimedCalls(s, code);
  }

  lemma MintSafe(s: State, step: Step, code: Token)
    requires Safe(s, code) && step.Mint? && Enabled(s, step)
    ensures Safe(Next(s, step), code)
  {
    var s' := Next(s, step);
    assert ClaimedCalls(s', code) == ClaimedCalls(s, code);
    if Open(s', code) && code in s.minted {
      var id :| id in s'.codes && s'.codes[id].hash == Sha256(code) && s'.codes[id].usedAt.None?;
      assert id in s.codes;
    }
  }

  lemma LookupSafe(s: State, c: CallId, code: Token)
    requires Safe(s, code) && Enabled(s, Lookup(c))
    ensures Safe(Next(s, Lookup(c)), code)
  {
    assert ClaimedCalls(Next(s, Lookup(c)), code) == ClaimedCalls(s, code);
  }

  lemma ClaimedAfter(s: State, c: CallId, code: Token)
    requires Enabled(s, Claim(c))
    ensures ClaimedCalls(Next(s, Claim(c)), code) ==
            ClaimedCalls(s, code) + if s.calls[c].code == code && Claims(s.codes, s.calls[c].phase.id) then {c} else {}
    ensures c !in ClaimedCalls(s, code) && Next(s, Claim(c)).issued == s.issued
  {
  }

  lemma ClaimSafe(s: State, c: CallId, code: Token)
    requires Safe(s, code) && Enabled(s, Claim(c))
    ensures Safe(Next(s, Claim(c)), code)
  {
    ClaimedAfter(s, c, code);
    hide ClaimedCalls;
    if s.calls[c].code == code && Claims(s.codes, s.calls[c].phase.id) {
      assert Open(s, code);
      assert Granted(s, code) == 0;
    }
  }

  lemma IssueSafe(s: State, c: CallId, code: Token)
    requires Safe(s, code) && Enabled(s, Issue(c))
    ensures Safe(Next(s, Issue(c)), code)
  {
    var s' := Next(s, Issue(c));
    if s.calls[c].code == code {
      assert ClaimedCalls(s', code) == ClaimedCalls(s, code) - {c};
    } else {
      assert ClaimedCalls(s', code) == ClaimedCalls(s, code);
    }
  }

  lemma {:induction false} RunSafe(s: State, steps: seq<Step>, code: Token)
    requires Safe(s, code) && Runs(s, steps)
    ensures Safe(After(s, steps), code)
    decreases |steps|
  {
    if steps != [] {
      StepSafe(s, steps[0], code);
      RunSafe(Next(s, steps[0]), steps[1..], code);
    }
  }

  /** However exchanges interleave with each other, with sweeps and with time, at most one of them
      is ever given tokens for a code. */
  lemma AtMostOneExchange(s: State, steps: seq<Step>, code: Token)
    requires Initial(s) && Runs(s, steps)
    ensures multiset(After(s, steps).issued)[code] <= 1
  {
    assert ClaimedCalls(s, code) == {};
    RunSafe(s, steps, code);
  }

  // ----- and one does succeed -----

  ghost predicate Reading(s: State, id: CodeId) { exists c :: c in s.calls && s.calls[c].phase == Read(id) }

  /** While the row is stored: unused with a reader at work, or used with one exchange let through. */
  ghost predicate UnderWay(s: State, code: Token, id: CodeId)
  {
    id in s.codes ==>
      s.codes[id].hash == Sha256(code) && if s.codes[id].usedAt.None? then Reading(s, id) else Granted(s, code) == 1
  }

  lemma StepUnderWay(s: State, step: Step, code: Token, id: CodeId)
    requires Safe(s, code) && UnderWay(s, code, id) && Enabled(s, step) && id < s.nextId
    ensures UnderWay(Next(s, step), code, id)
  {
    var s' := Next(s, step);
    if id in s'.codes {
      if s'.codes[id].usedAt.None? {
        var c :| c in s.calls && s.calls[c].phase == Read(id);
        assert c in s'.calls && s'.calls[c].phase == Read(id);
      } else {
        GrantedStep(s, step, code, id);
      }
    }
  }

  /** Exchanges let through stay so, and using the row lets one through. */
  lemma GrantedStep(s: State, step: Step, code: Token, id: CodeId)
    requires Safe(s, code) && Enabled(s, step) && id < s.nextId && id in s.codes && s.codes[id].hash == Sha256(code)
    ensures Granted(Next(s, step), code) >= Granted(s, code)
    ensures id in Next(s, step).codes && s.codes[id].usedAt.None? && Next(s, step).codes[id].usedAt.Some? ==>
              Granted(Next(s, step), code) >= 1
    ensures Granted(Next(s, step), code) <= 1
  {
    var s' := Next(s, step);
    StepSafe(s, step, code);
    match step
    case Claim(c) => ClaimedAfter(s, c, code);
    case Issue(c) =>
      if s.calls[c].code == code {
        assert ClaimedCalls(s', code) == ClaimedCalls(s, code) - {c};
      } else {
        assert ClaimedCalls(s', code) == ClaimedCalls(s, code);
      }
    case _ => assert ClaimedCalls(s', code) == ClaimedCalls(s, code);
  }

  lemma {:induction false} RunUnderWay(s: State, steps: seq<Step>, code: Token, id: CodeId)
    requires Safe(s, code) && UnderWay(s, code, id) && Runs(s, steps) && id < s.nextId
    ensures UnderWay(After(s, steps), code, id)
    decreases |steps|
  {
    hide UnderWay, Safe;
    if steps != [] {
      StepUnderWay(s, steps[0], code, id);
      StepSafe(s, steps[0], code);
      RunUnderWay(Next(s, steps[0]), steps[1..], code, id);
    }
  }

  /** All exchanges of the code that read it as usable have finished. */
  ghost predicate Finished(s: State, code: Token)
  {
    forall c :: c in s.calls && s.calls[c].code == code ==> s.calls[c].phase.Begun?
  }

  /** Once an exchange has read a code as usable, then whatever else happens, when every exchange that read it
      has finished and the row has not been swept, exactly one was given tokens. */
  lemma OneExchangeSucceeds(start: State, before: seq<Step>, c: CallId, after: seq<Step>, code: Token, id: CodeId)
    requires Initial(start) && Runs(start, before) && Enabled(After(start, before), Lookup(c))
    requires var s := Next(After(start, before), Lookup(c));
             && c in s.calls && s.calls[c] == Exchange(code, Read(id)) && Runs(s, after)
             && id in After(s, after).codes && Finished(After(s, after), code)
    ensures multiset(After(Next(After(start, before), Lookup(c)), after).issued)[code] == 1
  {
    var s0 := After(start, before);
    var s := Next(s0, Lookup(c));
    var e := After(s, after);
    assert ClaimedCalls(start, code) == {};
    RunSafe(start, before, code);
    ReadUnderWay(s0, c, code, id);
    StepSafe(s0, Lookup(c), code);
    RunUnderWay(s, after, code, id);
    RunSafe(s, after, code);
    assert ClaimedCalls(e, code) == {};
    if r :| r in e.calls && e.calls[r].phase == Read(id) { assert e.calls[r].code == code; }
  }

  lemma ReadUnderWay(s: State, c: CallId, code: Token, id: CodeId)
    requires Safe(s, code) && Enabled(s, Lookup(c))
    requires c in Next(s, Lookup(c)).calls && Next(s, Lookup(c)).calls[c] == Exchange(code, Read(id))
    ensures UnderWay(Next(s, Lookup(c)), code, id) && id < s.nextId
  {
    assert Reading(Next(s, Lookup(c)), id);
    var ids := set i | i in s.codes && s.codes[i].hash == Sha256(code);
    assert FindCode(s.codes, Sha256(code)) == Some(id) && id in ids;
  }

  lemma FindStored(s: State, code: Token, id: CodeId)
    requires CodesKnown(s) && id in s.codes && s.codes[id].hash == Sha256(code)
    ensures FindCode(s.codes, Sha256(code)) == Some(id)
  {
    var ids := set i | i in s.codes && s.codes[i].hash == Sha256(code);
    assert id in ids;
    assert MaxOf(ids) in ids;
  }

  /** An exchange of an unused, unexpired code that nobody interrupts gets tokens. */
  lemma LoneExchangeSucceeds(s: State, c: CallId, code: Token, id: CodeId)
    requires CodesKnown(s) && c !in s.calls
    requires id in s.codes && s.codes[id].hash == Sha256(code) && Usable(s.codes[id], s.now)
    ensures var steps := [Begin(c, code), Lookup(c), Claim(c), Issue(c)];
            Runs(s, steps) && After(s, steps).issued == s.issued + [code] && After(s, steps).calls == s.calls
  {
    FindStored(s, code, id);
    var s1 := Next(s, Begin(c, code));
    var s2 := Next(s1, Lookup(c));
    var s3 := Next(s2, Claim(c));
    var s4 := Next(s3, Issue(c));
    ThenRun(s3, Issue(c), []);
    ThenRun(s2, Claim(c), [Issue(c)]);
    ThenRun(s1, Lookup(c), [Claim(c), Issue(c)]);
    ThenRun(s, Begin(c, code), [Lookup(c), Claim(c), Issue(c)]);
    assert [Begin(c, code)] + [Lookup(c), Claim(c), Issue(c)] == [Begin(c, code), Lookup(c), Claim(c), Issue(c)];
    assert s4.calls == s.calls;
  }

  lemma ThenRun(s: State, step: Step, rest: seq<Step>)
    requires Enabled(s, step) && Runs(Next(s, step), rest)
    ensures Runs(s, [step] + rest) && After(s, [step] + rest) == After(Next(s, step), rest)
  {
    assert ([step] + rest)[1..] == rest;
  }

  // ----- how long a code is good for -----

  /** The code is stored in this row only, as it was minted, until the sweep after its deadline. */
  ghost predicate MintedAs(s: State, code: Token, user: UserId, id: CodeId, deadline: int)
  {
    && code in s.minted && id < s.nextId && (id !in s.codes ==> deadline < s.now)
    && (id in s.codes ==> s.codes[id] == Code(Sha256(code), user, deadline, s.codes[id].usedAt))
    && (forall j :: j in s.codes && j != id ==> s.codes[j].hash != Sha256(code))
  }

  lemma StepMinted(s: State, step: Step, code: Token, user: UserId, id: CodeId, deadline: int)
    requires MintedAs(s, code, user, id, deadline) && Enabled(s, step)
    ensures MintedAs(Next(s, step), code, user, id, deadline)
  {
  }

  lemma {:induction false} RunMinted(s: State, steps: seq<Step>, code: Token, user: UserId, id: CodeId, deadline: int)
    requires MintedAs(s, code, user, id, deadline) && Runs(s, steps)
    ensures MintedAs(After(s, steps), code, user, id, deadline)
    decreases |steps|
  {
    hide MintedAs;
    if steps != [] {
      StepMinted(s, steps[0], code, user, id, deadline);
      RunMinted(Next(s, steps[0]), steps[1..], code, user, id, deadline);
    }
  }

  /** Whatever happens in between, a look-up of a code finds it good exactly when it is unused and at most a minute
      old; until then its row is there, and it is its user's. */
  lemma CodeWindow(s: State, code: Token, user: UserId, steps: seq<Step>, c: CallId)
    requires CodesKnown(s) && Enabled(s, Mint(code, user)) && Runs(Next(s, Mint(code, user)), steps)
    requires var e := After(Next(s, Mint(code, user)), steps); Enabled(e, Lookup(c)) && e.calls[c].code == code
    ensures var e := After(Next(s, Mint(code, user)), steps);
            && (e.now <= s.now + 60 * 1000 ==> s.nextId in e.codes && e.codes[s.nextId].userId == user)
            && (c in Next(e, Lookup(c)).calls <==>
                  e.now <= s.now + 60 * 1000 && e.codes[s.nextId].usedAt.None?)
            && (c in Next(e, Lookup(c)).calls ==> Next(e, Lookup(c)).calls[c] == Exchange(code, Read(s.nextId)))
  {
    var s1 := Next(s, Mint(code, user));
    RunMinted(s1, steps, code, user, s.nextId, s.now + GOOGLE_AUTH_CODE_TTL_MS);
    hide Runs;
  }
}
