/** When an accepted promise of a seat is refused: exactly when the limit then in force does not cover the
    members and the invites still to be accepted. */
module SeatPromises {
  import opened Seqs
  import opened External
  import opened Organizations
  import opened OrganizationRuns

  predicate Accepting(call: Call) { call.AcceptInvite? || call.AcceptAs? }

  /** The user this acceptance would make a member. */
  function Joiner(s: State, call: Call): Option<UserId>
    requires Accepting(call) && call.token in s.invites
  {
    var email := s.invites[call.token].email;
    match call
    case AcceptAs(_, user, _) => if user in s.users && Lower(s.users[user]) == Lower(email) then Some(user) else None
    case _ => UserByEmail(s.users, email)
  }

  /** A valid invite of this organization, accepted by a known user who is not yet a member, under limit v. */
  predicate Ready(s: State, org: OrgId, v: int, call: Call)
  {
    && Accepting(call) && call.plan == Some(v) && InviteProblem(s, call.token).None? && s.invites[call.token].org == org
    && Joiner(s, call).Some? && FindMember(s.members, org, Joiner(s, call).value).None?
  }

  // ----- one acceptance -----

  /** Such an acceptance is refused for lack of seats exactly when the limit is positive and the members reach
      it; otherwise it turns the invite into a membership. */
  lemma RefusedIff(s: State, org: OrgId, v: int, call: Call)
    requires Ready(s, org, v, call)
    ensures var (s', result) := Apply(s, call);
            && (result == Fail(UserLimitReached) <==> 1 <= v <= |MembersOf(s, org)|)
            && (result != Fail(UserLimitReached) ==>
                  && result == Done && s' == s.(members := s'.members, invites := s'.invites,
                                                nextMember := s.nextMember + 1)
                  && s'.members ==
                     s.members[s.nextMember := Member(org, Joiner(s, call).value, s.invites[call.token].role)]
                  && s'.invites == s.invites[call.token := s.invites[call.token].(status := Accepted)])
  {
    hide MembersOf, Lower;
  }

  // ----- acceptances in order -----

  /** Acceptances of different invites by different users, each ready at s. */
  ghost predicate Line(s: State, org: OrgId, v: int, accepts: seq<Call>)
  {
    && (forall i :: 0 <= i < |accepts| ==> Ready(s, org, v, accepts[i]))
    && (forall i, j :: 0 <= i < j < |accepts| ==>
          accepts[i].token != accepts[j].token && Joiner(s, accepts[i]) != Joiner(s, accepts[j]))
  }

  /** None of the acceptances, made in this order, is refused for lack of seats. */
  ghost predicate NoneRefused(s: State, accepts: seq<Call>)
    decreases |accepts|
  {
    accepts != [] ==>
      Accepting(accepts[0]) && Apply(s, accepts[0]).1 != Fail(UserLimitReached)
        && NoneRefused(Next(s, accepts[0]), accepts[1..])
  }

  lemma StaysReady(s: State, org: OrgId, v: int, first: Call, other: Call)
    requires Sound(s) && Ready(s, org, v, first) && Ready(s, org, v, other) && first.token != other.token
    requires Joiner(s, first) != Joiner(s, other) && Apply(s, first).1 != Fail(UserLimitReached)
    ensures Ready(Next(s, first), org, v, other) && Joiner(Next(s, first), other) == Joiner(s, other)
  {
    hide MembersOf, Lower, UserByEmail;
    RefusedIff(s, org, v, first);
    var s', u := Next(s, first), Joiner(s, other).value;
    assert Joiner(s', other) == Joiner(s, other);
    assert s.nextMember !in s.members;
    assert Rows(s'.members, org, u) == Rows(s.members, org, u);
  }

  lemma LineStep(s: State, org: OrgId, v: int, accepts: seq<Call>)
    requires Sound(s) && Line(s, org, v, accepts) && accepts != [] && Accepting(accepts[0])
    requires Apply(s, accepts[0]).1 != Fail(UserLimitReached)
    ensures Line(Next(s, accepts[0]), org, v, accepts[1..])
    ensures |MembersOf(Next(s, accepts[0]), org)| == |MembersOf(s, org)| + 1
  {
    hide Sound, MembersOf, Apply, Joiner;
    var s', rest := Next(s, accepts[0]), accepts[1..];
    assert Ready(s, org, v, accepts[0]);
    forall i | 0 <= i < |rest|
      ensures Ready(s, org, v, rest[i]) && Ready(s', org, v, rest[i]) && Joiner(s', rest[i]) == Joiner(s, rest[i])
    {
      assert Ready(s, org, v, accepts[i + 1]);
      StaysReady(s, org, v, accepts[0], accepts[i + 1]);
    }
    OneMore(s, org, v, accepts[0]);
  }

  lemma OneMore(s: State, org: OrgId, v: int, call: Call)
    requires Sound(s) && Ready(s, org, v, call) && Apply(s, call).1 != Fail(UserLimitReached)
    ensures |MembersOf(Next(s, call), org)| == |MembersOf(s, org)| + 1
  {
    RefusedIff(s, org, v, call);
    assert s.nextMember !in s.members;
    assert MembersOf(Next(s, call), org) == MembersOf(s, org) + {s.nextMember};
  }

  /** In whatever order, none is refused exactly when the limit is not positive or covers the members and all
      of the acceptances. */
  lemma {:induction false} NoneRefusedIff(s: State, org: OrgId, v: int, accepts: seq<Call>)
    requires Sound(s) && Line(s, org, v, accepts)
    ensures NoneRefused(s, accepts) <==> accepts == [] || v <= 0 || |MembersOf(s, org)| + |accepts| <= v
    decreases |accepts|
  {
    hide Sound, MembersOf, Apply, Joiner, InviteProblem;
    if accepts != [] {
      assert Ready(s, org, v, accepts[0]);
      RefusedIff(s, org, v, accepts[0]);
      if Apply(s, accepts[0]).1 != Fail(UserLimitReached) {
        StepSound(s, accepts[0]);
        LineStep(s, org, v, accepts);
        NoneRefusedIff(Next(s, accepts[0]), org, v, accepts[1..]);
      }
    }
  }

  function TokenOf(call: Call): InviteToken { if call.AcceptInvite? || call.AcceptAs? then call.token else 0 }

  /** What a caller can check before setting a limit: every order of accepting all pending invites is free of
      refusals exactly when nothing is pending, the limit is not positive, or it covers members and pending invites. */
  lemma PromisesKeptIff(s: State, org: OrgId, v: int, accepts: seq<Call>)
    requires Sound(s) && Line(s, org, v, accepts)
    requires forall t :: t in PendingOf(s, org) ==> exists i :: 0 <= i < |accepts| && accepts[i].token == t
    ensures NoneRefused(s, accepts) <==> PendingOf(s, org) == {} || v <= 0 || Seats(s, org) <= v
  {
    hide Sound, MembersOf;
    NoneRefusedIff(s, org, v, accepts);
    forall i | 0 <= i < |accepts| ensures TokenOf(accepts[i]) in PendingOf(s, org) {
      assert Ready(s, org, v, accepts[i]);
    }
    forall t | t in PendingOf(s, org) ensures t in KeySet(accepts, TokenOf) {
      var i :| 0 <= i < |accepts| && accepts[i].token == t;
      assert Ready(s, org, v, accepts[i]) && accepts[i] in accepts;
    }
    forall i, j | 0 <= i < j < |accepts| ensures TokenOf(accepts[i]) != TokenOf(accepts[j]) {
      assert Ready(s, org, v, accepts[i]) && Ready(s, org, v, accepts[j]);
    }
    assert KeySet(accepts, TokenOf) == PendingOf(s, org);
    KeySetSize(accepts, TokenOf);
  }

  // ----- limits that never change -----

  /** Every call of the run sees the same limits. */
  ghost predicate FixedPlans(s: State, calls: seq<Call>, limit: OrgId -> int)
    requires Runs(s, calls)
    decreases |calls|
  {
    calls != [] ==> PlanFits(s, calls[0], limit) && FixedPlans(Next(s, calls[0]), calls[1..], limit)
  }

  function Repeat(limit: OrgId -> int, n: nat): (r: seq<OrgId -> int>)
    ensures |r| == n && forall i :: 0 <= i < n ==> r[i] == limit
  {
    if n == 0 then [] else [limit] + Repeat(limit, n - 1)
  }

  lemma {:induction false} FixedHonoured(s: State, calls: seq<Call>, limit: OrgId -> int)
    requires Runs(s, calls) && FixedPlans(s, calls, limit)
    ensures Honoured(s, calls, Repeat(limit, |calls| + 1))
    decreases |calls|
  {
    if calls != [] {
      FixedHonoured(Next(s, calls[0]), calls[1..], limit);
      assert Repeat(limit, |calls| + 1)[1..] == Repeat(limit, |calls[1..]| + 1);
    }
  }

  /** With fixed limits no promise is ever broken. */
  lemma FixedSeatReservation(s: State, calls: seq<Call>, limit: OrgId -> int, accept: Call)
    requires Initial(s) && Runs(s, calls) && FixedPlans(s, calls, limit)
    requires Accepting(accept) && PlanFits(After(s, calls), accept, limit)
    ensures SeatsHeld(After(s, calls), limit)
    ensures Apply(After(s, calls), accept).1 != Fail(UserLimitReached)
  {
    hide Apply, SeatsHeld, PlanFits;
    FixedHonoured(s, calls, limit);
    SeatReservation(s, calls, Repeat(limit, |calls| + 1), accept);
  }

  // ----- a limit lowered too far -----

  const START := State({}, map[0 := "a", 1 := "b"], map[], map[], 0, 0, 2, 0, 0)
  const CREATED := State({0}, map[0 := "a", 1 := "b"], map[0 := Member(0, 0, OwnerRole)], map[], 0, 1, 2, 1, 0)
  const PROMISED := CREATED.(invites := map[0 := Invite(0, "b", MemberRole, Pending, INVITE_TTL)], nextToken := 1)

  lemma StartCreated()
    ensures Next(START, Create(0, Works, Works, true, Works)) == CREATED
  {
  }

  lemma CreatedPromised()
    ensures Next(CREATED, InviteMember(0, "b", MemberRole, Some(2))) == PROMISED
  {
    assert Lower("b") == "b";
    assert CREATED.users[1] == "b" && forall u :: u in CREATED.users && CREATED.users[u] == "b" ==> u == 1;
    assert MembersOf(CREATED, 0) == {0} && PendingOf(CREATED, 0) == {};
    assert Rows(CREATED.members, 0, 1) == {};
  }

  lemma PromiseRefused()
    ensures InviteProblem(PROMISED, 0).None? && Apply(PROMISED, AcceptAs(0, 1, Some(1))).1 == Fail(UserLimitReached)
  {
    assert Lower("b") == "b";
    assert MembersOf(PROMISED, 0) == {0};
    assert Rows(PROMISED.members, 0, 1) == {};
  }

  /** A reachable state in which a downgrade breaks a promise. */
  lemma DowngradeBreaksPromise()
    ensures exists s: State, calls: seq<Call>, accept: Call ::
              && Initial(s) && Runs(s, calls) && accept.AcceptAs? && InviteProblem(After(s, calls), accept.token).None?
              && Apply(After(s, calls), accept).1 == Fail(UserLimitReached)
  {
    hide Apply, InviteProblem;
    StartCreated();
    CreatedPromised();
    PromiseRefused();
    var calls := [Create(0, Works, Works, true, Works), InviteMember(0, "b", MemberRole, Some(2))];
    assert calls[1..] == [calls[1]] && calls[1..][1..] == [];
    assert Runs(PROMISED, []) && After(PROMISED, []) == PROMISED;
    assert Runs(CREATED, calls[1..]) && After(CREATED, calls[1..]) == PROMISED;
    assert Initial(START) && Runs(START, calls) && After(START, calls) == PROMISED;
    assert AcceptAs(0, 1, Some(1)).token == 0;
  }
}
