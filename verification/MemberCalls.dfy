/** When each membership, invite and user call succeeds, which error it ends with otherwise, and what it leaves:
    stated over the rows, the roles and the time. */
module MemberCalls {
  import opened Seqs
  import opened External
  import opened Organizations
  import opened OrganizationRuns

  /** OWNER above ADMIN above MEMBER above VIEWER. */
  predicate Above(a: Role, b: Role)
  {
    match a
    case OwnerRole => b != OwnerRole
    case AdminRole => b == MemberRole || b == ViewerRole
    case MemberRole => b == ViewerRole
    case ViewerRole => false
  }

  lemma LevelsRank(a: Role, b: Role)
    ensures Level(a) > Level(b) <==> Above(a, b)
  {
  }

  /** An address in lower case: the ASCII capitals change, each to its small letter. */
  lemma {:induction false} LowerEach(s: string)
    ensures |Lower(s)| == |s|
    ensures forall i :: 0 <= i < |s| ==>
      Lower(s)[i] == if 'A' <= s[i] <= 'Z' then (s[i] as int + 32) as char else s[i]
  {
    if s != "" { LowerEach(s[1..]); }
  }

  // ----- addresses -----

  /** No two users share an address. */
  ghost predicate DistinctEmails(s: State)
  {
    forall u, v :: u in s.users && v in s.users && s.users[u] == s.users[v] ==> u == v
  }

  lemma StepEmails(s: State, call: Call)
    requires DistinctEmails(s) && Sound(s) && Allowed(s, call)
    ensures DistinctEmails(Next(s, call))
  {
    hide Lower, SeatCheck, FindMember, InviteProblem, WithoutPending;
    if !call.CreateUser? && !call.ChangeEmail? && !call.RemoveUser? { SameUsers(s, call); }
  }

  lemma SameUsers(s: State, call: Call)
    requires Allowed(s, call) && !call.CreateUser? && !call.ChangeEmail? && !call.RemoveUser?
    ensures Next(s, call).users == s.users
  {
    hide Lower, SeatCheck, FindMember, InviteProblem, WithoutPending, UserByEmail;
  }

  lemma {:induction false} RunEmails(s: State, calls: seq<Call>)
    requires DistinctEmails(s) && Sound(s) && Runs(s, calls)
    ensures DistinctEmails(After(s, calls))
    decreases |calls|
  {
    hide Sound, DistinctEmails;
    if calls != [] {
      StepSound(s, calls[0]);
      StepEmails(s, calls[0]);
      RunEmails(Next(s, calls[0]), calls[1..]);
    }
  }

  /** What every call keeps. */
  ghost predicate Kept(s: State) { Sound(s) && OnePending(s) && DistinctEmails(s) }

  lemma StepKept(s: State, call: Call)
    requires Kept(s) && Allowed(s, call)
    ensures Kept(Next(s, call))
  {
    StepSound(s, call);
    StepOnePending(s, call);
    StepEmails(s, call);
  }

  /** A user is registered under this address. */
  ghost predicate Registered(s: State, email: string) { exists u :: u in s.users && s.users[u] == email }

  // ----- memberships -----

  /** The user's row in the organization. */
  ghost predicate IsMember(s: State, org: OrgId, user: UserId, m: MemberId)
  {
    m in s.members && s.members[m].org == org && s.members[m].user == user
  }

  lemma FindsMember(s: State, org: OrgId, user: UserId)
    requires Sound(s)
    ensures FindMember(s.members, org, user).None? <==> forall m :: !IsMember(s, org, user, m)
    ensures forall m: MemberId :: IsMember(s, org, user, m) ==> FindMember(s.members, org, user) == Some(m)
  {
    var found := FindMember(s.members, org, user);
    forall m: MemberId | IsMember(s, org, user, m) ensures found == Some(m) {
      assert m in Rows(s.members, org, user) && found.Some?;
      assert SameSeat(s.members[m], s.members[found.value]);
    }
    if found.Some? { assert IsMember(s, org, user, found.value); }
  }

  /** Somebody of the organization may take away this member: it is another user, no owner, and ranks below. */
  ghost predicate MayRemove(s: State, org: OrgId, target: UserId, requester: MemberId, m: MemberId)
    requires requester in s.members
  {
    && IsMember(s, org, target, m) && target != s.members[requester].user && s.members[m].role != OwnerRole
    && Above(s.members[requester].role, s.members[m].role)
  }

  /** A removal succeeds exactly when it may, and takes away exactly that row. */
  lemma RemoveMemberIff(s: State, org: OrgId, target: UserId, requester: MemberId)
    requires Sound(s) && requester in s.members && s.members[requester].org == org
    ensures var (s', result) := Apply(s, RemoveMember(org, target, requester));
            && (result == Done <==> exists m :: MayRemove(s, org, target, requester, m))
            && (result == Fail(CannotRemoveSelf) <==> target == s.members[requester].user)
            && (result == Fail(MemberNotFound) <==>
                  target != s.members[requester].user && forall m :: !IsMember(s, org, target, m))
            && (result == Fail(CannotRemoveOwner) <==>
                  target != s.members[requester].user
                  && exists m :: IsMember(s, org, target, m) && s.members[m].role == OwnerRole)
            && (result != Done ==> s' == s)
            && (forall m :: MayRemove(s, org, target, requester, m) ==> s' == s.(members := s.members - {m}))
  {
    FindsMember(s, org, target);
    hide Sound, FindMember, Level;
    var found := FindMember(s.members, org, target);
    if found.Some? {
      assert IsMember(s, org, target, found.value);
      LevelsRank(s.members[requester].role, s.members[found.value].role);
      assert Apply(s, RemoveMember(org, target, requester)).1 == Done ==>
          MayRemove(s, org, target, requester, found.value);
      assert forall m :: MayRemove(s, org, target, requester, m) ==> m == found.value;
    }
  }

  /** The requester may give the member this role: neither is the owner's, and both the old and the new rank
      below the requester's. */
  ghost predicate MayChangeRole(s: State, org: OrgId, target: UserId, role: Role, requester: MemberId, m: MemberId)
    requires requester in s.members
  {
    && IsMember(s, org, target, m) && s.members[m].role != OwnerRole
    && Above(s.members[requester].role, s.members[m].role) && Above(s.members[requester].role, role)
  }

  lemma UpdateRoleIff(s: State, org: OrgId, target: UserId, role: Role, requester: MemberId)
    requires Sound(s) && Allowed(s, UpdateRole(org, target, role, requester))
    ensures var (s', result) := Apply(s, UpdateRole(org, target, role, requester));
            && (result == Done <==> exists m :: MayChangeRole(s, org, target, role, requester, m))
            && (result == Fail(MemberNotFound) <==> forall m :: !IsMember(s, org, target, m))
            && (result == Fail(CannotChangeOwner) <==>
                  exists m :: IsMember(s, org, target, m) && s.members[m].role == OwnerRole)
            && (result != Done ==> s' == s)
            && (forall m :: MayChangeRole(s, org, target, role, requester, m) ==>
                  s' == s.(members := s.members[m := Member(org, target, role)]))
  {
    FindsMember(s, org, target);
    hide Sound, FindMember, Level;
    var found := FindMember(s.members, org, target);
    if found.Some? {
      assert IsMember(s, org, target, found.value);
      LevelsRank(s.members[requester].role, s.members[found.value].role);
      LevelsRank(s.members[requester].role, role);
      assert Apply(s, UpdateRole(org, target, role, requester)).1 == Done ==>
          MayChangeRole(s, org, target, role, requester, found.value);
    }
  }

  // ----- seats -----

  /** There is a usable plan, and it is unlimited or has a seat beyond the members and, when they count, the
      pending invites. */
  ghost predicate SeatFree(s: State, org: OrgId, plan: Option<int>, includePending: bool)
  {
    plan.Some? && (plan.value <= 0
                   || |MembersOf(s, org)| + (if includePending then |PendingOf(s, org)| else 0) < plan.value)
  }

  lemma SeatCheckIff(s: State, org: OrgId, plan: Option<int>, includePending: bool)
    ensures SeatCheck(s, org, plan, includePending) ==
            if SeatFree(s, org, plan, includePending) then None
            else if plan.None? then Some(NoActivePlan) else Some(UserLimitReached)
  {
  }

  // ----- invites -----

  /** Pending, and not overdue. */
  ghost predicate Open(s: State, t: InviteToken)
  {
    t in s.invites && s.invites[t].status == Pending && s.now <= s.invites[t].expiresAt
  }

  /** An open invite stays open as time passes exactly until its term. */
  lemma OpenUntil(s: State, t: InviteToken, elapsed: nat)
    ensures Open(Next(s, Tick(elapsed)), t) <==> Open(s, t) && s.now + elapsed <= s.invites[t].expiresAt
  {
  }

  /** The address belongs to a member of the organization. */
  ghost predicate MemberUnder(s: State, org: OrgId, email: string)
  {
    exists m :: m in s.members && s.members[m].org == org && s.members[m].user in s.users
                && s.users[s.members[m].user] == email
  }

  lemma FindsAddressee(s: State, org: OrgId, email: string)
    requires Sound(s) && DistinctEmails(s)
    ensures var u := UserByEmail(s.users, email);
            MemberUnder(s, org, email) <==> u.Some? && FindMember(s.members, org, u.value).Some?
  {
    var u := UserByEmail(s.users, email);
    if u.Some? {
      FindsMember(s, org, u.value);
      var found := FindMember(s.members, org, u.value);
      if found.Some? { assert IsMember(s, org, u.value, found.value); }
    }
    if m :| m in s.members && s.members[m].org == org && s.members[m].user in s.users
            && s.users[s.members[m].user] == email {
      assert u == Some(s.members[m].user);
      assert IsMember(s, org, u.value, m);
    }
  }

  /** An invitation succeeds exactly when the organization exists, a seat is free beyond members and pending
      invites, and the address is no member's. */
  lemma InviteMemberIff(s: State, org: OrgId, email: string, role: Role, plan: Option<int>)
    requires Sound(s) && DistinctEmails(s) && role != OwnerRole
    ensures var (s', result) := Apply(s, InviteMember(org, email, role, plan));
            var free, taken := SeatFree(s, org, plan, true), MemberUnder(s, org, Lower(email));
            && (result == Done <==> org in s.orgs && free && !taken)
            && (result == Fail(OrgNotFound) <==> org !in s.orgs)
            && (result == Fail(NoActivePlan) <==> org in s.orgs && plan.None?)
            && (result == Fail(UserLimitReached) <==> org in s.orgs && plan.Some? && !free)
            && (result == Fail(AlreadyMember) <==> org in s.orgs && free && taken)
            && (result != Done ==> s' == s)
            && (result == Done ==> s' == s.(invites := s'.invites, nextToken := s.nextToken + 1))
            && (result == Done ==> forall t :: t in s'.invites <==>
                  t == s.nextToken
                  || (t in s.invites && !(s.invites[t].org == org && s.invites[t].email == Lower(email)
                                          && s.invites[t].status == Pending)))
            && (result == Done ==> forall t :: t in s'.invites ==>
                  s'.invites[t] == if t == s.nextToken
                                   then Invite(org, Lower(email), role, Pending, s.now + 8 * 24 * 60 * 60 * 1000)
                                   else s.invites[t])
  {
    SeatCheckIff(s, org, plan, true);
    FindsAddressee(s, org, Lower(email));
    hide Sound, SeatCheck, SeatFree, FindMember, UserByEmail, Lower, MemberUnder;
  }

  /** Reading an invite: open ones are returned, accepted and unknown ones are not found, the others are expired
      and marked so. */
  lemma GetInviteIff(s: State, token: InviteToken)
    ensures var (s', result) := Apply(s, GetInvite(token));
            && (result == Done <==> Open(s, token))
            && (result == Fail(InviteNotFound) <==> token !in s.invites || s.invites[token].status == Accepted)
            && (result == Fail(InviteExpired) <==>
                  token in s.invites && s.invites[token].status != Accepted
                  && (s.invites[token].status == Expired || s.invites[token].expiresAt < s.now))
            && s' == if result == Fail(InviteExpired)
                     then s.(invites := s.invites[token := s.invites[token].(status := Expired)]) else s
  {
  }

  /** Where a join leads once invite and user are known. */
  lemma JoinIff(s: State, token: InviteToken, user: UserId, plan: Option<int>)
    requires Sound(s) && token in s.invites
    ensures var (s', result) := Join(s, token, user, plan);
            var org := s.invites[token].org;
            var member, free := (exists m :: IsMember(s, org, user, m)), SeatFree(s, org, plan, false);
            var spent := s.invites[token := s.invites[token].(status := Accepted)];
            && result == (if member then Fail(AlreadyMember) else if free then Done
                          else if plan.None? then Fail(NoActivePlan) else Fail(UserLimitReached))
            && s' == if member then s.(invites := spent)
                     else if free
                     then s.(members := s.members[s.nextMember := Member(org, user, s.invites[token].role)],
                             nextMember := s.nextMember + 1, invites := spent)
                     else s
  {
    FindsMember(s, s.invites[token].org, user);
    SeatCheckIff(s, s.invites[token].org, plan, false);
    hide Sound, SeatCheck, SeatFree, FindMember;
    var found := FindMember(s.members, s.invites[token].org, user);
    if found.Some? { assert IsMember(s, s.invites[token].org, user, found.value); }
  }

  /** Accepting as a given user goes on to the join exactly when the invite is open, the user exists and the
      addresses agree but for case. */
  lemma AcceptAsIff(s: State, token: InviteToken, user: UserId, plan: Option<int>)
    ensures var outcome := Apply(s, AcceptAs(token, user, plan));
            if !Open(s, token) then outcome == Apply(s, GetInvite(token)) && outcome.1.Fail?
            else if user !in s.users then outcome == (s, Fail(UserNotFound))
            else if Lower(s.users[user]) != Lower(s.invites[token].email) then outcome == (s, Fail(EmailMismatch))
            else outcome == Join(s, token, user, plan)
  {
    hide Lower, Join;
  }

  /** Accepting by address goes on to the join of the user registered under it, and otherwise asks for a
      registration and leaves the invite open. */
  lemma AcceptInviteIff(s: State, token: InviteToken, plan: Option<int>)
    requires DistinctEmails(s)
    ensures var outcome := Apply(s, AcceptInvite(token, plan));
            && (!Open(s, token) ==> outcome == Apply(s, GetInvite(token)) && outcome.1.Fail?)
            && (Open(s, token) && !Registered(s, s.invites[token].email) ==> outcome == (s, NeedsRegistration))
            && (forall u :: Open(s, token) && u in s.users && s.users[u] == s.invites[token].email ==>
                  outcome == Join(s, token, u, plan))
  {
    hide Join;
    if Open(s, token) {
      var found := UserByEmail(s.users, s.invites[token].email);
      if found.Some? { assert Registered(s, s.invites[token].email); }
    }
  }

  /** The cleanup deletes exactly the overdue invites already marked EXPIRED. */
  lemma CleanupIff(s: State)
    ensures var s' := Next(s, Cleanup);
            && s' == s.(invites := s'.invites)
            && (forall t :: t in s'.invites <==>
                  t in s.invites && (s.invites[t].status != Expired || s.now <= s.invites[t].expiresAt))
            && (forall t :: t in s'.invites ==> s'.invites[t] == s.invites[t])
  {
  }

  /** The user may join through this invite: it is open, and the user is no member and finds a seat. */
  ghost predicate MayJoin(s: State, token: InviteToken, user: UserId, plan: Option<int>)
  {
    && Open(s, token) && user in s.users && SeatFree(s, s.invites[token].org, plan, false)
    && forall m :: !IsMember(s, s.invites[token].org, user, m)
  }

  lemma AcceptDoneIff(s: State, token: InviteToken, user: UserId, plan: Option<int>)
    requires Sound(s) && DistinctEmails(s)
    ensures Apply(s, AcceptAs(token, user, plan)).1 == Done <==>
            MayJoin(s, token, user, plan) && Lower(s.users[user]) == Lower(s.invites[token].email)
    ensures Apply(s, AcceptInvite(token, plan)).1 == Done <==>
            exists u :: MayJoin(s, token, u, plan) && s.users[u] == s.invites[token].email
  {
    AcceptAsIff(s, token, user, plan);
    AcceptInviteIff(s, token, plan);
    hide Sound, Apply, Lower, SeatFree, IsMember, Join, DistinctEmails;
    if Open(s, token) {
      forall u ensures Join(s, token, u, plan).1 == Done && u in s.users <==> MayJoin(s, token, u, plan) {
        JoinIff(s, token, u, plan);
      }
    }
  }

  // ----- users -----

  /** A deletion succeeds exactly for an existing user who asks for it and is a member of nothing. */
  lemma RemoveUserIff(s: State, id: UserId, requester: UserId)
    ensures var (s', result) := Apply(s, RemoveUser(id, requester));
            var member := exists m :: m in s.members && s.members[m].user == id;
            && (result == Done <==> id == requester && id in s.users && !member)
            && (result == Fail(InsufficientPermissions) <==> id != requester)
            && (result == Fail(StillMember) <==> id == requester && member)
            && (result == Fail(UserNotFound) <==> id == requester && !member && id !in s.users)
            && s' == if result == Done then s.(users := s.users - {id}) else s
  {
    var rows := set m | m in s.members && s.members[m].user == id;
    if m :| m in s.members && s.members[m].user == id { assert m in rows; }
    if m :| m in rows { assert m in s.members && s.members[m].user == id; }
    assert rows == {} ==> forall m :: m in s.members ==> s.members[m].user != id;
  }

  lemma CreateUserIff(s: State, email: string)
    ensures var (s', result) := Apply(s, CreateUser(email));
            && result == (if Registered(s, Lower(email)) then Fail(EmailTaken) else Done)
            && s' == if result == Done then s.(users := s.users[s.nextUser := Lower(email)],
                                               nextUser := s.nextUser + 1)
                     else s
  {
    hide Lower;
    var found := UserByEmail(s.users, Lower(email));
    if found.Some? { assert Registered(s, Lower(email)); }
  }

  /** An address changes exactly when the user exists and nobody else has it. */
  lemma ChangeEmailIff(s: State, user: UserId, email: string)
    requires DistinctEmails(s)
    ensures var (s', result) := Apply(s, ChangeEmail(user, email));
            var taken := exists u :: u in s.users && u != user && s.users[u] == Lower(email);
            && result == (if user !in s.users then Fail(UserNotFound) else if taken then Fail(EmailTaken) else Done)
            && s' == if result == Done then s.(users := s.users[user := Lower(email)]) else s
  {
    hide Lower;
  }
}
