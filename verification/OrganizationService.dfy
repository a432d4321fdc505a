/** The organization and user services as methods over their tables, proved to do exactly what the
    calls of module Organizations do. */
module OrganizationServices {
  import opened Seqs
  import opened External
  import opened Organizations
  import opened OrganizationRuns
  import opened MemberCalls

  class Service {
    var orgs: set<OrgId>
    var users: map<UserId, string>
    var members: map<MemberId, Member>
    var invites: map<InviteToken, Invite>
    var now: int
    var nextOrg: OrgId
    var nextUser: UserId
    var nextMember: MemberId
    var nextToken: InviteToken

    ghost function Tables(): State
      reads this
    {
      State(orgs, users, members, invites, now, nextOrg, nextUser, nextMember, nextToken)
    }

    /** What every run keeps, so that the results about runs hold of this service. */
    ghost predicate Valid()
      reads this
    {
      Kept(Tables())
    }

    constructor ()
      ensures Valid() && Tables() == State({}, map[], map[], map[], 0, 0, 0, 0, 0)
    {
      orgs, users, members, invites := {}, map[], map[], map[];
      now, nextOrg, nextUser, nextMember, nextToken := 0, 0, 0, 0, 0;
    }

    /** Delete an organization; foreign keys cascade. */
    method DeleteOrganization(id: OrgId)
      modifies this
      ensures Tables() == DropOrg(old(Tables()), id)
    {
      orgs := orgs - {id};
      members := map m | m in members && members[m].org != id :: members[m];
      invites := map t | t in invites && invites[t].org != id :: invites[t];
    }

    /** `rest` tells whether the owner lookup and billing succeed; a refused cleanup is only logged. */
    method CreateOrganization(creator: UserId, save: Outcome, saveOwner: Outcome, rest: bool, undo: Outcome)
      returns (r: Result)
      requires Valid()
      modifies this
      ensures Valid() && (Tables(), r) == Apply(old(Tables()), Create(creator, save, saveOwner, rest, undo))
      ensures Ownerless(Tables(), old(nextOrg)) <==>
                Orphans(old(Tables()), Create(creator, save, saveOwner, rest, undo))
    {
      ghost var call := Create(creator, save, saveOwner, rest, undo);
      StepKept(Tables(), call);
      OrphanedIff(Tables(), call);
      hide Kept, Ownerless, Orphans;
      if save == Refused { return Fail(CreationFailed); }
      var id := nextOrg;
      orgs, nextOrg := orgs + {id}, nextOrg + 1;
      if save == Lost { return Fail(CreationFailed); }
      if creator in users && saveOwner != Refused {
        members, nextMember := members[nextMember := Member(id, creator, OwnerRole)], nextMember + 1;
        if saveOwner == Works && rest { return Done; }
      }
      if undo != Refused { DeleteOrganization(id); }
      r := Fail(CreationFailed);
    }

    /** Throws when the plan leaves no seat. */
    method EnsureCanAddUser(org: OrgId, plan: Option<int>, includePending: bool) returns (refused: Option<Error>)
      ensures refused == SeatCheck(Tables(), org, plan, includePending)
    {
      if plan.None? { return Some(NoActivePlan); }
      var maxUsers := plan.value;
      if maxUsers <= 0 { return None; }
      var joined := set m | m in members && members[m].org == org;
      assert joined == MembersOf(Tables(), org);
      var current := |joined|;
      if !includePending {
        return if current >= maxUsers then Some(UserLimitReached) else None;
      }
      var promised := set t | t in invites && invites[t].org == org && invites[t].status == Pending;
      assert promised == PendingOf(Tables(), org);
      refused := if current + |promised| >= maxUsers then Some(UserLimitReached) else None;
    }

    method Invite(org: OrgId, email: string, role: Role, plan: Option<int>) returns (r: Result)
      requires Valid() && role != OwnerRole
      modifies this
      ensures Valid() && (Tables(), r) == Apply(old(Tables()), InviteMember(org, email, role, plan))
      ensures r == Done <==>
                && org in orgs && SeatFree(old(Tables()), org, plan, true)
                && !MemberUnder(old(Tables()), org, Lower(email))
      ensures r == Done ==> OnlyInvite(Tables(), old(nextToken))
      ensures r == Done ==> invites[old(nextToken)] == Organizations.Invite(org, Lower(email), role, Pending,
          now + INVITE_TTL)
    {
      ghost var call := InviteMember(org, email, role, plan);
      InviteMemberIff(Tables(), org, email, role, plan);
      StepKept(Tables(), call);
      if Apply(Tables(), call).1 == Done { InviteReplaces(Tables(), call); }
      hide Kept, OnlyInvite, WithoutPending, Lower, UserByEmail, MemberUnder, SeatFree;
      if org !in orgs { return Fail(OrgNotFound); }
      var refused := EnsureCanAddUser(org, plan, true);
      if refused.Some? { return Fail(refused.value); }
      var existing := UserByEmail(users, Lower(email));
      if existing.Some? {
        var member := FindMember(members, org, existing.value);
        if member.Some? { return Fail(AlreadyMember); }
      }
      // an earlier pending invite for this address is replaced
      invites := WithoutPending(invites, org, Lower(email));
      invites := invites[nextToken := Organizations.Invite(org, Lower(email), role, Pending, now + INVITE_TTL)];
      nextToken := nextToken + 1;
      r := Done;
    }

    /** getInviteByToken: a valid invite is pending and not overdue. */
    method InviteByToken(token: InviteToken) returns (problem: Option<Error>)
      requires Valid()
      modifies this
      ensures Valid() && Tables() == AfterLookup(old(Tables()), token) && problem == InviteProblem(old(Tables()), token)
      ensures problem.None? ==> token in invites && invites[token].status == Pending && now <= invites[token].expiresAt
    {
      StepKept(Tables(), GetInvite(token));
      hide Kept;
      if token !in invites || invites[token].status == Accepted { return Some(InviteNotFound); }
      var invite := invites[token];
      if invite.status == Expired || invite.expiresAt < now {
        if invite.status != Expired {
          invites := invites[token := invite.(status := Expired)];
        }
        assert invites == old(invites)[token := invite.(status := Expired)];
        return Some(InviteExpired);
      }
      problem := None;
    }

    /** The common end of both ways to accept. */
    method JoinThrough(token: InviteToken, user: UserId, plan: Option<int>) returns (r: Result)
      requires token in invites
      modifies this
      ensures (Tables(), r) == Join(old(Tables()), token, user, plan)
    {
      var invite := invites[token];
      var already := FindMember(members, invite.org, user);
      if already.Some? {
        invites := invites[token := invite.(status := Accepted)];
        return Fail(AlreadyMember);
      }
      var refused := EnsureCanAddUser(invite.org, plan, false);
      if refused.Some? { return Fail(refused.value); }
      members, nextMember := members[nextMember := Member(invite.org, user, invite.role)], nextMember + 1;
      invites := invites[token := invite.(status := Accepted)];
      r := Done;
    }

    method Accept(token: InviteToken, plan: Option<int>) returns (r: Result)
      requires Valid()
      modifies this
      ensures Valid() && (Tables(), r) == Apply(old(Tables()), AcceptInvite(token, plan))
      ensures r == Done <==> exists u :: MayJoin(old(Tables()), token, u, plan) && users[u] == old(invites)[token].email
    {
      AcceptDoneIff(Tables(), token, 0, plan);
      StepKept(Tables(), AcceptInvite(token, plan));
      hide Kept;
      var problem := InviteByToken(token);
      if problem.Some? { return Fail(problem.value); }
      var user := UserByEmail(users, invites[token].email);
      if user.None? { return NeedsRegistration; }
      r := JoinThrough(token, user.value, plan);
    }

    method AcceptWithUserId(token: InviteToken, user: UserId, plan: Option<int>) returns (r: Result)
      requires Valid()
      modifies this
      ensures Valid() && (Tables(), r) == Apply(old(Tables()), AcceptAs(token, user, plan))
      ensures r == Done <==>
                MayJoin(old(Tables()), token, user, plan) && Lower(users[user]) == Lower(old(invites)[token].email)
    {
      AcceptDoneIff(Tables(), token, user, plan);
      StepKept(Tables(), AcceptAs(token, user, plan));
      hide Kept;
      var problem := InviteByToken(token);
      if problem.Some? { return Fail(problem.value); }
      if user !in users { return Fail(UserNotFound); }
      if Lower(users[user]) != Lower(invites[token].email) { return Fail(EmailMismatch); }
      r := JoinThrough(token, user, plan);
    }

    method LeaveOrganization(org: OrgId, user: UserId) returns (r: Result)
      requires Valid()
      modifies this
      ensures Valid() && (Tables(), r) == Apply(old(Tables()), Leave(org, user))
      ensures r == Done <==> Rows(old(members), org, user) != {} && !OwnedBy(old(Tables()), org, user)
      ensures members == if r == Done then old(members) - Rows(old(members), org, user) else old(members)
    {
      LeaveIff(Tables(), org, user);
      StepKept(Tables(), Leave(org, user));
      hide Kept;
      var membership := FindMember(members, org, user);
      if membership.None? { return Fail(MemberNotFound); }
      if members[membership.value].role == OwnerRole { return Fail(OwnerCannotLeave); }
      members := members - {membership.value};
      r := Done;
    }

    method Remove(org: OrgId, target: UserId, requester: MemberId) returns (r: Result)
      requires Valid() && requester in members && members[requester].org == org
      modifies this
      ensures Valid() && (Tables(), r) == Apply(old(Tables()), RemoveMember(org, target, requester))
      ensures r == Done <==> exists m :: MayRemove(old(Tables()), org, target, requester, m)
      ensures forall m :: MayRemove(old(Tables()), org, target, requester, m) ==> members == old(members) - {m}
    {
      RemoveMemberIff(Tables(), org, target, requester);
      StepKept(Tables(), RemoveMember(org, target, requester));
      hide Kept;
      if target == members[requester].user { return Fail(CannotRemoveSelf); }
      var row := FindMember(members, org, target);
      if row.None? { return Fail(MemberNotFound); }
      var member := members[row.value];
      if member.role == OwnerRole { return Fail(CannotRemoveOwner); }
      if Level(members[requester].role) <= Level(member.role) { return Fail(InsufficientRole); }
      members := members - {row.value};
      r := Done;
    }

    method UpdateMemberRole(org: OrgId, target: UserId, role: Role, requester: MemberId) returns (r: Result)
      requires Valid() && role != OwnerRole && requester in members && members[requester].org == org
      modifies this
      ensures Valid() && (Tables(), r) == Apply(old(Tables()), UpdateRole(org, target, role, requester))
      ensures r == Done <==> exists m :: MayChangeRole(old(Tables()), org, target, role, requester, m)
      ensures forall m :: MayChangeRole(old(Tables()), org, target, role, requester, m) ==>
                members == old(members)[m := Member(org, target, role)]
    {
      UpdateRoleIff(Tables(), org, target, role, requester);
      StepKept(Tables(), UpdateRole(org, target, role, requester));
      hide Kept;
      var row := FindMember(members, org, target);
      if row.None? { return Fail(MemberNotFound); }
      var member := members[row.value];
      if member.role == OwnerRole { return Fail(CannotChangeOwner); }
      var requesterLevel := Level(members[requester].role);
      if requesterLevel <= Level(member.role) { return Fail(InsufficientRole); }
      if Level(role) >= requesterLevel { return Fail(InsufficientRole); }
      members := members[row.value := member.(role := role)];
      r := Done;
    }

    method RemoveOrganization(org: OrgId, user: UserId) returns (r: Result)
      requires Valid()
      modifies this
      ensures Valid() && (Tables(), r) == Apply(old(Tables()), RemoveOrg(org, user))
      ensures r == Done <==> OwnedBy(old(Tables()), org, user)
      ensures r == Done ==> org !in orgs && MembersOf(Tables(), org) == {}
    {
      RemoveOrgIff(Tables(), org, user);
      StepKept(Tables(), RemoveOrg(org, user));
      hide Kept;
      var membership := FindMember(members, org, user);
      if membership.None? { return Fail(NoAccess); }
      if members[membership.value].role != OwnerRole { return Fail(InsufficientPermissions); }
      DeleteOrganization(org);
      r := Done;
    }

    method CleanupExpiredInvites()
      requires Valid()
      modifies this
      ensures Valid() && Tables() == Next(old(Tables()), Cleanup)
      ensures forall t :: InviteProblem(Tables(), t).None? <==> InviteProblem(old(Tables()), t).None?
      ensures forall t :: t in invites <==>
                && t in old(invites)
                && (old(invites)[t].status != Expired || now <= old(invites)[t].expiresAt)
    {
      StepKept(Tables(), Cleanup);
      hide Kept;
      invites := map t | t in invites && !(invites[t].status == Expired && invites[t].expiresAt < now) :: invites[t];
    }

    /** A user may delete only itself, and only once it belongs to no organization. */
    method RemoveInScope(id: UserId, requester: UserId) returns (r: Result)
      requires Valid()
      modifies this
      ensures Valid() && (Tables(), r) == Apply(old(Tables()), RemoveUser(id, requester))
      ensures r == Done <==>
                id == requester && id in old(users) && forall m :: m in members ==> members[m].user != id
      ensures users == if r == Done then old(users) - {id} else old(users)
    {
      RemoveUserIff(Tables(), id, requester);
      StepKept(Tables(), RemoveUser(id, requester));
      hide Kept;
      if id != requester { return Fail(InsufficientPermissions); }
      if (set m | m in members && members[m].user == id) != {} { return Fail(StillMember); }
      if id !in users { return Fail(UserNotFound); }
      users := users - {id};
      r := Done;
    }
  }
}
