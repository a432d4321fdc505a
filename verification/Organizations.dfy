/** Organizations, memberships and invites: what each service call does to the tables, and what
    every run of calls keeps. Each call is one step. */
module Organizations {
  import opened Seqs
  import opened External

  type OrgId = nat
  type UserId = nat
  type MemberId = nat
  type InviteToken = nat

  datatype Role = OwnerRole | AdminRole | MemberRole | ViewerRole
  datatype Member = Member(org: OrgId, user: UserId, role: Role)
  datatype Status = Pending | Accepted | Expired
  datatype Invite = Invite(org: OrgId, email: string, role: Role, status: Status, expiresAt: int)

  datatype Error =
    | OrgNotFound | NoAccess | InsufficientPermissions | MemberNotFound | OwnerCannotLeave
    | InviteNotFound | InviteExpired | AlreadyMember | UserNotFound | EmailMismatch
    | CannotRemoveSelf | CannotRemoveOwner | CannotChangeOwner | InsufficientRole
    | NoActivePlan | UserLimitReached | StillMember | EmailTaken | CreationFailed

  datatype Result = Done | NeedsRegistration | Fail(error: Error)

  const INVITE_TTL: int := 8 * 24 * 60 * 60 * 1000

  /** The tables and the next unused row numbers (ids and tokens are random UUIDs). */
  datatype State = State(
    orgs: set<OrgId>, users: map<UserId, string>, members: map<MemberId, Member>, invites: map<InviteToken, Invite>,
    now: int, nextOrg: OrgId, nextUser: UserId, nextMember: MemberId, nextToken: InviteToken)

  /** ROLE_HIERARCHY */
  function Level(r: Role): nat
  {
    match r
    case OwnerRole => 4
    case AdminRole => 3
    case MemberRole => 2
    case ViewerRole => 1
  }

  function Lower(s: string): string
  {
    if s == "" then "" else [if 'A' <= s[0] <= 'Z' then s[0] - 'A' + 'a' else s[0]] + Lower(s[1..])
  }

  // ----- queries -----

  function Rows(members: map<MemberId, Member>, org: OrgId, user: UserId): set<MemberId>
  {
    set m | m in members && members[m].org == org && members[m].user == user
  }

  /** memberRepository.findOne({ organizationId, userId }) */
  function FindMember(members: map<MemberId, Member>, org: OrgId, user: UserId): (r: Option<MemberId>)
    ensures r.None? <==> Rows(members, org, user) == {}
    ensures r.Some? ==> r.value in Rows(members, org, user)
  {
    var rows := Rows(members, org, user);
    if rows == {} then None else Some(MaxOf(rows))
  }

  /** userRepository.findOne({ email }) */
  function UserByEmail(users: map<UserId, string>, email: string): (r: Option<UserId>)
    ensures r.None? <==> forall u :: u in users ==> users[u] != email
    ensures r.Some? ==> r.value in users && users[r.value] == email
  {
    var rows := set u | u in users && users[u] == email;
    if u :| u in users && users[u] == email then assert u in rows; Some(MaxOf(rows)) else None
  }

  function MembersOf(s: State, org: OrgId): set<MemberId> { set m | m in s.members && s.members[m].org == org }
  function PendingOf(s: State, org: OrgId): set<InviteToken>
  {
    set t | t in s.invites && s.invites[t].org == org && s.invites[t].status == Pending
  }

  /** Delete the pending invites of one address to one organization. */
  function WithoutPending(invites: map<InviteToken, Invite>, org: OrgId, email: string): map<InviteToken, Invite>
  {
    map t | t in invites && !(invites[t].org == org && invites[t].email == email
                              && invites[t].status == Pending) :: invites[t]
  }

  /** ensureCanAddUserToOrganization: what it throws, if anything. `plan` is the maxUsers of the
      active plan, or None when there is no usable plan. */
  function SeatCheck(s: State, org: OrgId, plan: Option<int>, includePending: bool): Option<Error>
  {
    if plan.None? then Some(NoActivePlan)
    else if plan.value <= 0 then None
    else
      var taken := |MembersOf(s, org)| + if includePending then |PendingOf(s, org)| else 0;
      if taken >= plan.value then Some(UserLimitReached) else None
  }

  // ----- calls -----

  datatype Call =
    | Create(creator: UserId, save: Outcome, saveOwner: Outcome, rest: bool, undo: Outcome)
    | InviteMember(org: OrgId, email: string, role: Role, plan: Option<int>)
    | GetInvite(token: InviteToken)
    | AcceptInvite(token: InviteToken, plan: Option<int>)
    | AcceptAs(token: InviteToken, user: UserId, plan: Option<int>)
    | Leave(org: OrgId, user: UserId)
    | RemoveMember(org: OrgId, target: UserId, requester: MemberId)
    | UpdateRole(org: OrgId, target: UserId, role: Role, requester: MemberId)
    | RemoveOrg(org: OrgId, user: UserId)
    | Cleanup
    | CreateUser(email: string)
    | ChangeEmail(user: UserId, email: string)
    | RemoveUser(id: UserId, requester: UserId)
    | Tick(elapsed: nat)

  /** What controllers and DTOs guarantee: no role argument is OWNER, and the requester's membership
      is the one the tenant guard resolved for this organization. */
  predicate Allowed(s: State, call: Call)
  {
    match call
    case InviteMember(_, _, role, _) => role != OwnerRole
    case RemoveMember(org, _, requester) => requester in s.members && s.members[requester].org == org
    case UpdateRole(org, _, role, requester) => role != OwnerRole && requester in s.members
      && s.members[requester].org == org
    case _ => true
  }

  /** Deleting an organization cascades to its memberships and invites. */
  function DropOrg(s: State, org: OrgId): State
  {
    s.(orgs := s.orgs - {org},
       members := map m | m in s.members && s.members[m].org != org :: s.members[m],
       invites := map t | t in s.invites && s.invites[t].org != org :: s.invites[t])
  }

  /** getInviteByToken: the error, if any; an overdue invite becomes EXPIRED. */
  function InviteProblem(s: State, token: InviteToken): Option<Error>
  {
    if token !in s.invites || s.invites[token].status == Accepted then Some(InviteNotFound)
    else if s.invites[token].status == Expired || s.invites[token].expiresAt < s.now then Some(InviteExpired)
    else None
  }

  function AfterLookup(s: State, token: InviteToken): State
  {
    if InviteProblem(s, token) == Some(InviteExpired)
    then s.(invites := s.invites[token := s.invites[token].(status := Expired)])
    else s
  }

  /** Joining through a valid invite, once the user is known. */
  function Join(s: State, token: InviteToken, user: UserId, plan: Option<int>): (State, Result)
    requires token in s.invites
  {
    var invite := s.invites[token];
    var accepted := s.invites[token := invite.(status := Accepted)];
    if FindMember(s.members, invite.org, user).Some? then (s.(invites := accepted), Fail(AlreadyMember))
    else
      match SeatCheck(s, invite.org, plan, false)
      case Some(e) => (s, Fail(e))
      case None => (s.(members := s.members[s.nextMember := Member(invite.org, user, invite.role)],
                       nextMember := s.nextMember + 1, invites := accepted), Done)
  }

  /** The owner row is stored unless its save is refused; the foreign key refuses an owner that is no user. */
  predicate StoresOwner(s: State, call: Call)
    requires call.Create?
  {
    call.creator in s.users && call.saveOwner != Refused
  }

  function WithOrg(s: State): State { s.(orgs := s.orgs + {s.nextOrg}, nextOrg := s.nextOrg + 1) }

  function WithOwner(s: State, org: OrgId, user: UserId): State
  {
    s.(members := s.members[s.nextMember := Member(org, user, OwnerRole)], nextMember := s.nextMember + 1)
  }

  /** Save the organization, save the owner, then the owner lookup and billing (`rest`); a failure after the
      first save tries to delete the organization again, and a failure of that is only logged. */
  function CreateOrg(s: State, call: Call): (State, Result)
    requires call.Create?
  {
    if call.save == Refused then (s, Fail(CreationFailed))
    else if call.save == Lost then (WithOrg(s), Fail(CreationFailed))
    else
      var saved := if StoresOwner(s, call) then WithOwner(WithOrg(s), s.nextOrg, call.creator) else WithOrg(s);
      if StoresOwner(s, call) && call.saveOwner == Works && call.rest then (saved, Done)
      else (if call.undo == Refused then saved else DropOrg(saved, s.nextOrg), Fail(CreationFailed))
  }

  function Apply(s: State, call: Call): (State, Result)
    requires Allowed(s, call)
  {
    match call
    case Create(_, _, _, _, _) => CreateOrg(s, call)
    case InviteMember(org, email, role, plan) =>
      if org !in s.orgs then (s, Fail(OrgNotFound))
      else
        (match SeatCheck(s, org, plan, true)
         case Some(e) => (s, Fail(e))
         case None =>
           var existing := UserByEmail(s.users, Lower(email));
           if existing.Some? && FindMember(s.members, org, existing.value).Some? then (s, Fail(AlreadyMember))
           else
             (s.(invites := WithoutPending(s.invites, org, Lower(email))[s.nextToken := Invite(org, Lower(email), role,
                 Pending, s.now + INVITE_TTL)],
               nextToken := s.nextToken + 1), Done))
    case GetInvite(token) =>
      (AfterLookup(s, token), if InviteProblem(s, token).Some? then Fail(InviteProblem(s, token).value) else Done)
    case AcceptInvite(token, plan) =>
      if InviteProblem(s, token).Some? then (AfterLookup(s, token), Fail(InviteProblem(s, token).value))
      else
        (match UserByEmail(s.users, s.invites[token].email)
         case None => (s, NeedsRegistration)
         case Some(u) => Join(s, token, u, plan))
    case AcceptAs(token, user, plan) =>
      if InviteProblem(s, token).Some? then (AfterLookup(s, token), Fail(InviteProblem(s, token).value))
      else if user !in s.users then (s, Fail(UserNotFound))
      else if Lower(s.users[user]) != Lower(s.invites[token].email) then (s, Fail(EmailMismatch))
      else Join(s, token, user, plan)
    case Leave(org, user) =>
      (match FindMember(s.members, org, user)
       case None => (s, Fail(MemberNotFound))
       case Some(m) => if s.members[m].role == OwnerRole then (s, Fail(OwnerCannotLeave))
                       else (s.(members := s.members - {m}), Done))
    case RemoveMember(org, target, requester) =>
      if target == s.members[requester].user then (s, Fail(CannotRemoveSelf))
      else
        (match FindMember(s.members, org, target)
         case None => (s, Fail(MemberNotFound))
         case Some(m) =>
           if s.members[m].role == OwnerRole then (s, Fail(CannotRemoveOwner))
           else if Level(s.members[requester].role) <= Level(s.members[m].role) then (s, Fail(InsufficientRole))
           else (s.(members := s.members - {m}), Done))
    case UpdateRole(org, target, role, requester) =>
      (match FindMember(s.members, org, target)
       case None => (s, Fail(MemberNotFound))
       case Some(m) =>
         var level := Level(s.members[requester].role);
         if s.members[m].role == OwnerRole then (s, Fail(CannotChangeOwner))
         else if level <= Level(s.members[m].role) || Level(role) >= level then (s, Fail(InsufficientRole))
         else (s.(members := s.members[m := s.members[m].(role := role)]), Done))
    case RemoveOrg(org, user) =>
      (match FindMember(s.members, org, user)
       case None => (s, Fail(NoAccess))
       case Some(m) => if s.members[m].role != OwnerRole then (s, Fail(InsufficientPermissions))
                       else (DropOrg(s, org), Done))
    case Cleanup =>
      (s.(invites := map t | t in s.invites && !(s.invites[t].status == Expired
                                                 && s.invites[t].expiresAt < s.now) :: s.invites[t]), Done)
    case CreateUser(email) =>
      if UserByEmail(s.users, Lower(email)).Some? then (s, Fail(EmailTaken))
      else (s.(users := s.users[s.nextUser := Lower(email)], nextUser := s.nextUser + 1), Done)
    case ChangeEmail(user, email) =>
      if user !in s.users then (s, Fail(UserNotFound))
      else
        var other := UserByEmail(s.users, Lower(email));
        if other.Some? && other.value != user then (s, Fail(EmailTaken))
        else (s.(users := s.users[user := Lower(email)]), Done)
    case RemoveUser(id, requester) =>
      if id != requester then (s, Fail(InsufficientPermissions))
      else if (set m | m in s.members && s.members[m].user == id) != {} then (s, Fail(StillMember))
      else if id !in s.users then (s, Fail(UserNotFound))
      else (s.(users := s.users - {id}), Done)
    case Tick(elapsed) => (s.(now := s.now + elapsed), Done)
  }

  function Next(s: State, call: Call): State
    requires Allowed(s, call)
  {
    Apply(s, call).0
  }
}
