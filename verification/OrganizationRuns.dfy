/** What every run of organization and user calls keeps: one owner per organization, one
    membership per user, and no more seats taken or promised than the plan allows. */
module OrganizationRuns {
  import opened Seqs
  import opened External
  import opened Organizations

  // ----- runs -----

  predicate Runs(s: State, calls: seq<Call>)
    decreases |calls|
  {
    calls == [] || (Allowed(s, calls[0]) && Runs(Next(s, calls[0]), calls[1..]))
  }

  function After(s: State, calls: seq<Call>): State
    requires Runs(s, calls)
    decreases |calls|
  {
    if calls == [] then s else After(Next(s, calls[0]), calls[1..])
  }

  /** Users may exist; organizations do not yet. */
  ghost predicate Initial(s: State)
  {
    s.orgs == {} && s.members == map[] && s.invites == map[] && UsersKnown(s)
  }

  ghost predicate UsersKnown(s: State)
  {
    forall u :: u in s.users ==> u < s.nextUser
  }

  // ----- owners and memberships -----

  ghost predicate IsOwner(s: State, org: OrgId, m: MemberId)
  {
    m in s.members && s.members[m].org == org && s.members[m].role == OwnerRole
  }

  ghost predicate RowsSound(s: State)
  {
    && (forall o :: o in s.orgs ==> o < s.nextOrg)
    && (forall m :: m in s.members ==> m < s.nextMember && s.members[m].org in s.orgs && s.members[m].user in s.users)
    && (forall t :: t in s.invites ==> t < s.nextToken && s.invites[t].org in s.orgs && s.invites[t].role != OwnerRole)
  }

  predicate SameSeat(a: Member, b: Member) { a.org == b.org && a.user == b.user }

  /** At most one membership per organization and user. */
  ghost predicate OneMembership(s: State)
  {
    forall m, n :: m in s.members && n in s.members && SameSeat(s.members[m], s.members[n]) ==> m == n
  }

  ghost predicate Owned(s: State, org: OrgId) { exists m :: IsOwner(s, org, m) }

  ghost predicate UniqueOwner(s: State)
  {
    forall o, m, n :: IsOwner(s, o, m) && IsOwner(s, o, n) ==> m == n
  }

  ghost predicate Sound(s: State)
  {
    UsersKnown(s) && RowsSound(s) && OneMembership(s) && UniqueOwner(s)
  }

  /** Organizations that stay keep their owner row, one that goes had an owner, and a new one is new. */
  ghost predicate OwnersKept(s: State, s': State)
  {
    && s'.nextOrg >= s.nextOrg
    && (forall o, m :: o in s.orgs && o in s'.orgs ==> (IsOwner(s', o, m) <==> IsOwner(s, o, m)))
    && (forall o :: o in s.orgs && o !in s'.orgs ==> Owned(s, o))
    && (forall o :: o in s'.orgs && o !in s.orgs ==> o == s.nextOrg)
  }

  lemma WithOrgSound(s: State)
    requires Sound(s)
    ensures Sound(WithOrg(s)) && OwnersKept(s, WithOrg(s)) && !Owned(WithOrg(s), s.nextOrg)
  {
    var s' := WithOrg(s);
    forall o, m ensures IsOwner(s', o, m) <==> IsOwner(s, o, m) {}
  }

  lemma WithOwnerSound(s: State, creator: UserId)
    requires Sound(s) && creator in s.users
    ensures var s' := WithOwner(WithOrg(s), s.nextOrg, creator);
            Sound(s') && OwnersKept(s, s') && IsOwner(s', s.nextOrg, s.nextMember)
  {
    var s' := WithOwner(WithOrg(s), s.nextOrg, creator);
    forall o, m ensures IsOwner(s', o, m) <==> IsOwner(s, o, m) || (o == s.nextOrg && m == s.nextMember) {}
  }

  /** Taking a just saved organization away again. */
  lemma DropNewSound(s: State, saved: State)
    requires Sound(s) && Sound(saved) && OwnersKept(s, saved) && saved.orgs == s.orgs + {s.nextOrg}
    ensures Sound(DropOrg(saved, s.nextOrg)) && OwnersKept(s, DropOrg(saved, s.nextOrg))
  {
    var s' := DropOrg(saved, s.nextOrg);
    forall o, m ensures IsOwner(s', o, m) <==> o != s.nextOrg && IsOwner(saved, o, m) {}
  }

  /** A creation that leaves an organization without an owner row: its first save took effect but threw, or
      the owner row was not stored and the cleanup was refused. */
  predicate Orphans(s: State, call: Call)
  {
    call.Create? && (call.save == Lost || (call.save == Works && !StoresOwner(s, call) && call.undo == Refused))
  }

  /** Whatever fails in a creation, the organization it leaves, if it leaves one, has an owner unless orphaned. */
  lemma CreateSound(s: State, call: Call)
    requires Sound(s) && call.Create?
    ensures var s' := Next(s, call);
            && Sound(s') && OwnersKept(s, s')
            && (Orphans(s, call) ==> s.nextOrg in s'.orgs && !Owned(s', s.nextOrg))
            && (!Orphans(s, call) && s.nextOrg in s'.orgs ==> Owned(s', s.nextOrg))
  {
    hide Sound, OwnersKept, IsOwner;
    Unchanged(s);
    Unnumbered(s);
    if call.save != Refused {
      WithOrgSound(s);
      DropNewSound(s, WithOrg(s));
      if StoresOwner(s, call) {
        WithOwnerSound(s, call.creator);
        DropNewSound(s, WithOwner(WithOrg(s), s.nextOrg, call.creator));
      }
    }
  }

  lemma Unchanged(s: State)
    ensures OwnersKept(s, s)
  {
  }

  lemma Unnumbered(s: State)
    requires Sound(s)
    ensures s.nextOrg !in s.orgs
  {
  }

  /** Calls that leave memberships and organizations alone, and promise no ownership. */
  lemma SameTables(s: State, s': State)
    requires Sound(s) && s'.orgs == s.orgs && s'.members == s.members && s'.nextOrg == s.nextOrg && UsersKnown(s')
             && RowsSound(s')
    ensures Sound(s') && OwnersKept(s, s')
  {
    forall o, m ensures IsOwner(s', o, m) <==> IsOwner(s, o, m) {}
  }

  lemma JoinSound(s: State, token: InviteToken, user: UserId, plan: Option<int>)
    requires Sound(s) && token in s.invites && user in s.users
    ensures Sound(Join(s, token, user, plan).0) && OwnersKept(s, Join(s, token, user, plan).0)
  {
    hide OwnersKept;
    var s' := Join(s, token, user, plan).0;
    var org := s.invites[token].org;
    if s'.members == s.members {
      SameTables(s, s');
    } else {
      assert Rows(s.members, org, user) == {};
      NewMember(s, s', org, user);
    }
  }

  lemma NewMember(s: State, s': State, org: OrgId, user: UserId)
    requires Sound(s) && RowsSound(s') && UsersKnown(s') && s'.orgs == s.orgs && s'.nextOrg == s.nextOrg
             && Rows(s.members, org, user) == {}
    requires exists role :: role != OwnerRole && s'.members == s.members[s.nextMember := Member(org, user, role)]
    ensures Sound(s') && OwnersKept(s, s')
  {
    forall m | m in s.members ensures s.members[m].org != org || s.members[m].user != user {
      assert m !in Rows(s.members, org, user);
    }
    forall o, m ensures IsOwner(s', o, m) <==> IsOwner(s, o, m) {}
  }

  /** Removing or demoting rows that are not owners. */
  lemma NonOwnerChange(s: State, s': State, m: MemberId)
    requires Sound(s) && m in s.members && s.members[m].role != OwnerRole
    requires s' == s.(members := s.members - {m}) ||
             (exists r :: r != OwnerRole && s' == s.(members := s.members[m := s.members[m].(role := r)]))
    ensures Sound(s') && OwnersKept(s, s')
  {
    forall o, n ensures IsOwner(s', o, n) <==> IsOwner(s, o, n) {}
    assert OneMembership(s');
  }

  lemma RemoveOrgSound(s: State, org: OrgId)
    requires Sound(s) && Owned(s, org)
    ensures Sound(DropOrg(s, org)) && OwnersKept(s, DropOrg(s, org))
  {
    var s' := DropOrg(s, org);
    forall o, m ensures IsOwner(s', o, m) <==> o != org && IsOwner(s, o, m) {}
  }

  lemma RemoveUserSound(s: State, call: Call)
    requires Sound(s) && call.RemoveUser? && Allowed(s, call)
    ensures Sound(Next(s, call)) && OwnersKept(s, Next(s, call))
  {
    hide OwnersKept;
    var s' := Next(s, call);
    var rows := set m | m in s.members && s.members[m].user == call.id;
    assert s' != s ==> rows == {};
    assert forall m :: m in s.members && s.members[m].user == call.id ==> m in rows;
    SameTables(s, s');
  }

  lemma RemoveOrgCallSound(s: State, call: Call)
    requires Sound(s) && call.RemoveOrg? && Allowed(s, call)
    ensures Sound(Next(s, call)) && OwnersKept(s, Next(s, call))
  {
    hide Sound, OwnersKept, DropOrg;
    Unchanged(s);
    var m := FindMember(s.members, call.org, call.user);
    if m.Some? && s.members[m.value].role == OwnerRole {
      assert IsOwner(s, call.org, m.value);
      RemoveOrgSound(s, call.org);
    }
  }

  /** Every call keeps users, rows, memberships and owners in order. */
  lemma StepSound(s: State, call: Call)
    requires Sound(s) && Allowed(s, call)
    ensures Sound(Next(s, call)) && OwnersKept(s, Next(s, call))
  {
    hide Sound, OwnersKept;
    match call
    case Create(_, _, _, _, _) => CreateSound(s, call);
    case InviteMember(_, _, _, _) => InviteSound(s, call);
    case GetInvite(_) => LookupSound(s, call.token);
    case AcceptInvite(_, _) => AcceptSound(s, call);
    case AcceptAs(_, _, _) => AcceptSound(s, call);
    case Leave(_, _) => MemberCallSound(s, call);
    case RemoveMember(_, _, _) => MemberCallSound(s, call);
    case UpdateRole(_, _, _, _) => MemberCallSound(s, call);
    case RemoveOrg(_, _) => RemoveOrgCallSound(s, call);
    case Cleanup => CleanupSound(s);
    case CreateUser(_) => UserCallSound(s, call);
    case ChangeEmail(_, _) => UserCallSound(s, call);
    case RemoveUser(_, _) => RemoveUserSound(s, call);
    case Tick(_) => UserCallSound(s, call);
  }

  lemma InviteSound(s: State, call: Call)
    requires Sound(s) && call.InviteMember? && Allowed(s, call)
    ensures Sound(Next(s, call)) && OwnersKept(s, Next(s, call))
  {
    SameTables(s, Next(s, call));
  }

  lemma LookupSound(s: State, token: InviteToken)
    requires Sound(s)
    ensures Sound(AfterLookup(s, token)) && OwnersKept(s, AfterLookup(s, token))
  {
    SameTables(s, AfterLookup(s, token));
  }

  lemma AcceptSound(s: State, call: Call)
    requires Sound(s) && (call.AcceptInvite? || call.AcceptAs?)
    ensures Sound(Next(s, call)) && OwnersKept(s, Next(s, call))
  {
    LookupSound(s, call.token);
    if InviteProblem(s, call.token).None? {
      if call.AcceptAs? {
        if call.user in s.users { JoinSound(s, call.token, call.user, call.plan); }
      } else {
        var u := UserByEmail(s.users, s.invites[call.token].email);
        if u.Some? { JoinSound(s, call.token, u.value, call.plan); }
      }
    }
  }

  lemma MemberCallSound(s: State, call: Call)
    requires Sound(s) && (call.Leave? || call.RemoveMember? || call.UpdateRole?) && Allowed(s, call)
    ensures Sound(Next(s, call)) && OwnersKept(s, Next(s, call))
  {
    hide Sound;
    var s' := Next(s, call);
    if s' != s {
      var m := FindMember(s.members, call.org, if call.Leave? then call.user else call.target).value;
      NonOwnerChange(s, s', m);
    }
  }

  lemma CleanupSound(s: State)
    requires Sound(s)
    ensures Sound(Next(s, Cleanup)) && OwnersKept(s, Next(s, Cleanup))
  {
    SameTables(s, Next(s, Cleanup));
  }

  lemma UserCallSound(s: State, call: Call)
    requires Sound(s) && (call.CreateUser? || call.ChangeEmail? || call.Tick?)
    ensures Sound(Next(s, call)) && OwnersKept(s, Next(s, call))
  {
    SameTables(s, Next(s, call));
  }

  lemma {:induction false} RunSound(s: State, calls: seq<Call>)
    requires Sound(s) && Runs(s, calls)
    ensures Sound(After(s, calls))
    decreases |calls|
  {
    if calls != [] {
      StepSound(s, calls[0]);
      RunSound(Next(s, calls[0]), calls[1..]);
    }
  }

  ghost predicate EveryOwned(s: State) { forall o :: o in s.orgs ==> Owned(s, o) }

  ghost predicate Ownerless(s: State, o: OrgId) { o in s.orgs && !Owned(s, o) }

  ghost predicate NeverOrphans(s: State, calls: seq<Call>)
    requires Runs(s, calls)
    decreases |calls|
  {
    calls != [] ==> !Orphans(s, calls[0]) && NeverOrphans(Next(s, calls[0]), calls[1..])
  }

  /** A creation leaves an organization without an owner exactly in the two orphaning ways. */
  lemma OrphanedIff(s: State, call: Call)
    requires Sound(s) && call.Create? && Allowed(s, call)
    ensures Ownerless(Next(s, call), s.nextOrg) <==> Orphans(s, call)
  {
    hide Sound, Apply, Owned;
    CreateSound(s, call);
  }

  lemma StepOwned(s: State, call: Call)
    requires Sound(s) && Allowed(s, call) && EveryOwned(s) && !Orphans(s, call)
    ensures EveryOwned(Next(s, call))
  {
    hide Sound, IsOwner, Orphans;
    var s' := Next(s, call);
    StepSound(s, call);
    if call.Create? { CreateSound(s, call); } else { NewOrgsCreated(s, call); }
    forall o | o in s'.orgs && o in s.orgs ensures Owned(s', o) {
      var m :| IsOwner(s, o, m);
      assert IsOwner(s', o, m);
    }
  }

  lemma NewOrgsCreated(s: State, call: Call)
    requires Allowed(s, call) && !call.Create?
    ensures Next(s, call).orgs <= s.orgs
  {
  }

  /** Nobody can remove or take over an organization without an owner. */
  lemma StepOwnerless(s: State, call: Call, o: OrgId)
    requires Sound(s) && Allowed(s, call) && Ownerless(s, o)
    ensures Ownerless(Next(s, call), o)
  {
    hide Sound, IsOwner;
    var s' := Next(s, call);
    StepSound(s, call);
    forall m ensures IsOwner(s', o, m) <==> IsOwner(s, o, m) {}
  }

  lemma {:induction false} RunOwnerless(s: State, calls: seq<Call>, o: OrgId)
    requires Sound(s) && Runs(s, calls) && Ownerless(s, o)
    ensures Ownerless(After(s, calls), o)
    decreases |calls|
  {
    if calls != [] {
      StepSound(s, calls[0]);
      StepOwnerless(s, calls[0], o);
      RunOwnerless(Next(s, calls[0]), calls[1..], o);
    }
  }

  lemma {:induction false} RunOwnedIff(s: State, calls: seq<Call>)
    requires Sound(s) && Runs(s, calls) && EveryOwned(s)
    ensures EveryOwned(After(s, calls)) <==> NeverOrphans(s, calls)
    decreases |calls|
  {
    hide Sound, Owned;
    if calls != [] {
      var s1 := Next(s, calls[0]);
      StepSound(s, calls[0]);
      if Orphans(s, calls[0]) {
        CreateSound(s, calls[0]);
        RunOwnerless(s1, calls[1..], s.nextOrg);
      } else {
        StepOwned(s, calls[0]);
        RunOwnedIff(s1, calls[1..]);
      }
    }
  }

  /** In every run no user has two memberships of one organization, no organization has two owners, owners are
      users that exist; and every organization has an owner exactly when no creation orphaned one. */
  lemma OneOwnerAlways(s: State, calls: seq<Call>)
    requires Initial(s) && Runs(s, calls)
    ensures var e := After(s, calls);
            && OneMembership(e)
            && (forall o, m, n :: IsOwner(e, o, m) && IsOwner(e, o, n) ==> m == n && e.members[m].user in e.users)
            && ((forall o :: o in e.orgs ==> exists m :: IsOwner(e, o, m)) <==> NeverOrphans(s, calls))
  {
    RunSound(s, calls);
    RunOwnedIff(s, calls);
    assert EveryOwned(After(s, calls)) <==> forall o :: o in After(s, calls).orgs ==>
             exists m :: IsOwner(After(s, calls), o, m);
  }

  // ----- roles -----

  /** A successful role change touches the target's row only, and leaves it, as it found it, strictly
      below the requester. */
  lemma RoleChangeBelowRequester(s: State, call: Call)
    requires Sound(s) && call.UpdateRole? && Allowed(s, call) && Apply(s, call).1 == Done
    ensures var s' := Next(s, call);
            exists m :: m in s.members && s.members[m].org == call.org && s.members[m].user == call.target &&
                        s' == s.(members := s.members[m := s.members[m].(role := call.role)]) &&
                        s'.members[call.requester] == s.members[call.requester] &&
                        Level(s.members[m].role) < Level(s'.members[call.requester].role) &&
                        Level(s'.members[m].role) < Level(s'.members[call.requester].role)
  {
    var m := FindMember(s.members, call.org, call.target).value;
    assert m in s.members;
  }

  /** A successful removal takes away one row of the organization, below the requester's level, and
      never the requester's own. */
  lemma RemovalBelowRequester(s: State, call: Call)
    requires Sound(s) && call.RemoveMember? && Allowed(s, call) && Apply(s, call).1 == Done
    ensures var s' := Next(s, call);
            && call.requester in s'.members && Rows(s'.members, call.org, call.target) == {}
            && exists m :: m in s.members && s'.members == s.members - {m} && s.members[m].org == call.org &&
                           s.members[m].user == call.target
                             && Level(s.members[m].role) < Level(s.members[call.requester].role)
  {
    var m := FindMember(s.members, call.org, call.target).value;
    assert m in s.members;
    forall n | n in Rows(Next(s, call).members, call.org, call.target) ensures false {
      assert n in s.members && SameSeat(s.members[n], s.members[m]);
    }
  }

  // ----- what callers of the smaller calls can rely on -----

  ghost predicate OwnedBy(s: State, org: OrgId, user: UserId)
  {
    exists m :: IsOwner(s, org, m) && s.members[m].user == user
  }

  /** Exactly the owner can remove an organization, and nothing of it is left. */
  lemma RemoveOrgIff(s: State, org: OrgId, user: UserId)
    requires Sound(s)
    ensures var (s', result) := Apply(s, RemoveOrg(org, user));
            && (result == Done <==> OwnedBy(s, org, user))
            && (result != Done ==> s' == s)
            && (result == Done ==>
                  && org !in s'.orgs && MembersOf(s', org) == {}
                  && forall t :: t in s'.invites ==> s'.invites[t].org != org)
  {
    var found := FindMember(s.members, org, user);
    if found.Some? {
      var row := found.value;
      assert row in s.members;
      if s.members[row].role == OwnerRole { assert IsOwner(s, org, row); }
      forall m | IsOwner(s, org, m) && s.members[m].user == user ensures m == row {
        assert SameSeat(s.members[m], s.members[row]);
      }
    } else {
      forall m | IsOwner(s, org, m) ensures s.members[m].user != user { assert m !in Rows(s.members, org, user); }
    }
  }

  /** Exactly a member who is not the owner can leave, and then has no row in the organization. */
  lemma LeaveIff(s: State, org: OrgId, user: UserId)
    requires Sound(s)
    ensures var (s', result) := Apply(s, Leave(org, user));
            && (result == Done <==> Rows(s.members, org, user) != {} && !OwnedBy(s, org, user))
            && s' == s.(members := if result == Done then s.members - Rows(s.members, org, user) else s.members)
  {
    var found := FindMember(s.members, org, user);
    if found.Some? {
      var row := found.value;
      assert row in s.members;
      if s.members[row].role == OwnerRole { assert IsOwner(s, org, row); }
      forall m | m in Rows(s.members, org, user) ensures m == row { assert SameSeat(s.members[m], s.members[row]); }
      assert Rows(s.members, org, user) == {row};
    }
  }

  /** The nightly cleanup takes away no invite that could still be accepted, and leaves nothing overdue among
      the invites marked EXPIRED. */
  lemma CleanupKeepsValid(s: State, t: InviteToken)
    ensures var s' := Next(s, Cleanup);
            && (InviteProblem(s', t).None? <==> InviteProblem(s, t).None?)
            && (InviteProblem(s, t).None? ==> s'.invites[t] == s.invites[t])
            && (t in s'.invites && s'.invites[t].status == Expired ==> s'.now <= s'.invites[t].expiresAt)
            && (forall o :: PendingOf(s', o) == PendingOf(s, o))
  {
  }

  // ----- seats -----

  function Seats(s: State, org: OrgId): nat { |MembersOf(s, org)| + |PendingOf(s, org)| }

  /** With a positive limit, members and pending invites together stay within it. */
  ghost predicate SeatsHeld(s: State, limit: OrgId -> int)
  {
    forall o :: o in s.orgs && limit(o) >= 1 ==> Seats(s, o) <= limit(o)
  }

  /** The plan a call sees, if it sees one, is the organization's fixed limit. */
  ghost predicate PlanFits(s: State, call: Call, limit: OrgId -> int)
  {
    match call
    case InviteMember(org, _, _, plan) => plan.Some? ==> plan.value == limit(org)
    case AcceptInvite(token, plan) => plan.Some? && token in s.invites ==> plan.value == limit(s.invites[token].org)
    case AcceptAs(token, _, plan) => plan.Some? && token in s.invites ==> plan.value == limit(s.invites[token].org)
    case _ => true
  }

  /** What a change of limits must respect: a changed positive limit covers the seats taken and promised. */
  ghost predicate MayChange(s: State, limit: OrgId -> int, changed: OrgId -> int)
  {
    forall o :: o in s.orgs ==> changed(o) == limit(o) || changed(o) <= 0 || Seats(s, o) <= changed(o)
  }

  /** Every call sees the limits of its moment, and limits change between calls only as they may. */
  ghost predicate Honoured(s: State, calls: seq<Call>, limits: seq<OrgId -> int>)
    requires Runs(s, calls) && |limits| == |calls| + 1
    decreases |calls|
  {
    calls != [] ==> && PlanFits(s, calls[0], limits[0]) && MayChange(Next(s, calls[0]), limits[0], limits[1])
                    && Honoured(Next(s, calls[0]), calls[1..], limits[1..])
  }

  lemma FewerSeats(s: State, s': State, limit: OrgId -> int)
    requires SeatsHeld(s, limit) && s'.orgs <= s.orgs
    requires forall o :: o in s'.orgs ==> MembersOf(s', o) <= MembersOf(s, o) && PendingOf(s', o) <= PendingOf(s, o)
    ensures SeatsHeld(s', limit)
  {
    forall o | o in s'.orgs && limit(o) >= 1 ensures Seats(s', o) <= limit(o) {
      SubsetSize(MembersOf(s', o), MembersOf(s, o));
      SubsetSize(PendingOf(s', o), PendingOf(s, o));
    }
  }

  lemma CreateRows(s: State, call: Call)
    requires Sound(s) && call.Create?
    ensures var s' := Next(s, call);
            && s'.orgs <= s.orgs + {s.nextOrg} && s'.invites == s.invites
            && (s'.members == s.members || s'.members == s.members[s.nextMember := Member(s.nextOrg, call.creator,
                OwnerRole)])
  {
    hide Sound;
    DropRestores(s, WithOrg(s));
    DropRestores(s, WithOwner(WithOrg(s), s.nextOrg, call.creator));
    hide DropOrg;
  }

  lemma DropRestores(s: State, saved: State)
    requires Sound(s) && saved.orgs == s.orgs + {s.nextOrg} && saved.invites == s.invites
    requires saved.members == s.members || exists u :: saved.members == s.members[s.nextMember := Member(s.nextOrg, u,
        OwnerRole)]
    ensures var s' := DropOrg(saved, s.nextOrg);
            s'.orgs <= saved.orgs && s'.members == s.members && s'.invites == s.invites
  {
    assert forall m :: m in s.members ==> s.members[m].org != s.nextOrg && m != s.nextMember;
    assert forall t :: t in s.invites ==> s.invites[t].org != s.nextOrg;
  }

  lemma CreateSeats(s: State, call: Call, limit: OrgId -> int)
    requires Sound(s) && SeatsHeld(s, limit) && call.Create? && Allowed(s, call)
    ensures SeatsHeld(Next(s, call), limit)
  {
    hide Apply;
    var s' := Next(s, call);
    CreateRows(s, call);
    forall o | o in s'.orgs && limit(o) >= 1 ensures Seats(s', o) <= limit(o) {
      assert PendingOf(s', o) == PendingOf(s, o);
      if o in s.orgs {
        assert MembersOf(s', o) == MembersOf(s, o);
      } else {
        SubsetSize(MembersOf(s', o), {s.nextMember});
      }
    }
  }

  lemma InviteRows(s: State, call: Call)
    requires call.InviteMember? && Allowed(s, call)
    ensures var s' := Next(s, call);
            && s'.orgs == s.orgs && s'.members == s.members
            && (s' == s || (SeatCheck(s, call.org, call.plan, true).None? &&
                            exists invite: Invite ::
                              && s'.invites ==
                                 WithoutPending(s.invites, call.org, Lower(call.email))[s.nextToken := invite]
                              && invite.org == call.org))
  {
    hide SeatCheck, Lower, FindMember, UserByEmail, WithoutPending;
  }

  lemma InviteSeats(s: State, call: Call, limit: OrgId -> int)
    requires Sound(s) && SeatsHeld(s, limit) && call.InviteMember? && Allowed(s, call) && PlanFits(s, call, limit)
    ensures SeatsHeld(Next(s, call), limit)
  {
    hide Apply, Lower, Sound;
    var s' := Next(s, call);
    InviteRows(s, call);
    forall o | o in s'.orgs && limit(o) >= 1 ensures Seats(s', o) <= limit(o) {
      assert MembersOf(s', o) == MembersOf(s, o);
      if s' == s || o != call.org {
        SubsetSize(PendingOf(s', o), PendingOf(s, o));
      } else {
        SubsetSize(PendingOf(s', o), PendingOf(s, o) + {s.nextToken});
      }
    }
  }

  lemma JoinCounts(s: State, token: InviteToken, user: UserId, plan: Option<int>, org: OrgId)
    requires InviteProblem(s, token).None?
    ensures var s' := Join(s, token, user, plan).0;
            if org == s.invites[token].org && s' != s
            then
              && PendingOf(s', org) == PendingOf(s, org) - {token}
              && MembersOf(s', org) <= MembersOf(s, org) + {s.nextMember}
            else
              && PendingOf(s', org) == PendingOf(s, org)
              && (s.nextMember !in s.members ==> MembersOf(s', org) == MembersOf(s, org))
  {
  }

  /** Joining turns a pending invite into a member: the sum does not grow. */
  lemma JoinSeats(s: State, token: InviteToken, user: UserId, plan: Option<int>, limit: OrgId -> int)
    requires Sound(s) && SeatsHeld(s, limit) && InviteProblem(s, token).None?
    ensures SeatsHeld(Join(s, token, user, plan).0, limit)
  {
    hide Sound, Join;
    var s' := Join(s, token, user, plan).0;
    JoinKeeps(s, token, user, plan);
    forall o | o in s'.orgs && limit(o) >= 1 ensures Seats(s', o) <= limit(o) {
      JoinCounts(s, token, user, plan, o);
      if o == s.invites[token].org && s' != s {
        SubsetSize(MembersOf(s', o), MembersOf(s, o) + {s.nextMember});
      }
    }
  }

  lemma JoinKeeps(s: State, token: InviteToken, user: UserId, plan: Option<int>)
    requires Sound(s) && InviteProblem(s, token).None?
    ensures Join(s, token, user, plan).0.orgs == s.orgs && s.nextMember !in s.members
    ensures token in PendingOf(s, s.invites[token].org) && s.invites[token].org in s.orgs
  {
  }

  lemma JoinNotRefused(s: State, token: InviteToken, user: UserId, plan: Option<int>, limit: OrgId -> int)
    requires Sound(s) && SeatsHeld(s, limit) && InviteProblem(s, token).None?
    requires plan.Some? ==> plan.value == limit(s.invites[token].org)
    ensures Join(s, token, user, plan).1 != Fail(UserLimitReached)
  {
    hide Sound;
    JoinKeeps(s, token, user, plan);
    var org := s.invites[token].org;
    assert limit(org) >= 1 ==> Seats(s, org) <= limit(org);
    assert |PendingOf(s, org)| > 0;
  }

  lemma LookupSeats(s: State, token: InviteToken, limit: OrgId -> int)
    requires SeatsHeld(s, limit)
    ensures SeatsHeld(AfterLookup(s, token), limit)
  {
    FewerSeats(s, AfterLookup(s, token), limit);
  }

  lemma StepSeats(s: State, call: Call, limit: OrgId -> int)
    requires Sound(s) && SeatsHeld(s, limit) && Allowed(s, call) && PlanFits(s, call, limit)
    ensures SeatsHeld(Next(s, call), limit)
  {
    hide Sound, SeatsHeld, PlanFits;
    match call
    case Create(_, _, _, _, _) => CreateSeats(s, call, limit);
    case InviteMember(_, _, _, _) => InviteSeats(s, call, limit);
    case GetInvite(token) => LookupSeats(s, token, limit);
    case AcceptInvite(token, plan) =>
      LookupSeats(s, token, limit);
      if InviteProblem(s, token).None? {
        var u := UserByEmail(s.users, s.invites[token].email);
        if u.Some? { JoinSeats(s, token, u.value, plan, limit); }
      }
    case AcceptAs(token, user, plan) =>
      LookupSeats(s, token, limit);
      if InviteProblem(s, token).None? && user in s.users { JoinSeats(s, token, user, plan, limit); }
    case RemoveOrg(_, _) => OtherSeats(s, call, limit);
    case _ => OtherSeats(s, call, limit);
  }

  lemma OtherSeats(s: State, call: Call, limit: OrgId -> int)
    requires SeatsHeld(s, limit) && Allowed(s, call)
    requires !call.Create? && !call.InviteMember? && !call.GetInvite? && !call.AcceptInvite? && !call.AcceptAs?
    ensures SeatsHeld(Next(s, call), limit)
  {
    hide SeatsHeld;
    FewerSeats(s, Next(s, call), limit);
  }

  lemma ChangeSeats(s: State, limit: OrgId -> int, changed: OrgId -> int)
    requires SeatsHeld(s, limit) && MayChange(s, limit, changed)
    ensures SeatsHeld(s, changed)
  {
    hide MembersOf, PendingOf, Seats;
  }

  lemma {:induction false} RunSeats(s: State, calls: seq<Call>, limits: seq<OrgId -> int>)
    requires |limits| == |calls| + 1 && Sound(s) && SeatsHeld(s, limits[0]) && Runs(s, calls)
             && Honoured(s, calls, limits)
    ensures SeatsHeld(After(s, calls), limits[|calls|])
    decreases |calls|
  {
    hide Sound, SeatsHeld;
    if calls != [] {
      StepSound(s, calls[0]);
      StepSeats(s, calls[0], limits[0]);
      ChangeSeats(Next(s, calls[0]), limits[0], limits[1]);
      RunSeats(Next(s, calls[0]), calls[1..], limits[1..]);
    }
  }

  /** While no positive limit is set below the seats taken and promised, every organization keeps members and
      pending invites within its limit, so accepting a valid invite is never refused for lack of seats. */
  lemma SeatReservation(s: State, calls: seq<Call>, limits: seq<OrgId -> int>, accept: Call)
    requires Initial(s) && Runs(s, calls) && |limits| == |calls| + 1 && Honoured(s, calls, limits)
    requires (accept.AcceptInvite? || accept.AcceptAs?) && PlanFits(After(s, calls), accept, limits[|calls|])
    ensures SeatsHeld(After(s, calls), limits[|calls|])
    ensures Apply(After(s, calls), accept).1 != Fail(UserLimitReached)
  {
    hide Sound, SeatsHeld;
    var e, limit := After(s, calls), limits[|calls|];
    InitialHolds(s, limits[0]);
    RunSound(s, calls);
    RunSeats(s, calls, limits);
    if InviteProblem(e, accept.token).None? {
      var u := if accept.AcceptAs? then Some(accept.user) else UserByEmail(e.users, e.invites[accept.token].email);
      if u.Some? { JoinNotRefused(e, accept.token, u.value, accept.plan, limit); }
    }
  }

  lemma InitialHolds(s: State, limit: OrgId -> int)
    requires Initial(s)
    ensures Sound(s) && SeatsHeld(s, limit)
  {
  }

  // ----- invites -----

  /** Two pending invites of one organization and address are the same invite. */
  ghost predicate OnePending(s: State)
  {
    forall t, t' :: IsPending(s, t) && IsPending(s, t') && SameAddressee(s.invites[t], s.invites[t']) ==> t == t'
  }

  predicate IsPending(s: State, t: InviteToken) { t in s.invites && s.invites[t].status == Pending }
  predicate SameAddressee(a: Invite, b: Invite) { a.org == b.org && a.email == b.email }

  /** Calls other than an invitation only take pending invites away. */
  lemma StepPending(s: State, call: Call, t: InviteToken)
    requires Allowed(s, call) && !call.InviteMember? && IsPending(Next(s, call), t)
    ensures IsPending(s, t) && Next(s, call).invites[t] == s.invites[t]
  {
    hide SeatCheck, FindMember, UserByEmail, Lower;
  }

  lemma InvitePending(s: State, call: Call, t: InviteToken)
    requires Allowed(s, call) && call.InviteMember? && IsPending(Next(s, call), t) && Next(s, call) != s
    ensures var s' := Next(s, call);
            if t == s.nextToken then s'.invites[t].org == call.org && s'.invites[t].email == Lower(call.email)
            else IsPending(s, t) && s'.invites[t] == s.invites[t] &&
                 !(s.invites[t].org == call.org && s.invites[t].email == Lower(call.email))
  {
    hide SeatCheck, FindMember, UserByEmail, Lower;
  }

  lemma StepOnePending(s: State, call: Call)
    requires OnePending(s) && Allowed(s, call)
    ensures OnePending(Next(s, call))
  {
    hide Next, Lower;
    var s' := Next(s, call);
    forall t, t' | IsPending(s', t) && IsPending(s', t') && SameAddressee(s'.invites[t], s'.invites[t'])
      ensures t == t'
    {
      if call.InviteMember? && s' != s {
        InvitePending(s, call, t);
        InvitePending(s, call, t');
      } else if !call.InviteMember? {
        StepPending(s, call, t);
        StepPending(s, call, t');
      }
    }
  }

  /** Nobody else of this organization is invited under the address of t. */
  ghost predicate OnlyInvite(s: State, t: InviteToken)
  {
    IsPending(s, t) && forall t' :: IsPending(s, t') && SameAddressee(s.invites[t'], s.invites[t]) ==> t' == t
  }

  /** A successful invitation leaves its address with the new invite only. */
  lemma InviteReplaces(s: State, call: Call)
    requires Sound(s) && OnePending(s) && call.InviteMember? && Allowed(s, call) && Apply(s, call).1 == Done
    ensures var s' := Next(s, call);
            && OnlyInvite(s', s.nextToken)
            && s'.invites[s.nextToken] == Invite(call.org, Lower(call.email), call.role, Pending, s.now + INVITE_TTL)
  {
    StepOnePending(s, call);
    hide SeatCheck, FindMember, UserByEmail, Lower, WithoutPending, Sound;
  }

  /** In every run an organization has at most one pending invite for an address: inviting again replaces it. */
  lemma {:induction false} RunOnePending(s: State, calls: seq<Call>)
    requires OnePending(s) && Runs(s, calls)
    ensures OnePending(After(s, calls))
    decreases |calls|
  {
    hide OnePending;
    if calls != [] {
      StepOnePending(s, calls[0]);
      RunOnePending(Next(s, calls[0]), calls[1..]);
    }
  }

  predicate Accepts(call: Call, token: InviteToken) { (call.AcceptInvite? || call.AcceptAs?) && call.token == token }

  predicate Spent(s: State, token: InviteToken)
  {
    token < s.nextToken && (token in s.invites ==> s.invites[token].status == Accepted)
  }

  lemma StepSpent(s: State, call: Call, token: InviteToken)
    requires Spent(s, token) && Allowed(s, call)
    ensures Spent(Next(s, call), token)
  {
    hide SeatCheck, FindMember, UserByEmail;
  }

  lemma {:induction false} RunSpent(s: State, calls: seq<Call>, token: InviteToken)
    requires Spent(s, token) && Runs(s, calls)
    ensures Spent(After(s, calls), token)
    decreases |calls|
  {
    if calls != [] {
      StepSpent(s, calls[0], token);
      RunSpent(Next(s, calls[0]), calls[1..], token);
    }
  }

  /** An invite works once: it gives its own role in its own organization to a user with its address,
      and after any further calls accepting it again is refused. */
  lemma InviteUsedOnce(s: State, accept: Call, calls: seq<Call>, again: Call, token: InviteToken)
    requires Sound(s) && Accepts(accept, token) && Accepts(again, token) && Apply(s, accept).1 == Done
    requires Runs(Next(s, accept), calls)
    ensures token in s.invites && s.invites[token].status == Pending && s.now <= s.invites[token].expiresAt
    ensures exists user :: && user in s.users && Lower(s.users[user]) == Lower(s.invites[token].email)
                           && Rows(s.members, s.invites[token].org, user) == {}
                           && Next(s, accept).members == s.members[s.nextMember := Member(s.invites[token].org, user,
                               s.invites[token].role)]
    ensures Apply(After(Next(s, accept), calls), again).1 == Fail(InviteNotFound)
  {
    var user := if accept.AcceptAs? then accept.user else UserByEmail(s.users, s.invites[token].email).value;
    assert user in s.users;
    RunSpent(Next(s, accept), calls, token);
  }
}
