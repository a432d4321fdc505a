/** Organization creation is all or nothing, exactly when its compensations can see what they must undo. */
module CreationSaga {
  import opened Seqs
  import opened External
  import opened Billing
  import opened BillingRuns
  import Organizations
  import OrganizationRuns

  /** A subscription that can still bill someone. */
  predicate Live(s: State, t: SubId)
  {
    t in s.subs && !Dead(s.subs[t].status) && s.subs[t].customer in s.customers
  }

  /** Everything creation promises is there. */
  ghost predicate Complete(s: State, s': State, creator: UserId, w: Setting)
  {
    var org, customer, sub := s.nextOrg, s.nextCustomer, s.nextSub;
    && org in s'.orgs && org in s'.owners && s'.owners[org] == creator
    && org in s'.records
    && s'.records[org] ==
       Record(customer, Some(sub), Some(w.price), Some(w.product), w.status, w.start, w.anchor, false)
    && customer in s'.customers && sub in s'.subs
    && s'.subs[sub] == Subscription(customer, w.status, Some(w.price), Some(w.product), w.start, w.anchor, false)
    && s'.orgs[org] == (if w.plan.Some? then w.plan.value.metadata else ZERO)
  }

  /** Nothing of the attempt is stored or live. */
  ghost predicate Clean(s: State, s': State)
  {
    && s'.orgs == s.orgs && s'.owners == s.owners && s'.records == s.records && s'.customers == s.customers
    && (forall t :: t in s.subs ==> t in s'.subs && s'.subs[t] == s.subs[t])
    && (forall t :: Live(s', t) ==> Live(s, t))
  }

  /** Every call up to the creation of the customer works. */
  predicate ReachesStripe(w: Setting)
  {
    && w.outcome(SaveOrganization) == Works && w.outcome(SaveOwner) == Works && w.outcome(FindOwner) == Works
       && w.ownerExists
    && w.outcome(FindRecord) == Works && w.configured && w.outcome(ResolvePrice) == Works
  }

  predicate AllWork(w: Setting)
  {
    && ReachesStripe(w) && w.outcome(CreateCustomer) == Works && w.outcome(CreateSubscription) == Works
    && w.outcome(SaveRecord) == Works && (w.plan.Some? ==> w.outcome(SyncSnapshot) == Works)
  }

  /** A failed attempt leaves something behind: a creation whose answer got lost before its id was known, or
      a compensation that was refused. */
  predicate Debris(w: Setting)
  {
    || w.outcome(SaveOrganization) == Lost
    || (w.outcome(SaveOrganization) == Works && w.outcome(UndoOrganization) == Refused)
    || (ReachesStripe(w) && (w.outcome(CreateCustomer) == Lost
                             || (w.outcome(CreateCustomer) == Works && w.outcome(UndoCustomer) == Refused)))
  }

  lemma CompletesIff(s: State, creator: UserId, w: Setting)
    requires Sound(s)
    ensures Create(s, Some(creator), w).1 <==> AllWork(w)
    ensures Create(s, Some(creator), w).1 ==> Complete(s, Create(s, Some(creator), w).0, creator, w)
  {
    hide Rollback, Sound;
    NewOrgSound(s);
  }

  /** Without a creator only the organization is saved, with no plan, no owner and no billing; it is there unless
      the save was refused. */
  lemma CreatorlessIff(s: State, w: Setting)
    ensures var (s', ok) := Create(s, None, w);
            && (ok <==> w.outcome(SaveOrganization) == Works)
            && s' == if w.outcome(SaveOrganization) == Refused then s
                     else s.(orgs := s.orgs[s.nextOrg := Snapshot(0, 0, [])], nextOrg := s.nextOrg + 1)
  {
  }

  ghost predicate SameBeside(s: State, s': State, org: OrgId)
  {
    s'.records - {org} == s.records - {org} && s'.orgs - {org} == s.orgs - {org} && s'.owners == s.owners
  }

  lemma RollbackLeft(s: State, customer: CustomerId, sub: SubId, w: Setting)
    requires sub in s.subs
    ensures var s' := Rollback(s, Some(customer), Some(sub), w.outcome);
            && s'.customers == (if w.outcome(UndoCustomer) == Refused then s.customers else s.customers - {customer})
            && s'.subs.Keys == s.subs.Keys && s'.subs[sub].customer == s.subs[sub].customer
               && s'.subs - {sub} == s.subs - {sub}
            && s'.records == s.records && s'.orgs == s.orgs && s'.owners == s.owners
  {
  }

  lemma SaveAndSyncLeft(s: State, org: OrgId, customer: CustomerId, sub: SubId, w: Setting)
    requires !SaveAndSync(s, org, customer, sub, w).1 && sub in s.subs && s.subs[sub].customer == customer
    ensures var s' := SaveAndSync(s, org, customer, sub, w).0;
            && s'.customers == (if w.outcome(UndoCustomer) == Refused then s.customers else s.customers - {customer})
            && s'.subs.Keys == s.subs.Keys && s'.subs[sub].customer == customer && s'.subs - {sub} == s.subs - {sub}
            && SameBeside(s, s', org)
  {
    hide Rollback;
    var s1 := if w.outcome(SaveRecord) == Refused then s else WithRecord(s, org, FirstRecord(customer, sub, w));
    var s2 := if w.plan.Some? && w.outcome(SaveRecord) == Works && w.outcome(SyncSnapshot) != Refused
              then WithSnapshot(s1, org, w.plan.value.metadata) else s1;
    RollbackLeft(s2, customer, sub, w);
  }

  lemma SubscribeNewLeft(s: State, org: OrgId, customer: CustomerId, w: Setting)
    requires !SubscribeNew(s, org, customer, w).1 && s.nextSub !in s.subs
    ensures var s' := SubscribeNew(s, org, customer, w).0;
            && s'.customers == (if w.outcome(UndoCustomer) == Refused then s.customers else s.customers - {customer})
            && (forall t :: t in s.subs ==> t in s'.subs && s'.subs[t] == s.subs[t])
            && (forall t :: t in s'.subs && t !in s.subs ==> s'.subs[t].customer == customer)
            && SameBeside(s, s', org)
  {
    hide SaveAndSync;
    var s1 := WithSubscription(s, customer, w);
    if w.outcome(CreateSubscription) == Works {
      SaveAndSyncLeft(s1, org, customer, s.nextSub, w);
      var s' := SubscribeNew(s, org, customer, w).0;
      forall t | t in s.subs ensures t in s'.subs && s'.subs[t] == s.subs[t] {
        assert t in s1.subs - {s.nextSub};
        assert (s'.subs - {s.nextSub})[t] == (s1.subs - {s.nextSub})[t];
      }
    }
  }

  lemma InitializeLeft(s: State, org: OrgId, w: Setting)
    requires !Initialize(s, org, w).1 && s.nextSub !in s.subs && s.nextCustomer !in s.customers && org !in s.records
    ensures var s' := Initialize(s, org, w).0;
            && (forall t :: t in s.subs ==> t in s'.subs && s'.subs[t] == s.subs[t])
            && (forall t :: t in s'.subs && t !in s.subs ==> s'.subs[t].customer == s.nextCustomer)
            && SameBeside(s, s', org)
            && s'.customers == if CustomerLeft(w) then s.customers + {s.nextCustomer} else s.customers
  {
    hide SubscribeNew;
    if w.outcome(FindRecord) == Works && w.configured && w.outcome(ResolvePrice) == Works
      && w.outcome(CreateCustomer) == Works {
      SubscribeNewLeft(WithCustomer(s), org, s.nextCustomer, w);
    }
  }

  predicate CustomerLeft(w: Setting)
  {
    && w.outcome(FindRecord) == Works && w.configured && w.outcome(ResolvePrice) == Works
    && (w.outcome(CreateCustomer) == Lost || (w.outcome(CreateCustomer) == Works && w.outcome(UndoCustomer) == Refused))
  }

  lemma DropUndoes(s: State, s': State, org: OrgId)
    requires Sound(s) && org == s.nextOrg
    requires SameBeside(WithOrg(s), s'.(owners := WithOrg(s).owners), org) && s'.owners - {org} == s.owners - {org}
    ensures var e := DropOrg(s', org); e.orgs == s.orgs && e.records == s.records && e.owners == s.owners
  {
    NewOrgSound(s);
    assert org !in s.orgs && org !in s.owners;
    assert s.orgs - {org} == s.orgs && s.records - {org} == s.records && s.owners - {org} == s.owners;
    assert WithOrg(s).orgs - {org} == s.orgs;
  }

  /** A creation that fails leaves no row, no customer and no live subscription behind, exactly when no
      creation answer got lost and no needed compensation was refused. */
  lemma CreateAllOrNothing(s: State, creator: UserId, w: Setting)
    requires Sound(s)
    ensures var (s', ok) := Create(s, Some(creator), w);
            && (ok ==> Complete(s, s', creator, w))
            && (!ok ==> (Clean(s, s') <==> !Debris(w)))
  {
    CompletesIff(s, creator, w);
    if !Create(s, Some(creator), w).1 { FailureCleanIff(s, creator, w); }
  }

  /** What is clean after the attempt at organization `org` depends on the undo and on the customer. */
  lemma CleanedUp(s: State, s2: State, org: OrgId, left: bool, undone: bool)
    requires org !in s.orgs && org in s2.orgs && s.nextCustomer !in s.customers
    requires s2.customers == if left then s.customers + {s.nextCustomer} else s.customers
    requires forall t :: t in s.subs ==> t in s2.subs && s2.subs[t] == s.subs[t]
    requires forall t :: t in s2.subs && t !in s.subs ==> s2.subs[t].customer == s.nextCustomer
    requires var e := DropOrg(s2, org); e.orgs == s.orgs && e.records == s.records && e.owners == s.owners
    ensures Clean(s, if undone then DropOrg(s2, org) else s2) <==> undone && !left
  {
  }

  lemma FailureCleanIff(s: State, creator: UserId, w: Setting)
    requires Sound(s) && !Create(s, Some(creator), w).1
    ensures Clean(s, Create(s, Some(creator), w).0) <==> !Debris(w)
  {
    hide Initialize, Sound;
    var f, org := w.outcome, s.nextOrg;
    assert s.nextCustomer !in s.customers && s.nextSub !in s.subs && org !in s.orgs by { Unused(s); }
    NewOrgSound(s);
    if f(SaveOrganization) == Works {
      var s1 := if f(SaveOwner) == Refused then WithOrg(s) else WithOwner(WithOrg(s), org, creator);
      var attempt := f(SaveOwner) == Works && f(FindOwner) == Works && w.ownerExists;
      var s2 := if attempt then Initialize(s1, org, w).0 else s1;
      if attempt {
        InitializeLeft(s1, org, w);
        NewOwnerSound(WithOrg(s), org, creator);
        InitializeSound(s1, org, w);
      }
      DropUndoes(s, s2, org);
      hide Clean, DropOrg;
      CleanedUp(s, s2, org, attempt && CustomerLeft(w), f(UndoOrganization) != Refused);
    }
  }

  /** A failed creation that knows its subscription cancels it, unless that is refused, whatever becomes of the
      customer. */
  lemma SubscriptionUndone(s: State, creator: UserId, w: Setting)
    requires Sound(s) && ReachesStripe(w) && w.outcome(CreateCustomer) == Works
             && w.outcome(CreateSubscription) == Works && !Create(s, Some(creator), w).1
    ensures var s' := Create(s, Some(creator), w).0;
            && s.nextSub in s'.subs
            && (s'.subs[s.nextSub].status == Canceled <==>
                  w.outcome(UndoSubscription) != Refused || w.status == Canceled)
  {
    hide SaveAndSync, Sound, Rollback;
    Unused(s);
    NewOrgSound(s);
    var s1 := WithCustomer(WithOwner(WithOrg(s), s.nextOrg, creator));
    SyncUndoes(WithSubscription(s1, s.nextCustomer, w), s.nextOrg, s.nextCustomer, s.nextSub, w);
  }

  lemma SyncUndoes(s: State, org: OrgId, customer: CustomerId, sub: SubId, w: Setting)
    requires sub in s.subs && s.subs[sub].status == w.status
    ensures var (s', ok) := SaveAndSync(s, org, customer, sub, w);
            !ok ==> sub in s'.subs && (s'.subs[sub].status == Canceled <==>
                                         w.outcome(UndoSubscription) != Refused || w.status == Canceled)
  {
  }

  lemma Unused(s: State)
    requires Sound(s)
    ensures s.nextCustomer !in s.customers && s.nextSub !in s.subs && s.nextOrg !in s.orgs && s.nextOrg !in s.owners
  {
  }

  /** With refusals anywhere, no lost answers, and compensations that work, creation ends with everything or nothing. */
  lemma RefusalsAreClean(s: State, creator: UserId, w: Setting)
    requires Sound(s) && (forall step :: w.outcome(step) != Lost)
    requires w.outcome(UndoCustomer) == Works && w.outcome(UndoOrganization) == Works
    ensures var s' := Create(s, Some(creator), w).0; Complete(s, s', creator, w) || Clean(s, s')
  {
    CreateAllOrNothing(s, creator, w);
  }

  // ----- the organization runs see the same creation -----

  /** The creation as a call of the organization service. */
  function AsCall(creator: UserId, w: Setting): Organizations.Call
  {
    Organizations.Create(creator, w.outcome(SaveOrganization), w.outcome(SaveOwner), AllWork(w),
                         w.outcome(UndoOrganization))
  }

  /** The attempt's organization row is there afterwards. */
  predicate LeavesOrg(w: Setting)
  {
    w.outcome(SaveOrganization) == Lost ||
    (w.outcome(SaveOrganization) == Works && (AllWork(w) || w.outcome(UndoOrganization) == Refused))
  }

  predicate LeavesOwner(w: Setting)
  {
    w.outcome(SaveOrganization) == Works && w.outcome(SaveOwner) != Refused
      && (AllWork(w) || w.outcome(UndoOrganization) == Refused)
  }

  lemma AfterCall(o: Organizations.State, creator: UserId, w: Setting)
    requires OrganizationRuns.Sound(o) && (w.outcome(SaveOwner) != Refused ==> creator in o.users)
    ensures var (o', result) := Organizations.Apply(o, AsCall(creator, w));
            && o'.orgs == (if LeavesOrg(w) then o.orgs + {o.nextOrg} else o.orgs)
            && (result == Organizations.Done <==> AllWork(w))
            && (OrganizationRuns.Owned(o', o.nextOrg) <==> LeavesOwner(w))
  {
    var o' := Organizations.Next(o, AsCall(creator, w));
    assert o.nextOrg !in o.orgs && forall m :: m in o.members ==> o.members[m].org != o.nextOrg;
    if LeavesOwner(w) { assert OrganizationRuns.IsOwner(o', o.nextOrg, o.nextMember); }
  }

  lemma AfterSaga(s: State, creator: UserId, w: Setting)
    requires Sound(s)
    ensures var (s', ok) := Create(s, Some(creator), w);
            && s'.orgs.Keys == (if LeavesOrg(w) then s.orgs.Keys + {s.nextOrg} else s.orgs.Keys)
            && (ok <==> AllWork(w)) && (s.nextOrg in s'.owners <==> LeavesOwner(w))
  {
    hide Initialize, Sound;
    var f, org := w.outcome, s.nextOrg;
    CompletesIff(s, creator, w);
    Unused(s);
    NewOrgSound(s);
    if f(SaveOrganization) == Works {
      var s1 := if f(SaveOwner) == Refused then WithOrg(s) else WithOwner(WithOrg(s), org, creator);
      if f(SaveOwner) == Works && f(FindOwner) == Works && w.ownerExists {
        NewOwnerSound(WithOrg(s), org, creator);
        InitializeSound(s1, org, w);
        if !Initialize(s1, org, w).1 { InitializeLeft(s1, org, w); }
      }
    }
  }

  /** On the same organizations, the saga and the organization service's call leave the same organizations, agree
      on success, and agree on whether the new one has an owner. */
  lemma CreationsAgree(o: Organizations.State, s: State, creator: UserId, w: Setting)
    requires OrganizationRuns.Sound(o) && Sound(s) && o.orgs == s.orgs.Keys && o.nextOrg == s.nextOrg
    requires w.outcome(SaveOwner) != Refused ==> creator in o.users
    ensures var (o', result) := Organizations.Apply(o, AsCall(creator, w));
            var (s', ok) := Create(s, Some(creator), w);
            && o'.orgs == s'.orgs.Keys && (result == Organizations.Done <==> ok)
            && (OrganizationRuns.Owned(o', o.nextOrg) <==> s.nextOrg in s'.owners)
  {
    hide Create, Organizations.Apply, LeavesOrg, LeavesOwner, AllWork, Sound, OrganizationRuns.Sound,
         OrganizationRuns.Owned;
    AfterCall(o, creator, w);
    AfterSaga(s, creator, w);
  }
}
