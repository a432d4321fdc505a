/** What plan switches do to a customer's subscriptions, and what every run of billing calls keeps. */
module BillingRuns {
  import opened Seqs
  import opened External
  import opened Billing

  // ----- listing and cancelling -----

  /** Within the page limit the page shows every subscription of the customer. */
  lemma ListedAll(subs: map<SubId, Subscription>, customer: CustomerId)
    requires |CustomerSubs(subs, customer)| <= LIST_LIMIT
    ensures forall t :: t in Listed(subs, customer) <==> t in subs && subs[t].customer == customer
  {
  }

  /** Every subscription is as before or has become canceled. */
  ghost predicate OnlyCancels(subs: map<SubId, Subscription>, after: map<SubId, Subscription>)
  {
    && after.Keys == subs.Keys
    && forall t :: t in subs ==> after[t] == subs[t] || after[t] == subs[t].(status := Canceled)
  }

  lemma {:induction false} CancelEachExact(subs: map<SubId, Subscription>, seen: map<SubId, Subscription>,
                                           ids: seq<SubId>, keep: SubId,
                                           outcome: SubId -> Outcome)
    requires seen.Keys == subs.Keys && forall t :: t in ids ==> t in seen
    ensures var (after, ok) := CancelEach(subs, seen, ids, keep, outcome);
            && OnlyCancels(subs, after)
            && (keep in subs ==> after[keep] == subs[keep])
            && (ok ==> forall t :: t in subs ==>
                  after[t] == if t in ids && t != keep && !Dead(seen[t].status) then subs[t].(status := Canceled)
                              else subs[t])
  {
    if ids != [] {
      assert forall t :: t in ids[1..] ==> t in ids;
      if ids[0] == keep || Dead(seen[ids[0]].status) {
        CancelEachExact(subs, seen, ids[1..], keep, outcome);
      } else {
        var (after, ok) := CancelOne(subs, ids[0], outcome(ids[0]));
        if ok { CancelEachExact(after, seen, ids[1..], keep, outcome); }
      }
    }
  }

  ghost predicate Switched(subs: map<SubId, Subscription>, customer: CustomerId, replaced: Option<SubId>, keep: SubId,
                           t: SubId)
    requires t in subs
  {
    t != keep && (replaced == Some(t) || (t in Listed(subs, customer) && !Dead(subs[t].status)))
  }

  /** A switch cancels exactly the replaced subscription and the customer's listed, still running
      ones; whether or not it completes, it only ever cancels, and never the kept one. */
  lemma CancelForSwitchExact(subs: map<SubId, Subscription>, customer: CustomerId, replaced: Option<SubId>, keep: SubId,
                             cancel: SubId -> Outcome)
    ensures var (after, ok) := CancelForSwitch(subs, customer, replaced, keep, cancel);
            && OnlyCancels(subs, after)
            && (keep in subs ==> after[keep] == subs[keep])
            && (ok ==> forall t :: t in subs ==>
                  after[t] == if Switched(subs, customer, replaced, keep, t) then subs[t].(status := Canceled)
                              else subs[t])
  {
    hide Listed;
    var (mid, ok) := if replaced.Some? && replaced.value != keep
                     then CancelOne(subs, replaced.value, cancel(replaced.value))
                     else (subs, true);
    if ok {
      assert CustomerSubs(mid, customer) == CustomerSubs(subs, customer);
      assert Listed(mid, customer) == Listed(subs, customer) by { SamePage(subs, mid, customer); }
      CancelEachExact(mid, mid, Listed(mid, customer), keep, cancel);
    }
  }

  lemma SamePage(subs: map<SubId, Subscription>, mid: map<SubId, Subscription>, customer: CustomerId)
    requires CustomerSubs(mid, customer) == CustomerSubs(subs, customer)
    ensures Listed(mid, customer) == Listed(subs, customer)
  {
  }

  // ----- plan switches -----

  /** After a persisted switch the record names the kept subscription, which the switch did not touch; each
      other subscription of the customer is dead unless it was running and beyond the listed page. */
  lemma SwitchLeavesOne(s: State, session: Session, expected: Option<OrgId>, strict: bool, view: View)
    requires CheckoutProblem(s, session, expected, strict, view).None?
             && ApplyCheckout(s, session, expected, strict, view).1.Done?
    ensures var s' := ApplyCheckout(s, session, expected, strict, view).0;
            var (org, keep) := (SessionOrg(session).value, session.sub.value);
            var customer := s.records[org].customer;
            && s'.records == s.records[org := Refreshed(s.records[org], s.subs[keep]).(sub := Some(keep))]
            && OnlyCancels(s.subs, s'.subs) && s'.subs[keep] == s.subs[keep]
            && (forall t :: t in s.subs && s.subs[t].customer == customer && t != keep ==>
                  (Dead(s'.subs[t].status) <==>
                     (t in Listed(s.subs, customer) || Dead(s.subs[t].status)
                      || Replaced(s.records[org], session) == Some(t))))
            && (forall t :: t in s.subs && s.subs[t].customer != customer &&
                            Replaced(s.records[org], session) != Some(t) ==>
                  s'.subs[t] == s.subs[t])
  {
    hide CheckoutProblem, Listed, SyncPlan;
    var org, keep := SessionOrg(session).value, session.sub.value;
    assert org in s.records && keep in s.subs;
    CancelForSwitchExact(s.subs, s.records[org].customer, Replaced(s.records[org], session), keep, view.cancel);
    var (subs, _) := CancelForSwitch(s.subs, s.records[org].customer, Replaced(s.records[org], session), keep,
                                     view.cancel);
    SyncPlanOnly(s.(subs := subs,
                    records := s.records[org := Refreshed(s.records[org], s.subs[keep]).(sub := Some(keep))]),
                 org, s.subs[keep].price, view);
  }

  /** A switch for a customer within the page limit leaves the kept subscription as the only one that can be running. */
  lemma SwitchWithinLimit(s: State, session: Session, expected: Option<OrgId>, strict: bool, view: View, t: SubId)
    requires CheckoutProblem(s, session, expected, strict, view).None?
             && ApplyCheckout(s, session, expected, strict, view).1.Done?
    requires t in s.subs && t != session.sub.value
             && s.subs[t].customer == s.records[SessionOrg(session).value].customer
    requires |CustomerSubs(s.subs, s.records[SessionOrg(session).value].customer)| <= LIST_LIMIT
    ensures var after := ApplyCheckout(s, session, expected, strict, view).0.subs; t in after && Dead(after[t].status)
  {
    ListedAll(s.subs, s.records[SessionOrg(session).value].customer);
    SwitchLeavesOne(s, session, expected, strict, view);
  }

  function RunningOthers(subs: map<SubId, Subscription>, customer: CustomerId, keep: SubId): set<SubId>
  {
    set t | t in subs && subs[t].customer == customer && t != keep && !Dead(subs[t].status)
  }

  /** With more running subscriptions to cancel than a page and the replaced one, a persisted switch leaves some
      of them running. */
  lemma SwitchMisses(s: State, session: Session, expected: Option<OrgId>, strict: bool, view: View)
    requires CheckoutProblem(s, session, expected, strict, view).None?
             && ApplyCheckout(s, session, expected, strict, view).1.Done?
    requires |RunningOthers(s.subs, s.records[SessionOrg(session).value].customer, session.sub.value)| > LIST_LIMIT + 1
    ensures var after := ApplyCheckout(s, session, expected, strict, view).0.subs;
            RunningOthers(after, s.records[SessionOrg(session).value].customer, session.sub.value) != {}
  {
    hide CheckoutProblem, ApplyCheckout, Listed;
    var record, keep := s.records[SessionOrg(session).value], session.sub.value;
    var running, listed := RunningOthers(s.subs, record.customer, keep), Listed(s.subs, record.customer);
    var replaced := Replaced(record, session);
    var covered := Elements(listed) + if replaced.Some? then {replaced.value} else {};
    PageSize(s.subs, record.customer);
    ElementsSize(listed);
    if running <= covered { SubsetSize(running, covered); }
    var t :| t in running && t !in covered;
    SwitchLeavesOne(s, session, expected, strict, view);
    assert t in RunningOthers(ApplyCheckout(s, session, expected, strict, view).0.subs, record.customer, keep);
  }

  lemma PageSize(subs: map<SubId, Subscription>, customer: CustomerId)
    ensures |Listed(subs, customer)| <= LIST_LIMIT
  {
  }

  lemma {:induction false} AllCancelled(subs: map<SubId, Subscription>, seen: map<SubId, Subscription>, ids: seq<SubId>,
                                        keep: SubId,
                                        outcome: SubId -> Outcome)
    requires (forall t :: t in ids ==> t in seen && t in subs) && forall t :: outcome(t) == Works
    ensures CancelEach(subs, seen, ids, keep, outcome).1
  {
    if ids != [] {
      if ids[0] == keep || Dead(seen[ids[0]].status) {
        AllCancelled(subs, seen, ids[1..], keep, outcome);
      } else {
        AllCancelled(CancelOne(subs, ids[0], outcome(ids[0])).0, seen, ids[1..], keep, outcome);
      }
    }
  }

  function Below(n: nat): (r: set<nat>)
    ensures |r| == n && forall x: nat :: x in r <==> x < n
  {
    if n == 0 then {} else Below(n - 1) + {n - 1}
  }

  /** One organization whose customer has n active subscriptions, the record naming the first. */
  function Crowd(n: nat): State
  {
    State(map[0 := ZERO], map[], map[0 := Record(0, Some(0), None, None, Active, 0, 0, false)], {0},
          map t | t in Below(n) :: Subscription(0, Active, None, None, 0, 0, false), 1, 1, n)
  }

  const TO_FIRST := Session(true, Some(0), None, None, Some(0))

  function AllGoesWell(): View { View((t: SubId) => true, (t: SubId) => Works, (p: PriceId) => None) }

  lemma CrowdChecked(n: nat)
    requires n > 0
    ensures CheckoutProblem(Crowd(n), TO_FIRST, None, false, AllGoesWell()).None?
  {
    assert 0 in Below(n);
    hide Below;
  }

  /** When every cancellation works and the replaced subscription is the kept one, the switch goes through. */
  lemma CancelsAll(subs: map<SubId, Subscription>, customer: CustomerId, keep: SubId, cancel: SubId -> Outcome)
    requires forall t :: cancel(t) == Works
    ensures CancelForSwitch(subs, customer, Some(keep), keep, cancel).1
  {
    AllCancelled(subs, subs, Listed(subs, customer), keep, cancel);
  }

  lemma CrowdSwitched(n: nat)
    requires n > 0
    ensures ApplyCheckout(Crowd(n), TO_FIRST, None, false, AllGoesWell()).1.Done?
  {
    hide Below, CancelForSwitch, CheckoutProblem, SyncPlan;
    CrowdChecked(n);
    CancelsAll(Crowd(n).subs, 0, 0, AllGoesWell().cancel);
    var record := Crowd(n).records[0];
    assert Replaced(record, TO_FIRST) == Some(0);
  }

  lemma CrowdSize(n: nat)
    requires n > 0
    ensures |RunningOthers(Crowd(n).subs, 0, 0)| == n - 1
  {
    assert RunningOthers(Crowd(n).subs, 0, 0) == Below(n) - {0};
    assert 0 in Below(n);
  }

  /** Such switches exist: with 103 active subscriptions, switching to one of them. */
  lemma SwitchCanMiss()
    ensures exists s: State, session: Session, view: View ::
              && CheckoutProblem(s, session, None, false, view).None?
                 && ApplyCheckout(s, session, None, false, view).1.Done?
              && var after := ApplyCheckout(s, session, None, false, view).0.subs;
                 RunningOthers(after, s.records[SessionOrg(session).value].customer, session.sub.value) != {}
  {
    CrowdChecked(103);
    CrowdSwitched(103);
    CrowdSize(103);
    hide CheckoutProblem, ApplyCheckout, RunningOthers, Below;
    SwitchMisses(Crowd(103), TO_FIRST, None, false, AllGoesWell());
  }

  /** When a check or a cancellation throws, no stored row has changed, and Stripe has at most cancelled
      subscriptions other than the one that was to be kept. */
  lemma FailedSwitch(s: State, session: Session, expected: Option<OrgId>, strict: bool, view: View)
    requires ApplyCheckout(s, session, expected, strict, view).1.Throws?
    ensures var s' := ApplyCheckout(s, session, expected, strict, view).0;
            && s' == s.(subs := s'.subs) && OnlyCancels(s.subs, s'.subs)
            && (session.sub.Some? && session.sub.value in s.subs ==>
                  s'.subs[session.sub.value] == s.subs[session.sub.value])
  {
    hide CheckoutProblem, Listed, SyncPlan;
    if CheckoutProblem(s, session, expected, strict, view).None? {
      var org, keep := SessionOrg(session).value, session.sub.value;
      CancelForSwitchExact(s.subs, s.records[org].customer, Replaced(s.records[org], session), keep, view.cancel);
    }
  }

  lemma SyncPlanOnly(s: State, org: OrgId, price: Option<PriceId>, view: View)
    ensures var s' := SyncPlan(s, org, price, view);
            s' == s.(orgs := s'.orgs) && s'.orgs.Keys == s.orgs.Keys && forall o :: o in s.orgs && o != org ==>
                s'.orgs[o] == s.orgs[o]
  {
  }

  // ----- runs -----

  predicate Runs(s: State, calls: seq<Call>)
    decreases |calls|
  {
    calls == [] || (Allowed(s, calls[0]) && Runs(Next(s, calls[0]), calls[1..]))
  }

  function After(s: State, calls: seq<Call>): State
    requires Runs(s, calls)
    decreases |calls|
  {
    if calls == [] then s else After(Next(s, calls[0]), calls[1..])
  }

  ghost predicate Initial(s: State)
  {
    s.orgs == map[] && s.records == map[] && s.owners == map[] && s.subs == map[] && s.customers == {}
  }

  ghost predicate Linked(s: State, o: OrgId)
    requires o in s.records
  {
    && o in s.orgs && s.records[o].customer < s.nextCustomer
    && (s.records[o].sub.Some? ==>
          s.records[o].sub.value in s.subs && s.subs[s.records[o].sub.value].customer == s.records[o].customer)
  }

  /** Records belong to organizations, point at a subscription of their own customer, and share no customer. */
  ghost predicate Sound(s: State)
  {
    && (forall t :: t in s.subs ==> t < s.nextSub)
    && (forall c :: c in s.customers ==> c < s.nextCustomer)
    && (forall o :: o in s.orgs ==> o < s.nextOrg)
    && (forall o :: o in s.owners ==> o in s.orgs)
    && (forall o :: o in s.records ==> Linked(s, o))
    && (forall o, p :: o in s.records && p in s.records && s.records[o].customer == s.records[p].customer ==> o == p)
  }

  /** How records may change in one call: customers stay, and a new or renamed subscription is the customer's. */
  ghost predicate Keeps(s: State, s': State)
  {
    && s'.nextOrg >= s.nextOrg && s'.nextCustomer >= s.nextCustomer
    && (forall o :: o in s.records && o in s'.records ==> s'.records[o].customer == s.records[o].customer)
    && (forall o :: o in s'.records && o < s.nextOrg ==> o in s.records)
  }

  lemma KeepsTrans(a: State, b: State, c: State)
    requires Sound(a) && Keeps(a, b) && Keeps(b, c)
    ensures Keeps(a, c)
  {
  }

  /** Updating one record without touching its customer. */
  lemma UpdateSound(s: State, s': State, org: OrgId)
    requires Sound(s) && org in s.records && org in s'.records
    requires s' == s.(orgs := s'.orgs, records := s.records[org := s'.records[org]], subs := s'.subs)
    requires s'.orgs.Keys == s.orgs.Keys && OnlyCancels(s.subs, s'.subs)
    requires s'.records[org].customer == s.records[org].customer && Linked(s', org)
    ensures Sound(s') && Keeps(s, s')
  {
    forall o | o in s'.records ensures Linked(s', o) {
      if o != org { assert Linked(s, o); }
    }
  }

  lemma SubsSound(s: State, s': State)
    requires Sound(s) && s' == s.(subs := s'.subs) && OnlyCancels(s.subs, s'.subs)
    ensures Sound(s') && Keeps(s, s')
  {
    forall o | o in s'.records ensures Linked(s', o) {
      assert Linked(s, o);
    }
  }

  lemma CheckoutSound(s: State, session: Session, expected: Option<OrgId>, strict: bool, view: View)
    requires Sound(s)
    ensures var s' := ApplyCheckout(s, session, expected, strict, view).0; Sound(s') && Keeps(s, s')
  {
    hide CheckoutProblem, Listed, Sound, Keeps, CancelForSwitch, SyncPlan;
    var (s', result) := ApplyCheckout(s, session, expected, strict, view);
    if result.Throws? {
      FailedSwitch(s, session, expected, strict, view);
      SubsSound(s, s');
    } else if CheckoutProblem(s, session, expected, strict, view).None? {
      SwitchSound(s, session, expected, strict, view);
    } else {
      SubsSound(s, s);
    }
  }

  lemma SwitchSound(s: State, session: Session, expected: Option<OrgId>, strict: bool, view: View)
    requires Sound(s) && CheckoutProblem(s, session, expected, strict, view).None?
    requires ApplyCheckout(s, session, expected, strict, view).1.Done?
    ensures var s' := ApplyCheckout(s, session, expected, strict, view).0; Sound(s') && Keeps(s, s')
  {
    hide CheckoutProblem, Listed, Keeps, CancelForSwitch, SyncPlan;
    var s' := ApplyCheckout(s, session, expected, strict, view).0;
    SwitchLeavesOne(s, session, expected, strict, view);
    var org, keep := SessionOrg(session).value, session.sub.value;
    assert Linked(s, org);
    SwitchFrame(s, session, expected, strict, view);
    UpdateSound(s, s', org);
  }

  lemma SwitchFrame(s: State, session: Session, expected: Option<OrgId>, strict: bool, view: View)
    requires CheckoutProblem(s, session, expected, strict, view).None?
    requires ApplyCheckout(s, session, expected, strict, view).1.Done?
    ensures var s' := ApplyCheckout(s, session, expected, strict, view).0;
            && s' == s.(orgs := s'.orgs, records := s'.records, subs := s'.subs) && s'.orgs.Keys == s.orgs.Keys
            && (forall o :: o in s.orgs && Some(o) != SessionOrg(session) ==> s'.orgs[o] == s.orgs[o])
            && s' == SyncPlan(s.(records := s'.records, subs := s'.subs), SessionOrg(session).value,
                              s.subs[session.sub.value].price, view)
  {
    hide CheckoutProblem, CancelForSwitch, SyncPlan;
    var org, keep := SessionOrg(session).value, session.sub.value;
    var record := s.records[org];
    var (subs, ok) := CancelForSwitch(s.subs, record.customer, Replaced(record, session), keep, view.cancel);
    SyncPlanOnly(s.(subs := subs, records := s.records[org := Refreshed(record, s.subs[keep]).(sub := Some(keep))]),
                 org, s.subs[keep].price, view);
  }

  // ----- one call at a time -----

  /** The saga touches one organization's record only. */
  ghost predicate Beside(s: State, s': State, org: OrgId)
  {
    && s'.nextOrg == s.nextOrg && s'.nextCustomer >= s.nextCustomer && s'.records - {org} == s.records - {org}
       && s'.orgs.Keys == s.orgs.Keys
  }

  lemma NewCustomerSound(s: State, org: OrgId)
    requires Sound(s)
    ensures Sound(WithCustomer(s)) && Beside(s, WithCustomer(s), org)
  {
    forall o | o in s.records ensures Linked(WithCustomer(s), o) { assert Linked(s, o); }
  }

  lemma NewSubscriptionSound(s: State, org: OrgId, customer: CustomerId, w: Setting)
    requires Sound(s)
    ensures Sound(WithSubscription(s, customer, w)) && Beside(s, WithSubscription(s, customer, w), org)
  {
    forall o | o in s.records ensures Linked(WithSubscription(s, customer, w), o) { assert Linked(s, o); }
  }

  ghost predicate NobodyHas(s: State, customer: CustomerId)
  {
    forall o :: o in s.records ==> s.records[o].customer != customer
  }

  lemma NewRecordSound(s: State, org: OrgId, record: Record)
    requires Sound(s) && NobodyHas(s, record.customer) && Linked(WithRecord(s, org, record), org)
    ensures Sound(WithRecord(s, org, record)) && Beside(s, WithRecord(s, org, record), org)
  {
    forall o | o in s.records && o != org ensures Linked(WithRecord(s, org, record), o) { assert Linked(s, o); }
  }

  lemma RollbackSound(s: State, org: OrgId, customer: CustomerId, sub: Option<SubId>, outcome: Step -> Outcome)
    requires Sound(s)
    ensures var s' := Rollback(s, Some(customer), sub, outcome); Sound(s') && Beside(s, s', org)
  {
    var s' := Rollback(s, Some(customer), sub, outcome);
    forall o | o in s.records ensures Linked(s', o) { assert Linked(s, o); }
  }

  lemma SnapshotSound(s: State, org: OrgId, snapshot: Snapshot)
    requires Sound(s)
    ensures var s' := WithSnapshot(s, org, snapshot); Sound(s') && Beside(s, s', org)
  {
    forall o | o in s.records ensures Linked(WithSnapshot(s, org, snapshot), o) { assert Linked(s, o); }
  }

  lemma SaveAndSyncSound(s: State, org: OrgId, customer: CustomerId, sub: SubId, w: Setting)
    requires Sound(s) && NobodyHas(s, customer) && Linked(WithRecord(s, org, FirstRecord(customer, sub, w)), org)
    ensures var s' := SaveAndSync(s, org, customer, sub, w).0; Sound(s') && Beside(s, s', org)
  {
    hide Sound, Rollback, WithSnapshot, Linked, NobodyHas;
    var f := w.outcome;
    NewRecordSound(s, org, FirstRecord(customer, sub, w));
    var s1 := if f(SaveRecord) == Refused then s else WithRecord(s, org, FirstRecord(customer, sub, w));
    RollbackSound(s1, org, customer, Some(sub), f);
    if w.plan.Some? {
      SnapshotSound(s1, org, w.plan.value.metadata);
      RollbackSound(WithSnapshot(s1, org, w.plan.value.metadata), org, customer, Some(sub), f);
    }
  }

  lemma InitializeSound(s: State, org: OrgId, w: Setting)
    requires Sound(s) && org in s.orgs
    ensures var s' := Initialize(s, org, w).0; Sound(s') && Beside(s, s', org)
  {
    hide Sound, Rollback, SaveAndSync;
    assert NobodyHas(s, s.nextCustomer) by { NextCustomerFree(s); }
    NewCustomerSound(s, org);
    var s1 := WithCustomer(s);
    NewSubscriptionSound(s1, org, s.nextCustomer, w);
    var s2 := WithSubscription(s1, s.nextCustomer, w);
    RollbackSound(s1, org, s.nextCustomer, None, w.outcome);
    RollbackSound(s2, org, s.nextCustomer, None, w.outcome);
    SaveAndSyncSound(s2, org, s.nextCustomer, s.nextSub, w);
  }

  lemma NextCustomerFree(s: State)
    requires Sound(s)
    ensures NobodyHas(s, s.nextCustomer)
  {
    forall o | o in s.records ensures s.records[o].customer != s.nextCustomer { assert Linked(s, o); }
  }

  lemma NewOrgSound(s: State)
    requires Sound(s)
    ensures Sound(WithOrg(s)) && s.nextOrg !in s.records
  {
    forall o | o in s.records ensures Linked(WithOrg(s), o) { assert Linked(s, o); }
    assert s.nextOrg in s.records ==> Linked(s, s.nextOrg);
  }

  lemma NewOwnerSound(s: State, org: OrgId, owner: UserId)
    requires Sound(s) && org in s.orgs
    ensures Sound(WithOwner(s, org, owner))
  {
    forall o | o in s.records ensures Linked(WithOwner(s, org, owner), o) { assert Linked(s, o); }
  }

  lemma DropSound(s: State, org: OrgId)
    requires Sound(s)
    ensures Sound(DropOrg(s, org)) && Keeps(s, DropOrg(s, org))
  {
    forall o | o in DropOrg(s, org).records ensures Linked(DropOrg(s, org), o) { assert Linked(s, o); }
  }

  lemma CreateSound(s: State, creator: Option<UserId>, w: Setting)
    requires Sound(s)
    ensures var s' := Create(s, creator, w).0; Sound(s') && Keeps(s, s')
  {
    hide Initialize, Sound;
    var org, s0 := s.nextOrg, WithOrg(s);
    NewOrgSound(s);
    if creator.Some? {
      NewOwnerSound(s0, org, creator.value);
      var s1 := if w.outcome(SaveOwner) == Refused then s0 else WithOwner(s0, org, creator.value);
      InitializeSound(s1, org, w);
      DropSound(s1, org);
      DropSound(Initialize(s1, org, w).0, org);
      BesideKeeps(s, Initialize(s1, org, w).0, org);
    }
  }

  lemma BesideKeeps(s: State, s': State, org: OrgId)
    requires org == s.nextOrg && org !in s.records && Beside(WithOrg(s), s', org)
    ensures Keeps(s, s') && Keeps(s, DropOrg(s', org))
  {
    forall o | o in s'.records && o != org ensures o in s.records && s'.records[o] == s.records[o] {
      assert o in s'.records - {org};
      assert (s'.records - {org})[o] == (s.records - {org})[o];
    }
  }

  lemma HandleSound(s: State, event: Event, view: View)
    requires Sound(s)
    ensures var s' := Handle(s, event, view).0; Sound(s') && Keeps(s, s')
  {
    hide ApplyCheckout, SyncPlan, Sound, Keeps;
    var s' := Handle(s, event, view).0;
    match event
    case CheckoutCompleted(session) => CheckoutSound(s, session, None, false, view);
    case SubscriptionUpdated(id, payload) =>
      var org := FindBySub(s.records, id);
      if org.Some? {
        SyncPlanOnly(s.(records := s.records[org.value := Refreshed(s.records[org.value], payload)]), org.value,
                     payload.price, view);
        FieldsSound(s, s', org.value);
      } else { SubsSound(s, s); }
    case SubscriptionDeleted(id) =>
      if FindBySub(s.records, id).Some? {
        FieldsSound(s, s', FindBySub(s.records, id).value);
      } else {
        SubsSound(s, s);
      }
    case PaymentFailed(sub) =>
      if s' != s { FieldsSound(s, s', FindBySub(s.records, sub.value).value); } else { SubsSound(s, s); }
    case PaymentSucceeded(sub) =>
      if s' != s { FieldsSound(s, s', FindBySub(s.records, sub.value).value); } else { SubsSound(s, s); }
    case OtherEvent => SubsSound(s, s);
  }

  /** Updating one record without touching its customer or its subscription. */
  lemma FieldsSound(s: State, s': State, org: OrgId)
    requires Sound(s) && org in s.records && org in s'.records
    requires s' == s.(orgs := s'.orgs, records := s.records[org := s'.records[org]]) && s'.orgs.Keys == s.orgs.Keys
    requires s'.records[org].customer == s.records[org].customer && s'.records[org].sub == s.records[org].sub
    ensures Sound(s') && Keeps(s, s')
  {
    assert Linked(s, org);
    UpdateSound(s, s', org);
  }

  lemma ReadSound(s: State, org: OrgId, session: Option<Session>, view: View)
    requires Sound(s)
    ensures var s' := ReadSubscription(s, org, session, view).0; Sound(s') && Keeps(s, s')
  {
    hide ApplyCheckout, SyncPlan;
    if session.Some? { CheckoutSound(s, session.value, Some(org), true, view); }
    var (r, result) := if session.Some? then ApplyCheckout(s, session.value, Some(org), true, view) else (s, Done);
    if result.Done? && org in r.records {
      SyncPlanOnly(r, org, r.records[org].price, view);
      FieldsSound(r, ReadSubscription(s, org, session, view).0, org);
      KeepsTrans(s, r, ReadSubscription(s, org, session, view).0);
    }
  }

  lemma StepSound(s: State, call: Call)
    requires Sound(s) && Allowed(s, call)
    ensures Sound(Next(s, call)) && Keeps(s, Next(s, call))
  {
    match call
    case CreateOrg(creator, w) => CreateSound(s, creator, w);
    case GetSubscription(org, session, view) => ReadSound(s, org, session, view);
    case Webhook(event, view) => HandleSound(s, event, view);
    case _ => OutsideSound(s, call);
  }

  lemma OutsideSound(s: State, call: Call)
    requires Sound(s) && Allowed(s, call) && (call.DeleteOrg? || call.StripeCustomer? || call.StripeCheckout?
                                              || call.StripeChange?)
    ensures Sound(Next(s, call)) && Keeps(s, Next(s, call))
  {
    var s' := Next(s, call);
    forall o | o in s'.records ensures Linked(s', o) {
      assert Linked(s, o);
    }
  }

  lemma {:induction false} RunSound(s: State, calls: seq<Call>)
    requires Sound(s) && Runs(s, calls)
    ensures Sound(After(s, calls)) && Keeps(s, After(s, calls))
    decreases |calls|
  {
    if calls != [] {
      StepSound(s, calls[0]);
      RunSound(Next(s, calls[0]), calls[1..]);
      KeepsTrans(s, Next(s, calls[0]), After(s, calls));
    }
  }

  /** In every run, each record's subscription belongs to the record's customer, no two organizations share
      a customer or a subscription, and from any point on a record's customer never changes. */
  lemma CustomersFixed(s: State, calls: seq<Call>, more: seq<Call>)
    requires Initial(s) && Runs(s, calls) && Runs(After(s, calls), more)
    ensures var (a, b) := (After(s, calls), After(After(s, calls), more));
            && (forall o :: o in a.records && o in b.records ==> b.records[o].customer == a.records[o].customer)
            && (forall o :: o in b.records && b.records[o].sub.Some? ==>
                  b.records[o].sub.value in b.subs && b.subs[b.records[o].sub.value].customer == b.records[o].customer)
            && (forall o, p :: o in b.records && p in b.records && o != p ==>
                  b.records[o].customer != b.records[p].customer
                    && (b.records[o].sub.Some? ==> b.records[o].sub != b.records[p].sub))
  {
    RunSound(s, calls);
    RunSound(After(s, calls), more);
    var b := After(After(s, calls), more);
    forall o | o in b.records ensures Linked(b, o) {}
  }

  predicate About(event: Event, sub: SubId)
  {
    match event
    case SubscriptionUpdated(id, _) => id == sub
    case SubscriptionDeleted(id) => id == sub
    case PaymentFailed(id) => id == Some(sub)
    case PaymentSucceeded(id) => id == Some(sub)
    case _ => false
  }

  /** A webhook that looks its record up by subscription changes no other organization's record or plan,
      and no second record could have been meant. */
  lemma WebhookTouchesOne(s: State, calls: seq<Call>, event: Event, view: View, sub: SubId, o: OrgId)
    requires Initial(s) && Runs(s, calls) && About(event, sub)
    requires o in After(s, calls).records && After(s, calls).records[o].sub != Some(sub)
    ensures var (e, e') := (After(s, calls), Handle(After(s, calls), event, view).0);
            && o in e'.records && e'.records[o] == e.records[o]
            && o in e.orgs && o in e'.orgs && e'.orgs[o] == e.orgs[o]
            && forall p, q :: p in e.records && q in e.records && e.records[p].sub == Some(sub) == e.records[q].sub ==>
                 p == q
  {
    hide Handle, Runs, Keeps;
    RunSound(s, calls);
    var e := After(s, calls);
    assert Linked(e, o);
    OthersKept(e, event, view, sub, o);
    forall p, q | p in e.records && q in e.records && e.records[p].sub == Some(sub) == e.records[q].sub ensures p == q {
      assert Linked(e, p) && Linked(e, q);
    }
  }

  lemma OthersKept(s: State, event: Event, view: View, sub: SubId, o: OrgId)
    requires About(event, sub) && o in s.records && s.records[o].sub != Some(sub) && o in s.orgs
    ensures var s' := Handle(s, event, view).0;
            o in s'.records && s'.records[o] == s.records[o] && o in s'.orgs && s'.orgs[o] == s.orgs[o]
  {
    hide ApplyCheckout;
  }
}
