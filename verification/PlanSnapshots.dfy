/** The plan columns of an organization follow its record's price. */
module PlanSnapshots {
  import opened Seqs
  import opened External
  import opened Billing
  import opened BillingRuns

  type Catalogue = PriceId -> Snapshot

  /** The organization shows its price's plan or, when allowed, the zero snapshot. */
  predicate ShowsPlan(s: State, o: OrgId, plans: Catalogue, zero: bool)
    requires o in s.records
  {
    s.records[o].price.Some? ==>
      o in s.orgs && (s.orgs[o] == plans(s.records[o].price.value) || (zero && s.orgs[o] == ZERO))
  }

  ghost predicate Fits(s: State, plans: Catalogue, zero: bool)
  {
    forall o :: o in s.records ==> ShowsPlan(s, o, plans, zero)
  }

  ghost predicate Reads(view: View, plans: Catalogue)
  {
    forall p :: view.plan(p).Some? && view.plan(p).value.metadata == plans(p)
  }

  /** Every plan lookup of the call succeeds, with the catalogue's answer. */
  ghost predicate LookupsWork(call: Call, plans: Catalogue)
  {
    match call
    case CreateOrg(_, w) => w.plan.Some? && w.plan.value.metadata == plans(w.price)
    case GetSubscription(_, _, view) => Reads(view, plans)
    case Webhook(_, view) => Reads(view, plans)
    case _ => true
  }

  /** Calls that can write the zero snapshot over a record with a price: a deletion event, or a creation
      that could not remove the organization it failed to set up. */
  predicate Zeroes(call: Call)
  {
    match call
    case CreateOrg(_, w) => w.outcome(UndoOrganization) == Refused
    case Webhook(event, _) => event.SubscriptionDeleted?
    case _ => false
  }

  lemma SyncFits(s: State, org: OrgId, price: Option<PriceId>, view: View, plans: Catalogue, zero: bool)
    requires org in s.orgs && org in s.records && s.records[org].price == price && Reads(view, plans)
    requires forall o :: o in s.records && o != org ==> ShowsPlan(s, o, plans, zero)
    ensures Fits(SyncPlan(s, org, price, view), plans, zero)
  {
    var s' := SyncPlan(s, org, price, view);
    forall o | o in s'.records ensures ShowsPlan(s', o, plans, zero) {
      if o != org { assert ShowsPlan(s, o, plans, zero); }
    }
  }

  lemma CheckoutFits(s: State, session: Session, expected: Option<OrgId>, strict: bool, view: View, plans: Catalogue,
                     zero: bool)
    requires Sound(s) && Fits(s, plans, zero) && Reads(view, plans)
    ensures Fits(ApplyCheckout(s, session, expected, strict, view).0, plans, zero)
  {
    hide CheckoutProblem, Sound, CancelForSwitch, SyncPlan, Reads;
    var (s', result) := ApplyCheckout(s, session, expected, strict, view);
    if result.Throws? {
      FailedSwitch(s, session, expected, strict, view);
      SameShow(s, s', plans, zero);
    } else if CheckoutProblem(s, session, expected, strict, view).None? {
      SwitchLeavesOne(s, session, expected, strict, view);
      SwitchFrame(s, session, expected, strict, view);
      var org, keep := SessionOrg(session).value, session.sub.value;
      assert org in s.orgs by { RecordHasOrg(s, org); }
      var mid := s.(records := s'.records, subs := s'.subs);
      forall o | o in mid.records && o != org ensures ShowsPlan(mid, o, plans, zero) {
        assert ShowsPlan(s, o, plans, zero);
      }
      SyncFits(mid, org, s.subs[keep].price, view, plans, zero);
    }
  }

  lemma RecordHasOrg(s: State, org: OrgId)
    requires Sound(s) && org in s.records
    ensures org in s.orgs
  {
    assert Linked(s, org);
  }

  lemma SameShow(s: State, s': State, plans: Catalogue, zero: bool)
    requires Fits(s, plans, zero) && s'.orgs == s.orgs && s'.records.Keys == s.records.Keys
    requires forall o :: o in s.records ==> s'.records[o].price == s.records[o].price
    ensures Fits(s', plans, zero)
  {
    forall o | o in s'.records ensures ShowsPlan(s', o, plans, zero) { assert ShowsPlan(s, o, plans, zero); }
  }

  lemma HandleFits(s: State, event: Event, view: View, plans: Catalogue, zero: bool)
    requires Sound(s) && Fits(s, plans, zero) && Reads(view, plans) && (event.SubscriptionDeleted? ==> zero)
    ensures Fits(Handle(s, event, view).0, plans, zero)
  {
    hide ApplyCheckout, SyncPlan, Sound, Fits, Reads;
    var s' := Handle(s, event, view).0;
    match event
    case CheckoutCompleted(session) => CheckoutFits(s, session, None, false, view, plans, zero);
    case SubscriptionUpdated(id, payload) =>
      var org := FindBySub(s.records, id);
      if org.Some? {
        RecordHasOrg(s, org.value);
        var mid := s.(records := s.records[org.value := Refreshed(s.records[org.value], payload)]);
        OthersShow(s, mid, org.value, plans, zero);
        SyncFits(mid, org.value, payload.price, view, plans, zero);
      }
    case SubscriptionDeleted(id) =>
      var org := FindBySub(s.records, id);
      if org.Some? {
        RecordHasOrg(s, org.value);
        OthersShow(s, s', org.value, plans, zero);
        OneMoreShows(s', org.value, plans, zero);
      }
    case PaymentFailed(_) => SameShow(s, s', plans, zero);
    case PaymentSucceeded(_) => SameShow(s, s', plans, zero);
    case OtherEvent =>
  }

  lemma OneMoreShows(s: State, org: OrgId, plans: Catalogue, zero: bool)
    requires org in s.records && ShowsPlan(s, org, plans, zero)
    requires forall o :: o in s.records && o != org ==> ShowsPlan(s, o, plans, zero)
    ensures Fits(s, plans, zero)
  {
  }

  lemma OthersShow(s: State, s': State, org: OrgId, plans: Catalogue, zero: bool)
    requires Fits(s, plans, zero) && s'.records.Keys == s.records.Keys && s'.orgs.Keys == s.orgs.Keys
    requires forall o :: o in s.records && o != org ==> s'.records[o] == s.records[o]
    requires forall o :: o in s.orgs && o != org ==> s'.orgs[o] == s.orgs[o]
    ensures forall o :: o in s'.records && o != org ==> ShowsPlan(s', o, plans, zero)
  {
    forall o | o in s'.records && o != org ensures ShowsPlan(s', o, plans, zero) {
      assert ShowsPlan(s, o, plans, zero);
    }
  }

  lemma ReadFits(s: State, org: OrgId, session: Option<Session>, view: View, plans: Catalogue, zero: bool)
    requires Sound(s) && Fits(s, plans, zero) && Reads(view, plans)
    ensures Fits(ReadSubscription(s, org, session, view).0, plans, zero)
  {
    hide ApplyCheckout, SyncPlan, Sound, Fits, Reads;
    if session.Some? {
      CheckoutFits(s, session.value, Some(org), true, view, plans, zero);
      CheckoutSound(s, session.value, Some(org), true, view);
    }
    var (r, result) := if session.Some? then ApplyCheckout(s, session.value, Some(org), true, view) else (s, Done);
    if result.Done? && org in r.records {
      RecordHasOrg(r, org);
      OthersShow(r, r, org, plans, zero);
      SyncFits(r, org, r.records[org].price, view, plans, zero);
    }
  }

  lemma CreateFits(s: State, creator: Option<UserId>, w: Setting, plans: Catalogue, zero: bool)
    requires Sound(s) && Fits(s, plans, zero) && w.plan.Some? && w.plan.value.metadata == plans(w.price)
    requires w.outcome(UndoOrganization) == Refused ==> zero
    ensures Fits(Create(s, creator, w).0, plans, zero)
  {
    hide Initialize, Sound, Fits, Keeps, ShowsPlan;
    var f, org := w.outcome, s.nextOrg;
    NewOrgSound(s);
    StillShows(s, WithOrg(s), org, plans, zero);
    if creator.Some? && f(SaveOrganization) == Works {
      var s1 := if f(SaveOwner) == Refused then WithOrg(s) else WithOwner(WithOrg(s), org, creator.value);
      var attempt := f(SaveOwner) == Works && f(FindOwner) == Works && w.ownerExists;
      var (s2, ok) := if attempt then Initialize(s1, org, w) else (s1, false);
      if attempt {
        NewOwnerSound(WithOrg(s), org, creator.value);
        InitializeSound(s1, org, w);
        InitializeShows(s1, org, w, plans);
      }
      AttemptFits(s, s2, ok, org, plans, zero);
    }
  }

  /** Whether an attempt is kept or its organization dropped, the others still show their plans. */
  lemma AttemptFits(s: State, s2: State, ok: bool, org: OrgId, plans: Catalogue, zero: bool)
    requires Fits(s, plans, zero) && s2.records - {org} == s.records && org !in s.records
    requires forall o :: o in s.orgs && o != org ==> o in s2.orgs && s2.orgs[o] == s.orgs[o]
    requires org in s2.records ==> ShowsPlan(s2, org, plans, !ok)
    ensures (ok || zero ==> Fits(s2, plans, zero)) && Fits(DropOrg(s2, org), plans, zero)
  {
    hide Fits, ShowsPlan;
    if org in s2.records {
      if ok { ShowsMore(s2, org, plans, zero); }
    }
    if ok || zero { StillShows(s, s2, org, plans, zero); }
    StillShows(s, DropOrg(s2, org), org, plans, zero);
  }

  lemma ShowsMore(s: State, o: OrgId, plans: Catalogue, zero: bool)
    requires o in s.records && ShowsPlan(s, o, plans, false)
    ensures ShowsPlan(s, o, plans, zero)
  {
  }

  lemma RollbackRows(s: State, customer: Option<CustomerId>, sub: Option<SubId>, outcome: Step -> Outcome)
    ensures var s' := Rollback(s, customer, sub, outcome); s'.orgs == s.orgs && s'.records == s.records
  {
  }

  lemma SaveAndSyncShows(s: State, org: OrgId, customer: CustomerId, sub: SubId, w: Setting, plans: Catalogue)
    requires org in s.orgs && s.orgs[org] == ZERO && org !in s.records && w.plan.Some?
             && w.plan.value.metadata == plans(w.price)
    ensures var (s', ok) := SaveAndSync(s, org, customer, sub, w);
            && (forall o :: o in s.orgs && o != org ==> o in s'.orgs && s'.orgs[o] == s.orgs[o])
            && (org in s'.records ==> ShowsPlan(s', org, plans, !ok))
  {
    hide Rollback;
    var s1 := if w.outcome(SaveRecord) == Refused then s else WithRecord(s, org, FirstRecord(customer, sub, w));
    RollbackRows(s1, Some(customer), Some(sub), w.outcome);
    RollbackRows(WithSnapshot(s1, org, w.plan.value.metadata), Some(customer), Some(sub), w.outcome);
  }

  /** What initialisation leaves for its own organization, when it succeeds and when it fails. */
  lemma InitializeShows(s: State, org: OrgId, w: Setting, plans: Catalogue)
    requires org in s.orgs && s.orgs[org] == ZERO && org !in s.records && w.plan.Some?
             && w.plan.value.metadata == plans(w.price)
    ensures var (s', ok) := Initialize(s, org, w);
            && (forall o :: o in s.orgs && o != org ==> o in s'.orgs && s'.orgs[o] == s.orgs[o])
            && (org in s'.records ==> ShowsPlan(s', org, plans, !ok))
  {
    hide Rollback, SaveAndSync, ShowsPlan;
    var s1 := WithCustomer(s);
    var s2 := WithSubscription(s1, s.nextCustomer, w);
    RollbackRows(s1, Some(s.nextCustomer), None, w.outcome);
    RollbackRows(s2, Some(s.nextCustomer), None, w.outcome);
    SaveAndSyncShows(s2, org, s.nextCustomer, s.nextSub, w, plans);
  }

  lemma StillShows(s: State, s': State, org: OrgId, plans: Catalogue, zero: bool)
    requires Fits(s, plans, zero) && s'.records - {org} == s.records && org !in s.records
    requires forall o :: o in s.orgs && o != org ==> o in s'.orgs && s'.orgs[o] == s.orgs[o]
    requires org in s'.records ==> ShowsPlan(s', org, plans, zero)
    ensures Fits(s', plans, zero)
  {
    forall o | o in s'.records ensures ShowsPlan(s', o, plans, zero) {
      if o != org {
        assert o in s'.records - {org} && (s'.records - {org})[o] == s.records[o];
        assert ShowsPlan(s, o, plans, zero);
      }
    }
  }

  lemma StepFits(s: State, call: Call, plans: Catalogue, zero: bool)
    requires Sound(s) && Fits(s, plans, zero) && Allowed(s, call) && LookupsWork(call, plans) && (Zeroes(call) ==> zero)
    ensures Fits(Next(s, call), plans, zero)
  {
    hide Sound, Fits, Create, Handle, ReadSubscription;
    match call
    case CreateOrg(creator, w) => CreateFits(s, creator, w, plans, zero);
    case GetSubscription(org, session, view) => ReadFits(s, org, session, view, plans, zero);
    case Webhook(event, view) => HandleFits(s, event, view, plans, zero);
    case DeleteOrg(org) => DropFits(s, org, plans, zero);
    case _ => SameShow(s, Next(s, call), plans, zero);
  }

  lemma DropFits(s: State, org: OrgId, plans: Catalogue, zero: bool)
    requires Fits(s, plans, zero)
    ensures Fits(DropOrg(s, org), plans, zero)
  {
    forall o | o in DropOrg(s, org).records ensures ShowsPlan(DropOrg(s, org), o, plans, zero) {
      assert ShowsPlan(s, o, plans, zero);
    }
  }

  lemma {:induction false} RunFits(s: State, calls: seq<Call>, plans: Catalogue, zero: bool)
    requires Sound(s) && Fits(s, plans, zero) && Runs(s, calls)
    requires forall i :: 0 <= i < |calls| ==> LookupsWork(calls[i], plans) && (Zeroes(calls[i]) ==> zero)
    ensures Fits(After(s, calls), plans, zero)
    decreases |calls|
  {
    if calls != [] {
      StepFits(s, calls[0], plans, zero);
      StepSound(s, calls[0]);
      RunFits(Next(s, calls[0]), calls[1..], plans, zero);
    }
  }

  /** With a fixed catalogue and successful lookups, every organization whose record has a price shows that
      price's plan or the zero snapshot, and exactly the plan when no call of the run writes zeroes. */
  lemma SnapshotFollowsPrice(s: State, calls: seq<Call>, plans: Catalogue, o: OrgId)
    requires Initial(s) && Runs(s, calls) && (forall i :: 0 <= i < |calls| ==> LookupsWork(calls[i], plans))
    requires o in After(s, calls).records && After(s, calls).records[o].price.Some?
    ensures var e := After(s, calls);
            && o in e.orgs && (e.orgs[o] == plans(e.records[o].price.value) || e.orgs[o] == ZERO)
            && ((forall i :: 0 <= i < |calls| ==> !Zeroes(calls[i])) ==> e.orgs[o] == plans(e.records[o].price.value))
  {
    RunFits(s, calls, plans, true);
    assert ShowsPlan(After(s, calls), o, plans, true);
    if forall i :: 0 <= i < |calls| ==> !Zeroes(calls[i]) {
      RunFits(s, calls, plans, false);
      assert ShowsPlan(After(s, calls), o, plans, false);
    }
  }

  /** When a lookup may fail, an update leaves the right snapshot if and only if the lookup worked or the old
      snapshot happened to be right already. */
  lemma UpdateFitsIff(s: State, id: SubId, payload: Subscription, view: View, plans: Catalogue, org: OrgId)
    requires Sound(s) && FindBySub(s.records, id) == Some(org) && payload.price.Some?
    requires view.plan(payload.price.value).Some? ==>
               view.plan(payload.price.value).value.metadata == plans(payload.price.value)
    ensures org in s.orgs
    ensures var s' := Handle(s, SubscriptionUpdated(id, payload), view).0;
            && org in s'.orgs && org in s'.records && s'.records[org].price == payload.price
            && (s'.orgs[org] == plans(payload.price.value) <==>
                  (view.plan(payload.price.value).Some? || s.orgs[org] == plans(payload.price.value)))
  {
    RecordHasOrg(s, org);
  }

  /** The zero snapshot of a deleted subscription seldom lasts: the next read leaves it standing exactly when the
      record has no price, the plan cannot be read, or the plan itself is zero. Otherwise the canceled
      organization gets its plan's limits back. */
  lemma ReadingRestoresPlan(s: State, id: SubId, org: OrgId, view: View)
    requires Sound(s) && FindBySub(s.records, id) == Some(org)
    ensures var price := s.records[org].price;
            var s1 := Handle(s, SubscriptionDeleted(id), view).0;
            var (s2, result) := ReadSubscription(s1, org, None, view);
            && org in s1.orgs && s1.orgs[org] == ZERO
            && result == Done && org in s2.records && s2.records[org].status == Canceled
               && s2.records[org].price == price
            && org in s2.orgs
            && (s2.orgs[org] == ZERO <==>
                  price.None? || view.plan(price.value).None? || view.plan(price.value).value.metadata == ZERO)
            && (price.Some? && view.plan(price.value).Some? ==> s2.orgs[org] == view.plan(price.value).value.metadata)
  {
    RecordHasOrg(s, org);
  }
}
