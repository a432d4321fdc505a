/** When a checkout session is applied, and how it ends otherwise: stated over the session, the records and Stripe's
    answers. What the switch then stores, column by column. */
module CheckoutChecks {
  import opened Seqs
  import opened External
  import opened Billing
  import opened BillingRuns

  // ----- which session may be applied -----

  /** The session is for this organization: its metadata say so or, when they name none, its reference does. */
  predicate Names(session: Session, org: OrgId)
  {
    session.metadataOrg == Some(org) || (session.metadataOrg.None? && session.clientReference == Some(org))
  }

  /** It is for another organization than the expected one. */
  ghost predicate Foreign(session: Session, expected: Option<OrgId>)
  {
    expected.Some? && exists org :: Names(session, org) && org != expected.value
  }

  /** Finished as far as that matters, and not for somebody else. */
  ghost predicate Proper(session: Session, expected: Option<OrgId>, strict: bool)
  {
    (strict ==> session.complete) && !Foreign(session, expected)
  }

  /** The record's customer has this subscription, and Stripe returns it. */
  predicate Fetched(s: State, org: OrgId, sub: SubId, view: View)
    requires org in s.records
  {
    sub in s.subs && view.retrieve(sub) && s.subs[sub].customer == s.records[org].customer
  }

  /** The switch of this organization to this subscription is attempted. */
  ghost predicate Attempted(s: State, session: Session, expected: Option<OrgId>, strict: bool, view: View, org: OrgId,
                            sub: SubId)
  {
    && Proper(session, expected, strict) && Names(session, org) && session.sub == Some(sub)
    && org in s.records && Fetched(s, org, sub, view)
  }

  lemma NamesOne(session: Session)
    ensures forall org: OrgId :: Names(session, org) <==> SessionOrg(session) == Some(org)
  {
  }

  /** The checks let a session through exactly when its switch is to be attempted. */
  lemma AttemptedIff(s: State, session: Session, expected: Option<OrgId>, strict: bool, view: View)
    ensures CheckoutProblem(s, session, expected, strict, view).None? <==>
            exists org, sub :: Attempted(s, session, expected, strict, view, org, sub)
    ensures forall org: OrgId, sub: SubId :: Attempted(s, session, expected, strict, view, org, sub) ==>
              SessionOrg(session) == Some(org) && session.sub == Some(sub)
  {
    NamesOne(session);
    hide Names;
    if CheckoutProblem(s, session, expected, strict, view).None? {
      assert Attempted(s, session, expected, strict, view, SessionOrg(session).value, session.sub.value);
    }
  }

  // ----- how it ends -----

  predicate StillRuns(status: SubStatus) { status != Canceled && status != IncompleteExpired }

  /** The cancellations a switch needs all work: of the replaced subscription, which must exist, and of the
      customer's listed ones that still run. */
  ghost predicate CancelsWork(subs: map<SubId, Subscription>, customer: CustomerId, replaced: Option<SubId>,
                              keep: SubId, cancel: SubId -> Outcome)
  {
    && (replaced.Some? && replaced.value != keep ==> replaced.value in subs && cancel(replaced.value) == Works)
    && (forall t :: t in Listed(subs, customer) && t != keep && StillRuns(subs[t].status) ==> cancel(t) == Works)
  }

  lemma {:induction false} CancelEachIff(subs: map<SubId, Subscription>, seen: map<SubId, Subscription>,
                                         ids: seq<SubId>, keep: SubId, cancel: SubId -> Outcome)
    requires seen.Keys == subs.Keys && forall t :: t in ids ==> t in seen
    ensures CancelEach(subs, seen, ids, keep, cancel).1 <==>
            forall t :: t in ids && t != keep && !Dead(seen[t].status) ==> cancel(t) == Works
  {
    if ids != [] {
      assert ids == [ids[0]] + ids[1..];
      var after := CancelOne(subs, ids[0], cancel(ids[0])).0;
      if ids[0] == keep || Dead(seen[ids[0]].status) {
        CancelEachIff(subs, seen, ids[1..], keep, cancel);
      } else {
        CancelEachIff(after, seen, ids[1..], keep, cancel);
      }
    }
  }

  /** A switch's cancellations succeed exactly when each needed one works. */
  lemma CancelsWorkIff(subs: map<SubId, Subscription>, customer: CustomerId, replaced: Option<SubId>, keep: SubId,
                       cancel: SubId -> Outcome)
    ensures CancelForSwitch(subs, customer, replaced, keep, cancel).1 <==>
            CancelsWork(subs, customer, replaced, keep, cancel)
  {
    hide Listed;
    var (mid, ok) := if replaced.Some? && replaced.value != keep
                     then CancelOne(subs, replaced.value, cancel(replaced.value))
                     else (subs, true);
    if ok {
      assert CustomerSubs(mid, customer) == CustomerSubs(subs, customer);
      SamePage(subs, mid, customer);
      CancelEachIff(mid, mid, Listed(mid, customer), keep, cancel);
    }
  }

  /** Every way a session can end, and that it changes nothing unless its switch is attempted. */
  lemma CheckoutEnds(s: State, session: Session, expected: Option<OrgId>, strict: bool, view: View)
    ensures var (s', r) := ApplyCheckout(s, session, expected, strict, view);
            var proper := Proper(session, expected, strict);
            var named := session.sub.Some? && exists org :: Names(session, org);
            var recorded := session.sub.Some? && exists org :: Names(session, org) && org in s.records;
            var fetched := session.sub.Some? && session.sub.value in s.subs && view.retrieve(session.sub.value);
            var attempted := exists org, sub :: Attempted(s, session, expected, strict, view, org, sub);
            && (r == Throws(NotCompleted) <==> strict && !session.complete)
            && (r == Throws(WrongOrganization) <==> (strict ==> session.complete) && Foreign(session, expected))
            && (r == Throws(SessionIncomplete) <==> strict && proper && !named)
            && (r == Throws(NoRecord) <==> strict && proper && named && !recorded)
            && (r == Throws(RetrieveFailed) <==> proper && recorded && !fetched)
            && (r == Throws(WrongCustomer) <==> proper && recorded && fetched && !attempted)
            && (r == Done && !attempted <==> !strict && proper && !recorded)
            && (r == Throws(CancelFailed) ==> attempted)
            && (!attempted ==> s' == s)
  {
    NamesOne(session);
    AttemptedIff(s, session, expected, strict, view);
    hide Names, CancelForSwitch, SyncPlan, Attempted;
    if SessionOrg(session).Some? { assert Names(session, SessionOrg(session).value); }
  }

  /** What a caller is told: a strict call throws on an unfinished session, and without an attempt nothing changes. */
  ghost predicate OnlyAttemptsChange(s: State, s': State, r: Result, session: Session, expected: Option<OrgId>,
                                     strict: bool, view: View)
  {
    && (r == Throws(NotCompleted) <==> strict && !session.complete)
    && ((forall org, sub :: !Attempted(s, session, expected, strict, view, org, sub)) ==> s' == s)
  }

  lemma CheckoutChanges(s: State, session: Session, expected: Option<OrgId>, strict: bool, view: View)
    ensures var (s', r) := ApplyCheckout(s, session, expected, strict, view);
            OnlyAttemptsChange(s, s', r, session, expected, strict, view)
  {
    CheckoutEnds(s, session, expected, strict, view);
  }

  /** An attempted switch goes through exactly when its cancellations work, and then stores every column of the
      subscription and, where its plan can be read, the plan. Failing, it has stored nothing. */
  lemma AttemptEnds(s: State, session: Session, expected: Option<OrgId>, strict: bool, view: View, org: OrgId,
                    sub: SubId)
    requires Attempted(s, session, expected, strict, view, org, sub)
    ensures var (s', r) := ApplyCheckout(s, session, expected, strict, view);
            var (prior, stripe) := (s.records[org], s.subs[sub]);
            var replaced := if session.previous.Some? then session.previous else prior.sub;
            && (r == Done <==> CancelsWork(s.subs, prior.customer, replaced, sub, view.cancel))
            && (r != Done ==> r == Throws(CancelFailed) && s' == s.(subs := s'.subs))
            && (r == Done ==>
                  && s'.records == s.records[org := Record(prior.customer, Some(sub), stripe.price, stripe.product,
                                                           stripe.status, stripe.start, stripe.anchor,
                                                           stripe.cancelAtPeriodEnd)]
                  && PlanCopied(s, s', org, stripe.price, view))
  {
    AttemptedIff(s, session, expected, strict, view);
    assert CheckoutProblem(s, session, expected, strict, view).None?;
    hide CheckoutProblem, Attempted, CancelForSwitch, CancelsWork, SyncPlan, PlanCopied, Foreign;
    var record := s.records[org];
    CancelsWorkIff(s.subs, record.customer, Replaced(record, session), sub, view.cancel);
    var subs := CancelForSwitch(s.subs, record.customer, Replaced(record, session), sub, view.cancel).0;
    var saved := s.(subs := subs, records := s.records[org := Refreshed(record, s.subs[sub]).(sub := Some(sub))]);
    CopiesPlan(s, saved, org, s.subs[sub].price, view);
  }

  lemma CopiesPlan(s: State, saved: State, org: OrgId, price: Option<PriceId>, view: View)
    requires saved.orgs == s.orgs
    ensures var s' := SyncPlan(saved, org, price, view);
            PlanCopied(s, s', org, price, view) && s' == saved.(orgs := s'.orgs)
  {
  }

  /** The organization's plan columns are those of the price's plan when it can be read, and as before
      otherwise; nobody else's change. */
  ghost predicate PlanCopied(s: State, s': State, org: OrgId, price: Option<PriceId>, view: View)
  {
    && s'.orgs.Keys == s.orgs.Keys
    && forall o :: o in s.orgs ==>
         s'.orgs[o] == if o == org && price.Some? && view.plan(price.value).Some?
                       then view.plan(price.value).value.metadata else s.orgs[o]
  }

  // ----- the page of subscriptions -----

  function Newer(ids: set<SubId>, id: SubId): set<SubId> { set u | u in ids && u > id }

  /** A page lists exactly the customer's hundred newest subscriptions: those with fewer than a hundred newer. */
  lemma ListedNewest(subs: map<SubId, Subscription>, customer: CustomerId, t: SubId)
    ensures t in Listed(subs, customer) <==>
            && t in CustomerSubs(subs, customer)
            && |Newer(CustomerSubs(subs, customer), t)| < 100
  {
    var all := CustomerSubs(subs, customer);
    var sorted := Descending(all);
    hide Descending;
    if t in all {
      assert t in sorted;
      var k :| 0 <= k < |sorted| && sorted[k] == t;
      NewerCount(all, sorted, k);
      assert |Newer(all, t)| == k;
      if |sorted| > LIST_LIMIT {
        var page := sorted[..LIST_LIMIT];
        if k < LIST_LIMIT { assert page[k] == t; }
        if t in page {
          var j :| 0 <= j < |page| && page[j] == t;
          assert sorted[j] == t;
        }
      }
    }
  }

  lemma NewerCount(ids: set<nat>, sorted: seq<nat>, k: nat)
    requires sorted == Descending(ids) && k < |sorted|
    ensures |Newer(ids, sorted[k])| == k
  {
    hide Descending;
    var newer := Newer(ids, sorted[k]);
    forall u | u in newer ensures u in sorted[..k] {
      var i :| 0 <= i < |sorted| && sorted[i] == u;
      assert i < k && sorted[..k][i] == u;
    }
    forall i | 0 <= i < k ensures sorted[i] in newer { assert sorted[i] in sorted; }
    assert newer == Elements(sorted[..k]);
    DistinctSize(sorted[..k]);
  }

  lemma {:induction false} DistinctSize(xs: seq<nat>)
    requires forall i, j :: 0 <= i < j < |xs| ==> xs[i] > xs[j]
    ensures |Elements(xs)| == |xs|
  {
    if xs != [] {
      var front, last := xs[..|xs| - 1], xs[|xs| - 1];
      DistinctSize(front);
      assert xs == front + [last];
      assert Elements(xs) == Elements(front) + {last};
      assert last !in Elements(front);
    }
  }

  // ----- reading a subscription -----

  /** A read without a session, or after its session was switched to, ends well exactly when there is a record,
      and copies that record's plan. A session that is not complete changes nothing at all. */
  lemma ReadEnds(s: State, org: OrgId, session: Option<Session>, view: View)
    ensures var (s', r) := ReadSubscription(s, org, session, view);
            var mid := if session.Some? then ApplyCheckout(s, session.value, Some(org), true, view) else (s, Done);
            && (r == Done <==> mid.1 == Done && org in mid.0.records)
            && (mid.1.Throws? ==> (s', r) == mid)
            && (r == Done ==> s' == mid.0.(orgs := s'.orgs)
                              && PlanCopied(mid.0, s', org, mid.0.records[org].price, view))
            && (session.Some? && !session.value.complete ==> s' == s && r == Throws(NotCompleted))
            && (session.None? && org !in s.records ==> s' == s && r == Throws(NoRecord))
  {
    hide ApplyCheckout;
    if session.Some? { CheckoutEnds(s, session.value, Some(org), true, view); }
  }

  // ----- webhooks, column by column -----

  /** An update event stores every column of the payload, except the link itself and the customer, in the record of
      its subscription, and copies the plan of its price. */
  lemma UpdateStores(s: State, id: SubId, payload: Subscription, view: View, org: OrgId)
    requires Sound(s) && org in s.records && s.records[org].sub == Some(id)
    ensures var s' := Handle(s, SubscriptionUpdated(id, payload), view).0;
            && s'.records == s.records[org := Record(s.records[org].customer, Some(id), payload.price, payload.product,
                                                     payload.status, payload.start, payload.anchor,
                                                     payload.cancelAtPeriodEnd)]
            && PlanCopied(s, s', org, payload.price, view) && s' == s.(records := s'.records, orgs := s'.orgs)
  {
    RecordOfSub(s, id, org);
  }

  lemma RecordOfSub(s: State, id: SubId, org: OrgId)
    requires Sound(s) && org in s.records && s.records[org].sub == Some(id)
    ensures FindBySub(s.records, id) == Some(org)
  {
    var found := FindBySub(s.records, id).value;
    assert Linked(s, org) && Linked(s, found);
  }

  /** A deletion event marks the record canceled, with nothing left to cancel at the period's end, and zeroes the
      organization's plan columns; all other columns stay. */
  lemma DeletionStores(s: State, id: SubId, view: View, org: OrgId)
    requires Sound(s) && org in s.records && s.records[org].sub == Some(id)
    ensures var (s', r) := (Handle(s, SubscriptionDeleted(id), view).0, s.records[org]);
            && s' == s.(records := s.records[org := Record(r.customer, r.sub, r.price, r.product, Canceled,
                                                           r.periodStart, r.periodEnd, false)],
                        orgs := s.orgs[org := Snapshot(0, 0, [])])
  {
    RecordOfSub(s, id, org);
    assert Linked(s, org);
  }

  /** Events about subscriptions that no record has change nothing. */
  lemma UnknownIgnored(s: State, id: SubId, payload: Subscription, view: View)
    requires forall o :: o in s.records ==> s.records[o].sub != Some(id)
    ensures Handle(s, SubscriptionUpdated(id, payload), view) == (s, Done)
    ensures Handle(s, SubscriptionDeleted(id), view) == (s, Done)
  {
  }
}
