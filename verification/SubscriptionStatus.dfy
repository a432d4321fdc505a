/** The status of a subscription record: which records an invoice event touches, when a canceled record becomes
    active again, and what applying one checkout session twice does. */
module SubscriptionStatus {
  import opened Seqs
  import opened External
  import opened Billing
  import opened BillingRuns
  import opened CheckoutChecks

  // ----- invoices -----

  /** Every record of this subscription has the new status; nothing else has changed. */
  ghost predicate StatusSet(s: State, s': State, sub: Option<SubId>, status: SubStatus)
  {
    && s' == s.(records := s'.records) && s'.records.Keys == s.records.Keys
    && forall o :: o in s.records ==>
         s'.records[o] == if sub.Some? && s.records[o].sub == sub then s.records[o].(status := status) else s.records[o]
  }

  /** Invoice events set the status of whatever record has the subscription, and there is at most one. */
  lemma InvoiceSetsStatus(s: State, sub: Option<SubId>, view: View)
    requires Sound(s)
    ensures StatusSet(s, Handle(s, PaymentFailed(sub), view).0, sub, PastDue)
    ensures StatusSet(s, Handle(s, PaymentSucceeded(sub), view).0, sub, Active)
  {
    StatusWritten(s, sub, PastDue);
    StatusWritten(s, sub, Active);
    hide Sound, WithStatusOf, StatusSet;
  }

  lemma StatusWritten(s: State, sub: Option<SubId>, status: SubStatus)
    requires Sound(s)
    ensures StatusSet(s, WithStatusOf(s, sub, status), sub, status)
  {
    if sub.Some? && FindBySub(s.records, sub.value).Some? {
      var found := FindBySub(s.records, sub.value).value;
      forall o | o in s.records && s.records[o].sub == sub ensures o == found { OneOwnerOfSub(s, o, found); }
      hide Sound;
    }
  }

  lemma StatusKept(s: State, sub: Option<SubId>, status: SubStatus)
    requires Sound(s)
    ensures var s' := WithStatusOf(s, sub, status); Sound(s') && Keeps(s, s') && StatusSet(s, s', sub, status)
  {
    StatusWritten(s, sub, status);
    hide Keeps, Sound, StatusSet;
    if sub.Some? && FindBySub(s.records, sub.value).Some? {
      FieldsSound(s, WithStatusOf(s, sub, status), FindBySub(s.records, sub.value).value);
    } else {
      SubsSound(s, s);
    }
  }

  lemma OneOwnerOfSub(s: State, o: OrgId, p: OrgId)
    requires Sound(s) && o in s.records && p in s.records && s.records[o].sub.Some?
             && s.records[o].sub == s.records[p].sub
    ensures o == p
  {
    assert Linked(s, o) && Linked(s, p);
  }

  // ----- canceled records that become active -----

  /** getActivePlanForOrganization: None when it throws. */
  function ActivePlan(s: State, org: OrgId, view: View): Option<Plan>
  {
    if org !in s.records || !(s.records[org].status == Active || s.records[org].status == Trialing) then None
    else if s.records[org].price.None? then None
    else match view.plan(s.records[org].price.value)
      case Some(plan) => if plan.active then Some(plan) else None
      case None => None
  }

  /** The checkout session switches this organization to an active subscription. */
  ghost predicate SwitchesToActive(s: State, org: OrgId, session: Session, expected: Option<OrgId>, strict: bool,
                                   view: View)
  {
    exists sub ::
      && Attempted(s, session, expected, strict, view, org, sub) && s.subs[sub].status == Active
      && CancelsWork(s.subs, s.records[org].customer,
                     if session.previous.Some? then session.previous else s.records[org].sub, sub, view.cancel)
  }

  /** What makes an inactive record active. */
  ghost predicate Activates(s: State, org: OrgId, event: Event, view: View)
    requires org in s.records
  {
    match event
    case PaymentSucceeded(sub) => sub.Some? && s.records[org].sub == sub
    case SubscriptionUpdated(id, payload) => s.records[org].sub == Some(id) && payload.status == Active
    case CheckoutCompleted(session) => SwitchesToActive(s, org, session, None, false, view)
    case _ => false
  }

  lemma CheckoutActivatesIff(s: State, org: OrgId, session: Session, expected: Option<OrgId>, strict: bool, view: View)
    requires Sound(s) && org in s.records && s.records[org].status != Active
    ensures var s' := ApplyCheckout(s, session, expected, strict, view).0;
            org in s'.records && (s'.records[org].status == Active <==>
                                    SwitchesToActive(s, org, session, expected, strict, view))
  {
    CheckoutEnds(s, session, expected, strict, view);
    hide ApplyCheckout, CancelsWork, Sound, Names, Foreign;
    forall o: OrgId, sub: SubId | Attempted(s, session, expected, strict, view, o, sub)
      ensures SessionOrg(session) == Some(o) && session.sub == Some(sub)
    {
      AttemptedIff(s, session, expected, strict, view);
    }
    if o, sub :| Attempted(s, session, expected, strict, view, o, sub) {
      AttemptEnds(s, session, expected, strict, view, o, sub);
    }
  }

  /** A webhook makes an inactive record active exactly when it is a payment for the record's subscription, an
      update of it that says active, or a checkout that switches to an active subscription. */
  lemma ActivatedIff(s: State, org: OrgId, event: Event, view: View)
    requires Sound(s) && org in s.records && s.records[org].status != Active
    ensures var s' := Handle(s, event, view).0;
            org in s'.records && (s'.records[org].status == Active <==> Activates(s, org, event, view))
  {
    hide ApplyCheckout, SwitchesToActive, Sound;
    match event
    case CheckoutCompleted(session) => CheckoutActivatesIff(s, org, session, None, false, view);
    case SubscriptionUpdated(id, payload) => UpdateActivatesIff(s, org, id, payload, view);
    case PaymentSucceeded(sub) => InvoiceSetsStatus(s, sub, view);
    case PaymentFailed(sub) => InvoiceSetsStatus(s, sub, view);
    case _ =>
  }

  lemma UpdateActivatesIff(s: State, org: OrgId, id: SubId, payload: Subscription, view: View)
    requires Sound(s) && org in s.records && s.records[org].status != Active
    ensures var s' := Handle(s, SubscriptionUpdated(id, payload), view).0;
            org in s'.records && (s'.records[org].status == Active <==>
                                    s.records[org].sub == Some(id) && payload.status == Active)
  {
    hide SyncPlan;
    var found := FindBySub(s.records, id);
    if found.Some? {
      if s.records[org].sub == Some(id) { OneOwnerOfSub(s, org, found.value); }
      var mid := s.(records := s.records[found.value := Refreshed(s.records[found.value], payload)]);
      SyncPlanOnly(mid, found.value, payload.price, view);
    }
  }

  /** After a deletion event the next webhook reactivates the canceled record exactly in those ways; and when it
      does so by a payment, the plan of the price is granted again whenever it can be read and is active, although
      the organization's snapshot still is the zero one. */
  lemma CanceledReactivatedIff(s: State, id: SubId, org: OrgId, event: Event, first: View, view: View)
    requires Sound(s) && FindBySub(s.records, id) == Some(org)
    ensures var s1 := Handle(s, SubscriptionDeleted(id), first).0;
            var s2 := Handle(s1, event, view).0;
            && org in s1.records && s1.records[org].status == Canceled && ActivePlan(s1, org, view).None?
            && org in s2.records && (s2.records[org].status == Active <==> Activates(s1, org, event, view))
            && (event == PaymentSucceeded(Some(id)) ==>
                  && s2.records[org].status == Active && org in s2.orgs && s2.orgs[org] == ZERO
                  && var price := s.records[org].price;
                     (ActivePlan(s2, org, view).Some? <==>
                        price.Some? && view.plan(price.value).Some? && view.plan(price.value).value.active))
  {
    var s1 := Handle(s, SubscriptionDeleted(id), first).0;
    HandleSound(s, SubscriptionDeleted(id), first);
    assert Linked(s, org);
    ActivatedIff(s1, org, event, view);
    hide Activates, ApplyCheckout, Sound;
  }

  // ----- one checkout session twice -----

  /** Cancelling works exactly on running subscriptions: what a strict Stripe does. */
  ghost predicate CancelsRunning(subs: map<SubId, Subscription>, cancel: SubId -> Outcome)
  {
    forall t :: t in subs ==> cancel(t) == if Dead(subs[t].status) then Refused else Works
  }

  lemma {:induction false} RunningCancelled(subs: map<SubId, Subscription>, seen: map<SubId, Subscription>,
                                            ids: seq<SubId>, keep: SubId,
                                            cancel: SubId -> Outcome)
    requires seen.Keys == subs.Keys && (forall t :: t in ids ==> t in seen)
    requires forall t :: t in ids && t != keep && !Dead(seen[t].status) ==> cancel(t) == Works
    ensures CancelEach(subs, seen, ids, keep, cancel).1
  {
    if ids != [] {
      assert forall t :: t in ids[1..] ==> t in ids;
      if ids[0] == keep || Dead(seen[ids[0]].status) {
        RunningCancelled(subs, seen, ids[1..], keep, cancel);
      } else {
        RunningCancelled(CancelOne(subs, ids[0], cancel(ids[0])).0, seen, ids[1..], keep, cancel);
      }
    }
  }

  /** Where only running subscriptions can be cancelled, a switch fails exactly when the replaced subscription is
      another one that is unknown or already dead. */
  lemma SwitchRefusedIff(subs: map<SubId, Subscription>, customer: CustomerId, replaced: Option<SubId>, keep: SubId,
                         cancel: SubId -> Outcome)
    requires CancelsRunning(subs, cancel)
    ensures CancelForSwitch(subs, customer, replaced, keep, cancel).1 <==>
            !(&& replaced.Some? && replaced.value != keep
              && (replaced.value !in subs || Dead(subs[replaced.value].status)))
  {
    hide Listed;
    var (mid, ok) := if replaced.Some? && replaced.value != keep
                     then CancelOne(subs, replaced.value, cancel(replaced.value))
                     else (subs, true);
    if ok { RunningCancelled(mid, mid, Listed(mid, customer), keep, cancel); }
  }

  /** Applying a completed session again, after it has been applied, throws exactly when the session names a
      previous subscription other than the one it switched to: that one is dead by then. Otherwise the second
      application goes through and cancels nothing. */
  lemma SameSessionTwice(s: State, session: Session, expected: Option<OrgId>, strict: bool, first: View,
                         expected': Option<OrgId>, strict': bool, second: View)
    requires Sound(s) && CheckoutProblem(s, session, expected, strict, first).None?
             && ApplyCheckout(s, session, expected, strict, first).1.Done?
    requires var s1 := ApplyCheckout(s, session, expected, strict, first).0;
             CheckoutProblem(s1, session, expected', strict', second).None? && CancelsRunning(s1.subs, second.cancel)
    ensures var s1 := ApplyCheckout(s, session, expected, strict, first).0;
            var (s2, result) := ApplyCheckout(s1, session, expected', strict', second);
            && (result == Throws(CancelFailed) <==> session.previous.Some? && session.previous != session.sub)
            && (result.Throws? ==> result == Throws(CancelFailed) && s2 == s1)
            && (result.Done? ==> s2.records == s1.records && s2.subs == s1.subs)
            && (session.previous.Some? && session.previous != session.sub ==>
                  session.previous.value !in s1.subs || Dead(s1.subs[session.previous.value].status))
  {
    hide CheckoutProblem, Listed, SyncPlan, CancelEach, Sound;
    var s1 := ApplyCheckout(s, session, expected, strict, first).0;
    var org, keep := SessionOrg(session).value, session.sub.value;
    SwitchLeavesOne(s, session, expected, strict, first);
    if session.previous.Some? && session.previous != session.sub { PreviousDead(s, session, expected, strict, first); }
    var replaced := Replaced(s1.records[org], session);
    SwitchRefusedIff(s1.subs, s1.records[org].customer, replaced, keep, second.cancel);
    if session.previous.Some? && session.previous.value != keep {
      assert replaced == session.previous;
    } else {
      assert replaced == Some(keep);
      SwitchLeavesOne(s1, session, expected', strict', second);
      NothingToCancel(s, s1, org, keep, Replaced(s.records[org], session), second.cancel);
      AppliedSubs(s1, session, expected', strict', second);
    }
  }

  /** Once the listed subscriptions of a customer are dead, a switch that replaces nothing cancels nothing. */
  lemma NothingToCancel(s: State, s1: State, org: OrgId, keep: SubId, replaced: Option<SubId>, cancel: SubId -> Outcome)
    requires org in s.records && org in s1.records && s1.records[org].customer == s.records[org].customer
             && OnlyCancels(s.subs, s1.subs)
    requires forall t :: t in Listed(s.subs, s.records[org].customer) && t != keep ==>
               t in s1.subs && Dead(s1.subs[t].status)
    requires CancelForSwitch(s1.subs, s1.records[org].customer, Some(keep), keep, cancel).1
    ensures CancelForSwitch(s1.subs, s1.records[org].customer, Some(keep), keep, cancel).0 == s1.subs
  {
    hide Listed, CancelForSwitch;
    var customer := s.records[org].customer;
    assert CustomerSubs(s1.subs, customer) == CustomerSubs(s.subs, customer);
    SamePage(s.subs, s1.subs, customer);
    CancelForSwitchExact(s1.subs, customer, Some(keep), keep, cancel);
    var after := CancelForSwitch(s1.subs, customer, Some(keep), keep, cancel).0;
    forall t | t in s1.subs ensures after[t] == s1.subs[t] {
      assert !Switched(s1.subs, customer, Some(keep), keep, t);
    }
    assert after == s1.subs;
  }

  lemma AppliedSubs(s: State, session: Session, expected: Option<OrgId>, strict: bool, view: View)
    requires CheckoutProblem(s, session, expected, strict, view).None?
             && ApplyCheckout(s, session, expected, strict, view).1.Done?
    ensures var record := s.records[SessionOrg(session).value];
            var (subs, ok) := CancelForSwitch(s.subs, record.customer, Replaced(record, session), session.sub.value,
                                              view.cancel);
            ok && ApplyCheckout(s, session, expected, strict, view).0.subs == subs
  {
    hide CheckoutProblem, SyncPlan, CancelForSwitch;
    var org, keep := SessionOrg(session).value, session.sub.value;
    var record := s.records[org];
    var subs := CancelForSwitch(s.subs, record.customer, Replaced(record, session), keep, view.cancel).0;
    SyncPlanOnly(s.(subs := subs, records := s.records[org := Refreshed(record, s.subs[keep]).(sub := Some(keep))]),
                 org, s.subs[keep].price, view);
  }

  lemma PreviousDead(s: State, session: Session, expected: Option<OrgId>, strict: bool, view: View)
    requires CheckoutProblem(s, session, expected, strict, view).None?
             && ApplyCheckout(s, session, expected, strict, view).1.Done?
    requires session.previous.Some? && session.previous != session.sub
    ensures var s1 := ApplyCheckout(s, session, expected, strict, view).0;
            session.previous.value in s1.subs && Dead(s1.subs[session.previous.value].status)
  {
    AppliedSubs(s, session, expected, strict, view);
    hide CheckoutProblem, Listed, ApplyCheckout, CancelEach;
    var record := s.records[SessionOrg(session).value];
    CancelForSwitchExact(s.subs, record.customer, Replaced(record, session), session.sub.value, view.cancel);
    assert Switched(s.subs, record.customer, Replaced(record, session), session.sub.value, session.previous.value);
  }
}
