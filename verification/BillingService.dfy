/** The billing service and organization creation as methods over their tables and Stripe's, proved to do
    exactly what module Billing says. */
module BillingServices {
  import opened Seqs
  import opened External
  import opened Billing
  import opened BillingRuns
  import opened CheckoutChecks
  import opened SubscriptionStatus

  class Service {
    var orgs: map<OrgId, Snapshot>
    var owners: map<OrgId, UserId>
    var records: map<OrgId, Record>
    var customers: set<CustomerId>
    var subs: map<SubId, Subscription>
    var nextOrg: OrgId
    var nextCustomer: CustomerId
    var nextSub: SubId

    ghost function Tables(): State
      reads this
    {
      State(orgs, owners, records, customers, subs, nextOrg, nextCustomer, nextSub)
    }

    /** What every run keeps, so that the results about runs hold of this service. */
    ghost predicate Valid()
      reads this
    {
      Sound(Tables())
    }

    constructor ()
      ensures Valid() && Tables() == State(map[], map[], map[], {}, map[], 0, 0, 0)
    {
      orgs, owners, records, customers, subs := map[], map[], map[], {}, map[];
      nextOrg, nextCustomer, nextSub := 0, 0, 0;
    }

    // ----- Stripe -----

    method Cancel(id: SubId, outcome: Outcome) returns (ok: bool)
      modifies this`subs
      ensures (subs, ok) == CancelOne(old(subs), id, outcome)
    {
      if id !in subs || outcome == Refused { return false; }
      subs := subs[id := subs[id].(status := Canceled)];
      ok := outcome == Works;
    }

    method CancelOtherSubscriptions(customer: CustomerId, keep: SubId, outcome: SubId -> Outcome) returns (ok: bool)
      modifies this`subs
      ensures (subs, ok) == CancelEach(old(subs), old(subs), Listed(old(subs), customer), keep, outcome)
    {
      assert forall t :: t in Listed(subs, customer) ==> t in subs;
      hide Listed, CancelOne;
      var listed, seen := Listed(subs, customer), subs;
      for i := 0 to |listed|
        invariant forall t :: t in listed ==> t in seen
        invariant CancelEach(old(subs), seen, listed, keep, outcome) == CancelEach(subs, seen, listed[i..], keep,
            outcome)
      {
        var id := listed[i];
        assert listed[i..][0] == id && listed[i..][1..] == listed[i + 1..];
        if id == keep { continue; }
        if Dead(seen[id].status) { continue; }
        var canceled := Cancel(id, outcome(id));
        if !canceled { return false; }
      }
      ok := true;
    }

    // ----- plan switches -----

    method SyncSnapshotOf(org: OrgId, price: Option<PriceId>, view: View)
      modifies this`orgs
      ensures Tables() == SyncPlan(old(Tables()), org, price, view)
    {
      if price.Some? {
        var plan := view.plan(price.value);
        if plan.Some? && org in orgs {
          orgs := orgs[org := plan.value.metadata];
        }
      }
    }

    /** The replaced subscription goes first, then whatever else the customer still has. */
    method CancelBeforeSwitch(customer: CustomerId, replaced: Option<SubId>, keep: SubId, cancel: SubId -> Outcome)
      returns (ok: bool)
      modifies this`subs
      ensures (subs, ok) == CancelForSwitch(old(subs), customer, replaced, keep, cancel)
    {
      hide CancelEach, Listed;
      if replaced.Some? && replaced.value != keep {
        ok := Cancel(replaced.value, cancel(replaced.value));
        if !ok { return; }
      }
      ok := CancelOtherSubscriptions(customer, keep, cancel);
    }

    /** The checks made before anything changes; None when the switch is to be attempted. */
    method CheckSession(session: Session, expected: Option<OrgId>, strict: bool, view: View)
      returns (problem: Option<Result>)
      ensures problem == CheckoutProblem(Tables(), session, expected, strict, view)
    {
      var org := if session.metadataOrg.Some? then session.metadataOrg else session.clientReference;
      if strict && !session.complete { return Some(Throws(NotCompleted)); }
      if expected.Some? && org.Some? && expected.value != org.value { return Some(Throws(WrongOrganization)); }
      if org.None? || session.sub.None? {
        return Some(if strict then Throws(SessionIncomplete) else Done);
      }
      if org.value !in records {
        return Some(if strict then Throws(NoRecord) else Done);
      }
      var keep := session.sub.value;
      if keep !in subs || !view.retrieve(keep) { return Some(Throws(RetrieveFailed)); }
      if subs[keep].customer != records[org.value].customer { return Some(Throws(WrongCustomer)); }
      problem := None;
    }

    method ApplyCheckoutSession(session: Session, expected: Option<OrgId>, strict: bool, view: View) returns (r: Result)
      requires Valid()
      modifies this
      ensures Valid() && Keeps(old(Tables()), Tables())
      ensures (Tables(), r) == ApplyCheckout(old(Tables()), session, expected, strict, view)
      ensures OnlyAttemptsChange(old(Tables()), Tables(), r, session, expected, strict, view)
    {
      CheckoutChanges(Tables(), session, expected, strict, view);
      CheckoutSound(Tables(), session, expected, strict, view);
      hide CancelForSwitch, SyncPlan, Sound, Keeps, OnlyAttemptsChange, CheckoutProblem;
      var problem := CheckSession(session, expected, strict, view);
      if problem.Some? { return problem.value; }
      var org := SessionOrg(session);
      var record, keep := records[org.value], session.sub.value;
      var checkout := subs[keep];
      var replaced := if session.previous.Some? then session.previous else record.sub;
      var canceled := CancelBeforeSwitch(record.customer, replaced, keep, view.cancel);
      if !canceled { return Throws(CancelFailed); }
      record := record.(sub := Some(keep), price := checkout.price, product := checkout.product,
                        status := checkout.status,
                        periodEnd := checkout.anchor, periodStart := checkout.start,
                        cancelAtPeriodEnd := checkout.cancelAtPeriodEnd);
      records := records[org.value := record];
      SyncSnapshotOf(org.value, checkout.price, view);
      r := Done;
    }

    // ----- webhooks -----

    method HandleSubscriptionUpdated(id: SubId, payload: Subscription, view: View)
      requires Valid()
      modifies this
      ensures Valid() && Keeps(old(Tables()), Tables())
      ensures Tables() == Handle(old(Tables()), SubscriptionUpdated(id, payload), view).0
    {
      HandleSound(Tables(), SubscriptionUpdated(id, payload), view);
      hide Sound, Keeps;
      var org := FindBySub(records, id);
      if org.None? { return; }
      var record := records[org.value];
      record := record.(status := payload.status, price := payload.price, product := payload.product,
                        periodEnd := payload.anchor, periodStart := payload.start,
                        cancelAtPeriodEnd := payload.cancelAtPeriodEnd);
      records := records[org.value := record];
      SyncSnapshotOf(org.value, payload.price, view);
    }

    method HandleSubscriptionDeleted(id: SubId, view: View)
      requires Valid()
      modifies this
      ensures Valid() && Keeps(old(Tables()), Tables())
      ensures Tables() == Handle(old(Tables()), SubscriptionDeleted(id), view).0
    {
      HandleSound(Tables(), SubscriptionDeleted(id), view);
      hide Sound, Keeps;
      var org := FindBySub(records, id);
      if org.None? { return; }
      records := records[org.value := records[org.value].(status := Canceled, cancelAtPeriodEnd := false)];
      if org.value in orgs { orgs := orgs[org.value := ZERO]; }
    }

    method StoreStatus(org: OrgId, status: SubStatus)
      requires org in records
      modifies this`records
      ensures Tables() == WithStatus(old(Tables()), org, status)
    {
      records := records[org := records[org].(status := status)];
    }

    method HandleInvoicePaymentFailed(sub: Option<SubId>)
      requires Valid()
      modifies this
      ensures Valid() && Keeps(old(Tables()), Tables()) && Tables() == WithStatusOf(old(Tables()), sub, PastDue)
      ensures StatusSet(old(Tables()), Tables(), sub, PastDue)
    {
      StatusKept(Tables(), sub, PastDue);
      hide Sound, Keeps, StatusSet, WithStatus;
      if sub.None? { return; }
      var org := FindBySub(records, sub.value);
      if org.None? { return; }
      StoreStatus(org.value, PastDue);
    }

    method HandleInvoicePaymentSucceeded(sub: Option<SubId>)
      requires Valid()
      modifies this
      ensures Valid() && Keeps(old(Tables()), Tables()) && Tables() == WithStatusOf(old(Tables()), sub, Active)
      ensures StatusSet(old(Tables()), Tables(), sub, Active)
    {
      StatusKept(Tables(), sub, Active);
      hide Sound, Keeps, StatusSet, WithStatus;
      if sub.None? { return; }
      var org := FindBySub(records, sub.value);
      if org.None? { return; }
      if records[org.value].status == Active {
        SameStatus(Tables(), org.value);
        return;
      }
      StoreStatus(org.value, Active);
    }

    method HandleWebhookEvent(event: Event, view: View) returns (r: Result)
      requires Valid()
      modifies this
      ensures Valid() && Keeps(old(Tables()), Tables())
      ensures (Tables(), r) == Handle(old(Tables()), event, view)
    {
      HandleSound(Tables(), event, view);
      hide ApplyCheckout, SyncPlan, Sound, Keeps, StatusSet;
      r := Done;
      match event
      case CheckoutCompleted(session) => r := ApplyCheckoutSession(session, None, false, view);
      case SubscriptionUpdated(id, payload) => HandleSubscriptionUpdated(id, payload, view);
      case SubscriptionDeleted(id) => HandleSubscriptionDeleted(id, view);
      case PaymentFailed(sub) => HandleInvoicePaymentFailed(sub);
      case PaymentSucceeded(sub) => HandleInvoicePaymentSucceeded(sub);
      case OtherEvent =>
    }

    method GetSubscriptionOf(org: OrgId, session: Option<Session>, view: View) returns (r: Result)
      requires Valid()
      modifies this
      ensures Valid() && Keeps(old(Tables()), Tables())
      ensures (Tables(), r) == ReadSubscription(old(Tables()), org, session, view)
      ensures r.Done? ==> org in records
      ensures session.Some? && !session.value.complete ==> r == Throws(NotCompleted) && Tables() == old(Tables())
    {
      ReadSound(Tables(), org, session, view);
      ReadEnds(Tables(), org, session, view);
      hide ApplyCheckout, Sound, Keeps;
      if session.Some? {
        r := ApplyCheckoutSession(session.value, Some(org), true, view);
        if r.Throws? { return; }
      }
      if org !in records { return Throws(NoRecord); }
      SyncSnapshotOf(org, records[org].price, view);
      r := Done;
    }

    // ----- creation -----

    method RollbackStripeResources(customer: Option<CustomerId>, sub: Option<SubId>, outcome: Step -> Outcome)
      modifies this
      ensures Tables() == Rollback(old(Tables()), customer, sub, outcome)
    {
      if sub.Some? {
        var _ := Cancel(sub.value, outcome(UndoSubscription));
      }
      if customer.Some? && outcome(UndoCustomer) != Refused {
        customers := customers - {customer.value};
      }
    }

    /** A call that throws, with or without effect, ends the attempt; what Stripe has by then is undone. */
    method InitializeSubscription(org: OrgId, w: Setting) returns (ok: bool)
      modifies this
      ensures (Tables(), ok) == Initialize(old(Tables()), org, w)
    {
      hide Rollback;
      var f := w.outcome;
      if f(FindRecord) != Works { return false; }
      if org in records { return true; }
      if !w.configured { return false; }
      var customerId: Option<CustomerId>, subscriptionId: Option<SubId> := None, None;
      ok := false;
      label attempt: {
        if f(ResolvePrice) != Works { break attempt; }
        var customer := nextCustomer;
        if f(CreateCustomer) != Refused { customers, nextCustomer := customers + {customer}, customer + 1; }
        if f(CreateCustomer) != Works { break attempt; }
        customerId := Some(customer);
        var sub := nextSub;
        if f(CreateSubscription) != Refused {
          subs := subs[sub := Subscription(customer, w.status, Some(w.price), Some(w.product), w.start, w.anchor,
                                           false)];
          nextSub := sub + 1;
        }
        if f(CreateSubscription) != Works { break attempt; }
        subscriptionId := Some(sub);
        if f(SaveRecord) != Refused {
          records := records[org := Record(customer, Some(sub), Some(w.price), Some(w.product), w.status, w.start,
                                           w.anchor, false)];
        }
        if f(SaveRecord) != Works { break attempt; }
        if w.plan.Some? {
          if f(SyncSnapshot) != Refused && org in orgs { orgs := orgs[org := w.plan.value.metadata]; }
          if f(SyncSnapshot) != Works { break attempt; }
        }
        ok := true;
      }
      if !ok {
        RollbackNothing(Tables(), f);
        RollbackStripeResources(customerId, subscriptionId, f);
      }
    }

    method CreateOrganization(creator: Option<UserId>, w: Setting) returns (ok: bool)
      requires Valid()
      modifies this
      ensures Valid() && Keeps(old(Tables()), Tables())
      ensures (Tables(), ok) == Create(old(Tables()), creator, w)
    {
      CreateSound(Tables(), creator, w);
      hide Create, Sound, Keeps;
      ok := CreateWithRollback(creator, w);
    }

    method CreateWithRollback(creator: Option<UserId>, w: Setting) returns (ok: bool)
      modifies this
      ensures (Tables(), ok) == Create(old(Tables()), creator, w)
    {
      hide Initialize;
      var f, org := w.outcome, nextOrg;
      if f(SaveOrganization) == Refused { return false; }
      orgs, nextOrg := orgs[org := ZERO], org + 1;
      if f(SaveOrganization) == Lost { return false; }
      if creator.None? { return true; }
      if f(SaveOwner) != Refused { owners := owners[org := creator.value]; }
      ok := false;
      if f(SaveOwner) == Works && f(FindOwner) == Works && w.ownerExists {
        ok := InitializeSubscription(org, w);
      }
      if !ok && f(UndoOrganization) != Refused {
        orgs, owners, records := orgs - {org}, owners - {org}, records - {org};
      }
    }
  }
  lemma RollbackNothing(s: State, outcome: Step -> Outcome)
    ensures Rollback(s, None, None, outcome) == s
  {
  }

  lemma SameStatus(s: State, org: OrgId)
    requires org in s.records
    ensures WithStatus(s, org, s.records[org].status) == s
  {
    assert s.records[org := s.records[org]] == s.records;
  }
}
