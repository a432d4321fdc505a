/** Billing: subscription records, plan snapshots and Stripe's own state, and what each handler and the
    organization-creation saga do to them. Stripe calls may fail. */
module Billing {
  import opened Seqs
  import opened External

  type OrgId = nat
  type UserId = nat
  type CustomerId = nat
  type SubId = nat
  type PriceId = nat
  type ProductId = nat

  datatype SubStatus = Incomplete | IncompleteExpired | Trialing | Active | PastDue | Canceled | Unpaid | Paused

  /** A Stripe subscription object, with the first item's price. */
  datatype Subscription = Subscription(
    customer: CustomerId, status: SubStatus, price: Option<PriceId>, product: Option<ProductId>,
    start: int, anchor: int, cancelAtPeriodEnd: bool)

  /** A row of organization_subscriptions. */
  datatype Record = Record(
    customer: CustomerId, sub: Option<SubId>, price: Option<PriceId>, product: Option<ProductId>,
    status: SubStatus, periodStart: int, periodEnd: int, cancelAtPeriodEnd: bool)

  /** The plan columns of an organization. */
  datatype Snapshot = Snapshot(maxCloudAccounts: int, maxUsers: int, modules: seq<string>)
  datatype Plan = Plan(product: ProductId, metadata: Snapshot, active: bool)

  const ZERO := Snapshot(0, 0, [])
  const LIST_LIMIT: nat := 100

  datatype State = State(
    orgs: map<OrgId, Snapshot>, owners: map<OrgId, UserId>, records: map<OrgId, Record>,
    customers: set<CustomerId>, subs: map<SubId, Subscription>,
    nextOrg: OrgId, nextCustomer: CustomerId, nextSub: SubId)

  /** How the outside answers during one request. */
  datatype View = View(retrieve: SubId -> bool, cancel: SubId -> Outcome, plan: PriceId -> Option<Plan>)

  datatype Session = Session(
    complete: bool, metadataOrg: Option<OrgId>, clientReference: Option<OrgId>, previous: Option<SubId>,
    sub: Option<SubId>)

  datatype Error =
    | NotCompleted | WrongOrganization | SessionIncomplete | NoRecord | RetrieveFailed | WrongCustomer | CancelFailed
  datatype Result = Done | Throws(error: Error)

  predicate Dead(status: SubStatus) { status == Canceled || status == IncompleteExpired }

  // ----- Stripe -----

  function CustomerSubs(subs: map<SubId, Subscription>, customer: CustomerId): set<SubId>
  {
    set t | t in subs && subs[t].customer == customer
  }

  /** One page of a customer's subscriptions, of every status, newest first. */
  function Listed(subs: map<SubId, Subscription>, customer: CustomerId): (r: seq<SubId>)
    ensures forall t :: t in r ==> t in CustomerSubs(subs, customer)
  {
    var all := Descending(CustomerSubs(subs, customer));
    if |all| <= LIST_LIMIT then all else all[..LIST_LIMIT]
  }

  /** Cancelling throws on an unknown subscription. */
  function CancelOne(subs: map<SubId, Subscription>, id: SubId, outcome: Outcome): (map<SubId, Subscription>, bool)
  {
    if id !in subs || outcome == Refused then (subs, false)
    else (subs[id := subs[id].(status := Canceled)], outcome == Works)
  }

  /** Cancel the listed subscriptions except `keep` and those already dead when listed; stop at the first failure. */
  function CancelEach(subs: map<SubId, Subscription>, seen: map<SubId, Subscription>, ids: seq<SubId>, keep: SubId,
                      outcome: SubId -> Outcome): (map<SubId, Subscription>, bool)
    requires forall t :: t in ids ==> t in seen
  {
    if ids == [] then (subs, true)
    else if ids[0] == keep || Dead(seen[ids[0]].status) then CancelEach(subs, seen, ids[1..], keep, outcome)
    else
      var (after, ok) := CancelOne(subs, ids[0], outcome(ids[0]));
      if ok then CancelEach(after, seen, ids[1..], keep, outcome) else (after, false)
  }

  // ----- handlers -----

  function FindBySub(records: map<OrgId, Record>, sub: SubId): (r: Option<OrgId>)
    ensures r.None? <==> forall o :: o in records ==> records[o].sub != Some(sub)
    ensures r.Some? ==> r.value in records && records[r.value].sub == Some(sub)
  {
    var rows := set o | o in records && records[o].sub == Some(sub);
    if o :| o in records && records[o].sub == Some(sub) then assert o in rows; Some(MaxOf(rows)) else None
  }

  /** syncOrganizationPlanSnapshot: an update by id. */
  function WithSnapshot(s: State, org: OrgId, snapshot: Snapshot): State
  {
    if org in s.orgs then s.(orgs := s.orgs[org := snapshot]) else s
  }

  /** Copy the plan of a price to the organization, when there is a price and its plan can be read. */
  function SyncPlan(s: State, org: OrgId, price: Option<PriceId>, view: View): State
  {
    if price.None? then s
    else match view.plan(price.value)
      case None => s
      case Some(plan) => WithSnapshot(s, org, plan.metadata)
  }

  function Refreshed(r: Record, sub: Subscription): Record
  {
    r.(price := sub.price, product := sub.product, status := sub.status,
       periodStart := sub.start, periodEnd := sub.anchor, cancelAtPeriodEnd := sub.cancelAtPeriodEnd)
  }

  function SessionOrg(session: Session): Option<OrgId>
  {
    if session.metadataOrg.Some? then session.metadataOrg else session.clientReference
  }

  /** The checks of applyCheckoutSessionToOrganization before anything is changed. None means it returns quietly. */
  function CheckoutProblem(s: State, session: Session, expected: Option<OrgId>, strict: bool, view: View)
    : (r: Option<Result>)
    ensures r.None? ==>
              && SessionOrg(session).Some? && SessionOrg(session).value in s.records
              && (expected.Some? ==> SessionOrg(session) == expected)
              && session.sub.Some? && session.sub.value in s.subs
              && s.subs[session.sub.value].customer == s.records[SessionOrg(session).value].customer
  {
    var org := SessionOrg(session);
    if strict && !session.complete then Some(Throws(NotCompleted))
    else if expected.Some? && org.Some? && expected != org then Some(Throws(WrongOrganization))
    else if org.None? || session.sub.None? then Some(if strict then Throws(SessionIncomplete) else Done)
    else if org.value !in s.records then Some(if strict then Throws(NoRecord) else Done)
    else if session.sub.value !in s.subs || !view.retrieve(session.sub.value) then Some(Throws(RetrieveFailed))
    else if s.subs[session.sub.value].customer != s.records[org.value].customer then Some(Throws(WrongCustomer))
    else None
  }

  function Replaced(r: Record, session: Session): Option<SubId>
  {
    if session.previous.Some? then session.previous else r.sub
  }

  /** Cancel the replaced subscription, then the customer's other ones. */
  function CancelForSwitch(subs: map<SubId, Subscription>, customer: CustomerId, replaced: Option<SubId>, keep: SubId,
                           cancel: SubId -> Outcome): (map<SubId, Subscription>, bool)
  {
    var (mid, ok) := if replaced.Some? && replaced.value != keep
                     then CancelOne(subs, replaced.value, cancel(replaced.value))
                     else (subs, true);
    if !ok then (mid, false) else CancelEach(mid, mid, Listed(mid, customer), keep, cancel)
  }

  function ApplyCheckout(s: State, session: Session, expected: Option<OrgId>, strict: bool, view: View): (State, Result)
  {
    var problem := CheckoutProblem(s, session, expected, strict, view);
    if problem.Some? then (s, problem.value)
    else
      var org, keep := SessionOrg(session).value, session.sub.value;
      var record := s.records[org];
      var (subs, ok) := CancelForSwitch(s.subs, record.customer, Replaced(record, session), keep, view.cancel);
      if !ok then (s.(subs := subs), Throws(CancelFailed))
      else
        // the subscription object was retrieved before the cancellations
        var saved := s.(subs := subs, records := s.records[org := Refreshed(record, s.subs[keep]).(sub := Some(keep))]);
        (SyncPlan(saved, org, s.subs[keep].price, view), Done)
  }

  datatype Event =
    | CheckoutCompleted(session: Session)
    | SubscriptionUpdated(id: SubId, payload: Subscription)
    | SubscriptionDeleted(id: SubId)
    | PaymentFailed(sub: Option<SubId>)
    | PaymentSucceeded(sub: Option<SubId>)
    | OtherEvent

  function WithStatus(s: State, org: OrgId, status: SubStatus): State
    requires org in s.records
  {
    s.(records := s.records[org := s.records[org].(status := status)])
  }

  /** Set the status of the record with this subscription, if there is one. */
  function WithStatusOf(s: State, sub: Option<SubId>, status: SubStatus): State
  {
    var org := if sub.Some? then FindBySub(s.records, sub.value) else None;
    if org.Some? then WithStatus(s, org.value, status) else s
  }

  function Handle(s: State, event: Event, view: View): (State, Result)
  {
    match event
    case CheckoutCompleted(session) => ApplyCheckout(s, session, None, false, view)
    case SubscriptionUpdated(id, payload) =>
      (match FindBySub(s.records, id)
       case None => (s, Done)
       case Some(org) =>
         var updated := s.(records := s.records[org := Refreshed(s.records[org], payload)]);
         (SyncPlan(updated, org, payload.price, view), Done))
    case SubscriptionDeleted(id) =>
      (match FindBySub(s.records, id)
       case None => (s, Done)
       case Some(org) =>
         var canceled := s.records[org].(status := Canceled, cancelAtPeriodEnd := false);
         (WithSnapshot(s.(records := s.records[org := canceled]), org, ZERO), Done))
    case PaymentFailed(sub) => (WithStatusOf(s, sub, PastDue), Done)
    case PaymentSucceeded(sub) => (WithStatusOf(s, sub, Active), Done)
    case OtherEvent => (s, Done)
  }

  /** getSubscription: reconcile a checkout session first when one is named, then refresh the snapshot. */
  function ReadSubscription(s: State, org: OrgId, session: Option<Session>, view: View): (State, Result)
  {
    var (reconciled, result) := if session.Some? then ApplyCheckout(s, session.value, Some(org), true, view)
                                else (s, Done);
    if result.Throws? then (reconciled, result)
    else if org !in reconciled.records then (reconciled, Throws(NoRecord))
    else (SyncPlan(reconciled, org, reconciled.records[org].price, view), Done)
  }

  // ----- the creation saga -----

  /** The external calls of organization creation. */
  datatype Step =
    | SaveOrganization | SaveOwner | FindOwner | FindRecord | ResolvePrice | CreateCustomer | CreateSubscription
    | SaveRecord | SyncSnapshot | UndoSubscription | UndoCustomer | UndoOrganization

  /** What one creation meets: how each call ends, and what the outside answers. */
  datatype Setting = Setting(
    outcome: Step -> Outcome, ownerExists: bool, configured: bool, product: ProductId, price: PriceId,
    status: SubStatus, start: int, anchor: int, plan: Option<Plan>)

  function DropOrg(s: State, org: OrgId): State
  {
    s.(orgs := s.orgs - {org}, owners := s.owners - {org}, records := s.records - {org})
  }

  /** rollbackStripeResources: both undo calls are tried, and their failures ignored. */
  function Rollback(s: State, customer: Option<CustomerId>, sub: Option<SubId>, outcome: Step -> Outcome): State
  {
    var s1 := if sub.Some? then s.(subs := CancelOne(s.subs, sub.value, outcome(UndoSubscription)).0) else s;
    if customer.Some? && outcome(UndoCustomer) != Refused then s1.(customers := s1.customers - {customer.value}) else s1
  }

  function FirstRecord(customer: CustomerId, sub: SubId, w: Setting): Record
  {
    Record(customer, Some(sub), Some(w.price), Some(w.product), w.status, w.start, w.anchor, false)
  }

  function WithCustomer(s: State): State
  {
    s.(customers := s.customers + {s.nextCustomer}, nextCustomer := s.nextCustomer + 1)
  }

  function WithSubscription(s: State, customer: CustomerId, w: Setting): State
  {
    s.(subs := s.subs[s.nextSub := Subscription(customer, w.status, Some(w.price), Some(w.product), w.start, w.anchor,
                                                false)],
       nextSub := s.nextSub + 1)
  }

  function WithRecord(s: State, org: OrgId, record: Record): State
  {
    s.(records := s.records[org := record])
  }

  /** The end of initializeSubscription: save the record, copy the plan. */
  function SaveAndSync(s: State, org: OrgId, customer: CustomerId, sub: SubId, w: Setting): (State, bool)
  {
    var f := w.outcome;
    var s1 := if f(SaveRecord) == Refused then s else WithRecord(s, org, FirstRecord(customer, sub, w));
    if f(SaveRecord) != Works then (Rollback(s1, Some(customer), Some(sub), f), false)
    else if w.plan.None? then (s1, true)
    else
      var s2 := if f(SyncSnapshot) == Refused then s1 else WithSnapshot(s1, org, w.plan.value.metadata);
      if f(SyncSnapshot) != Works then (Rollback(s2, Some(customer), Some(sub), f), false) else (s2, true)
  }

  function SubscribeNew(s: State, org: OrgId, customer: CustomerId, w: Setting): (State, bool)
  {
    var f := w.outcome;
    var s1 := if f(CreateSubscription) == Refused then s else WithSubscription(s, customer, w);
    if f(CreateSubscription) != Works then (Rollback(s1, Some(customer), None, f), false)
    else SaveAndSync(s1, org, customer, s.nextSub, w)
  }

  function Initialize(s: State, org: OrgId, w: Setting): (State, bool)
  {
    var f := w.outcome;
    if f(FindRecord) != Works then (s, false)
    else if org in s.records then (s, true)
    else if !w.configured || f(ResolvePrice) != Works then (s, false)
    else if f(CreateCustomer) == Refused then (s, false)
    else if f(CreateCustomer) == Lost then (WithCustomer(s), false)
    else SubscribeNew(WithCustomer(s), org, s.nextCustomer, w)
  }

  function WithOrg(s: State): State
  {
    s.(orgs := s.orgs[s.nextOrg := ZERO], nextOrg := s.nextOrg + 1)
  }

  function WithOwner(s: State, org: OrgId, owner: UserId): State
  {
    s.(owners := s.owners[org := owner])
  }

  /** OrganizationService.create */
  function Create(s: State, creator: Option<UserId>, w: Setting): (State, bool)
  {
    var f := w.outcome;
    if f(SaveOrganization) == Refused then (s, false)
    else if f(SaveOrganization) == Lost then (WithOrg(s), false)
    else if creator.None? then (WithOrg(s), true)
    else
      var org := s.nextOrg;
      var s1 := if f(SaveOwner) == Refused then WithOrg(s) else WithOwner(WithOrg(s), org, creator.value);
      var (s2, ok) := if f(SaveOwner) == Works && f(FindOwner) == Works
                      && w.ownerExists then Initialize(s1, org, w) else (s1, false);
      if ok then (s2, true) else (if f(UndoOrganization) == Refused then s2 else DropOrg(s2, org), false)
  }

  // ----- calls -----

  datatype Call =
    | CreateOrg(creator: Option<UserId>, setting: Setting)
    | DeleteOrg(org: OrgId)
    | GetSubscription(org: OrgId, session: Option<Session>, view: View)
    | Webhook(event: Event, view: View)
    | StripeCustomer                                       // someone else creates a customer
    | StripeCheckout(sub: Subscription)                    // a checkout creates a subscription
    | StripeChange(id: SubId, sub: Subscription)           // Stripe changes a subscription

  /** A Stripe subscription belongs to a customer that exists and never moves to another one. */
  predicate Allowed(s: State, call: Call)
  {
    match call
    case StripeCheckout(sub) => sub.customer < s.nextCustomer
    case StripeChange(id, sub) => id in s.subs && sub.customer == s.subs[id].customer
    case _ => true
  }

  function Next(s: State, call: Call): State
  {
    match call
    case CreateOrg(creator, w) => Create(s, creator, w).0
    case DeleteOrg(org) => DropOrg(s, org)
    case GetSubscription(org, session, view) => ReadSubscription(s, org, session, view).0
    case Webhook(event, view) => Handle(s, event, view).0
    case StripeCustomer => s.(customers := s.customers + {s.nextCustomer}, nextCustomer := s.nextCustomer + 1)
    case StripeCheckout(sub) => s.(subs := s.subs[s.nextSub := sub], nextSub := s.nextSub + 1)
    case StripeChange(id, sub) => s.(subs := s.subs[id := sub])
  }
}
