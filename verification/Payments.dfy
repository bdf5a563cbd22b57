/**
 * Payments and their provider events: processPaymentEvent of packages/billing/src/billing-engine.ts
 * and the status tables of packages/billing/src/payment-states.ts.
 */
module Payments {
  import opened Basics
  import opened Money
  import opened Allocation
  import opened Books

  datatype PaymentKind = SubscriptionPayment | TopupPayment

  datatype PaymentStatus = CREATED | PENDING | SUCCEEDED | FAILED | CANCELED
                         | REFUNDED | PARTIALLY_REFUNDED | RECONCILIATION_REQUIRED

  /** What the checkout froze: the price, the usage it buys and how refunds convert. */
  datatype Snapshot = Snapshot(customerAmount: int, grant: nat, topupRatioBps: Option<int>,
                               planVersionId: Option<string>, periodDays: Option<int>)

  datatype Payment = Payment(userId: string, provider: string, kind: PaymentKind, amount: int, orderId: string,
                             providerPaymentId: Option<string>, status: PaymentStatus, providerStatus: Option<string>,
                             planVersionId: Option<string>, snapshot: Snapshot,
                             bucketId: Option<nat>, subscriptionId: Option<nat>)

  datatype Subscription = Subscription(userId: string, planVersionId: string, active: bool, periodStart: int, periodEnd: int)

  datatype EventType = PaymentSucceeded | PaymentFailed | PaymentRefunded | PaymentCanceled
                     | PaymentPartiallyRefunded | PaymentChargeback | PaymentStatusChanged

  /** A verified notification; its provider status is given upper-cased. */
  datatype PaymentEvent = PaymentEvent(provider: string, eventId: string, providerPaymentId: Option<string>,
                                       orderId: Option<string>, eventType: EventType, providerStatus: Option<string>,
                                       amount: Option<int>, refundAmount: Option<int>)

  datatype Accounts = Accounts(books: Books, payments: seq<Payment>, events: set<(string, string)>,
                               subscriptions: seq<Subscription>)

  datatype Outcome = Outcome(duplicate: bool, paymentId: nat, status: PaymentStatus,
                             bucketId: Option<nat>, subscriptionId: Option<nat>)

  /** A JavaScript string that is neither missing nor empty. */
  predicate Truthy(o: Option<string>) { o.Some? && o.value != "" }

  /** The first of two values that is there; a column written with an absent value keeps what it holds. */
  function Coalesce<T>(o: Option<T>, other: Option<T>): Option<T> { if o.Some? then o else other }

  // ---- payment-states.ts ----

  datatype MoneyEvent = Ignore | Pending | Confirmed | Failed | Canceled | Refunded | PartiallyRefunded

  function ClassifyTBankStatus(normalized: string): MoneyEvent {
    if normalized == "CONFIRMED" then Confirmed
    else if normalized in {"NEW", "FORM_SHOWED", "AUTHORIZING", "3DS_CHECKING", "3DS_CHECKED", "AUTHORIZED", "CONFIRMING"} then Pending
    else if normalized in {"REJECTED", "DEADLINE_EXPIRED", "AUTH_FAIL"} then Failed
    else if normalized == "CANCELED" || normalized == "REVERSED" || normalized == "PARTIAL_REVERSED" then Canceled
    else if normalized == "REFUNDED" then Refunded
    else if normalized == "PARTIAL_REFUNDED" then PartiallyRefunded
    else Ignore
  }

  function NextDomainStatus(current: PaymentStatus, event: MoneyEvent): Option<PaymentStatus> {
    match event
    case Ignore => if current == CREATED then Some(PENDING) else None
    case Pending => if current == CREATED then Some(PENDING) else None
    case Confirmed => if current == CREATED || current == PENDING then Some(SUCCEEDED) else None
    case Failed =>
      if current in {SUCCEEDED, REFUNDED, PARTIALLY_REFUNDED, RECONCILIATION_REQUIRED} || current == CANCELED then None
      else Some(FAILED)
    case Canceled =>
      if current == SUCCEEDED || current == REFUNDED || current == PARTIALLY_REFUNDED || current == FAILED then None
      else Some(CANCELED)
    case Refunded =>
      if current == CREATED || current == PENDING then Some(CANCELED)
      else if current == FAILED || current == CANCELED then None
      else Some(REFUNDED)
    case PartiallyRefunded =>
      if current == SUCCEEDED || current == PARTIALLY_REFUNDED then Some(PARTIALLY_REFUNDED) else None
  }

  /** moneyEventFromInput: a known provider status wins over the event type. */
  function MoneyEventOf(e: PaymentEvent): MoneyEvent {
    if Truthy(e.providerStatus) && ClassifyTBankStatus(e.providerStatus.value) != Ignore
    then ClassifyTBankStatus(e.providerStatus.value)
    else
      match e.eventType
      case PaymentSucceeded => Confirmed
      case PaymentFailed => Failed
      case PaymentCanceled => Canceled
      case PaymentRefunded => Refunded
      case PaymentPartiallyRefunded => PartiallyRefunded
      case _ => Ignore
  }

  // ---- Finding the payment of an event ----

  function ByProviderId(ps: seq<Payment>, provider: string, id: string): (p: Option<nat>)
    ensures p.Some? ==> p.value < |ps| && ps[p.value].provider == provider && ps[p.value].providerPaymentId == Some(id)
    ensures p.None? ==> forall k :: 0 <= k < |ps| ==> !(ps[k].provider == provider && ps[k].providerPaymentId == Some(id))
  {
    if ps == [] then None
    else
      var n := |ps| - 1;
      if ps[n].provider == provider && ps[n].providerPaymentId == Some(id) then Some(n)
      else ByProviderId(ps[..n], provider, id)
  }

  function ByOrder(ps: seq<Payment>, orderId: string): (p: Option<nat>)
    ensures p.Some? ==> p.value < |ps| && ps[p.value].orderId == orderId
    ensures p.None? ==> forall k :: 0 <= k < |ps| ==> ps[k].orderId != orderId
  {
    if ps == [] then None
    else
      var n := |ps| - 1;
      if ps[n].orderId == orderId then Some(n) else ByOrder(ps[..n], orderId)
  }

  /** The provider's id in the event belongs to a payment of the table. */
  predicate NamesProviderId(ps: seq<Payment>, e: PaymentEvent) {
    Truthy(e.providerPaymentId)
    && exists k :: 0 <= k < |ps| && ps[k].provider == e.provider && ps[k].providerPaymentId == e.providerPaymentId
  }

  predicate NamesOrder(ps: seq<Payment>, e: PaymentEvent) {
    Truthy(e.orderId) && exists k :: 0 <= k < |ps| && Some(ps[k].orderId) == e.orderId
  }

  function LockPaymentId(ps: seq<Payment>, e: PaymentEvent): (p: Option<nat>)
    ensures p.Some? ==> p.value < |ps|
    ensures match p
            case None => !NamesProviderId(ps, e) && !NamesOrder(ps, e)
            case Some(k) =>
              if NamesProviderId(ps, e) then ps[k].provider == e.provider && ps[k].providerPaymentId == e.providerPaymentId
              else NamesOrder(ps, e) && Some(ps[k].orderId) == e.orderId
  {
    var byProvider := if Truthy(e.providerPaymentId) then ByProviderId(ps, e.provider, e.providerPaymentId.value) else None;
    if byProvider.Some? then byProvider
    else if Truthy(e.orderId) then ByOrder(ps, e.orderId.value)
    else None
  }

  // ---- Granting ----

  /** A row with this (provider, providerPaymentId) other than p, which the unique key forbids. */
  predicate Clashes(ps: seq<Payment>, p: nat, provider: string, id: Option<string>) {
    id.Some? && exists q :: 0 <= q < |ps| && q != p && ps[q].provider == provider && ps[q].providerPaymentId == id
  }

  predicate HasActive(subs: seq<Subscription>, userId: string) {
    exists i :: 0 <= i < |subs| && subs[i].userId == userId && subs[i].active
  }

  predicate HasBucketFrom(buckets: seq<Bucket>, source: Source) {
    exists b :: 0 <= b < |buckets| && buckets[b].source == source
  }

  const DAY_MS := 24 * 60 * 60 * 1000

  datatype Granted = Granted(accounts: Accounts, bucketId: nat, subscriptionId: Option<nat>)

  /** grantFromSucceededPayment: a new bucket for the snapshot's amount, and for a plan its subscription. */
  function GrantFromSucceededPayment(a: Accounts, p: nat, now: int, defaultDays: int): Result<Granted, BillingError>
    requires p < |a.payments|
  {
    var x := a.payments[p];
    var grant, b := x.snapshot.grant, |a.books.buckets|;
    if x.snapshot.customerAmount != x.amount then Err(PAYMENT_RECONCILIATION_REQUIRED)
    else if x.kind == SubscriptionPayment then
      var planVersionId := Coalesce(x.snapshot.planVersionId, x.planVersionId);
      if !Truthy(planVersionId) then Err(PLAN_NOT_FOUND)
      else if HasActive(a.subscriptions, x.userId) then Err(SUBSCRIPTION_ALREADY_ACTIVE)
      else
        var periodEnd := now + (if x.snapshot.periodDays.Some? then x.snapshot.periodDays.value else defaultDays) * DAY_MS;
        var s := |a.subscriptions|;
        Ok(Granted(a.(books := Grant(a.books, x.userId, FromSubscription(s), grant, Some(periodEnd), now, p),
                      subscriptions := a.subscriptions + [Subscription(x.userId, planVersionId.value, true, now, periodEnd)]),
                   b, Some(s)))
    else if HasBucketFrom(a.books.buckets, FromPayment(p)) then Err(UNIQUE_VIOLATION)
    else Ok(Granted(a.(books := Grant(a.books, x.userId, FromPayment(p), grant, None, now, p)), b, None))
  }

  // ---- Handling an event ----

  function SetPayment(a: Accounts, p: nat, x: Payment): Accounts
    requires p < |a.payments|
  {
    a.(payments := a.payments[p := x])
  }

  function Known(a: Accounts, p: nat, duplicate: bool): Outcome
    requires p < |a.payments|
  {
    Outcome(duplicate, p, a.payments[p].status, a.payments[p].bucketId, a.payments[p].subscriptionId)
  }

  function Note(s: Books, x: Payment, p: nat): Books {
    s.(ledger := s.ledger + [LedgerEntry(x.userId, x.bucketId, None, Some(p), ADJUSTMENT, 0)])
  }

  function Mismatched(a: Accounts, p: nat, e: PaymentEvent): (Accounts, Outcome)
    requires p < |a.payments|
  {
    var x := a.payments[p];
    (SetPayment(a, p, x.(status := RECONCILIATION_REQUIRED, providerStatus := Coalesce(e.providerStatus, x.providerStatus))),
     Outcome(false, p, RECONCILIATION_REQUIRED, None, None))
  }

  function Confirm(a: Accounts, p: nat, e: PaymentEvent, now: int, defaultDays: int): Result<(Accounts, Outcome), BillingError>
    requires p < |a.payments|
  {
    var x := a.payments[p];
    if x.status in {SUCCEEDED, REFUNDED, PARTIALLY_REFUNDED} then Ok((a, Known(a, p, false)))
    else if x.status != PENDING && x.status != CREATED then Err(FINANCIAL_OPERATION_FAILED)
    else
      match GrantFromSucceededPayment(a, p, now, defaultDays)
      case Err(error) => Err(error)
      case Ok(g) =>
        var id := Coalesce(e.providerPaymentId, x.providerPaymentId);
        if Clashes(a.payments, p, x.provider, id) then Err(UNIQUE_VIOLATION)
        else
          Ok((SetPayment(g.accounts, p,
                         x.(status := SUCCEEDED, providerStatus := Coalesce(e.providerStatus, Some("CONFIRMED")),
                            providerPaymentId := id, bucketId := Some(g.bucketId), subscriptionId := g.subscriptionId)),
              Outcome(false, p, SUCCEEDED, Some(g.bucketId), g.subscriptionId)))
  }

  /** What a refund asks back; None is the thrown error of an invalid conversion. */
  function RevokeGrant(x: Payment, e: PaymentEvent): (r: Option<int>)
    ensures r.Some? ==> r.value >= 0
  {
    var ratio := x.snapshot.topupRatioBps;
    if e.eventType == PaymentPartiallyRefunded && e.refundAmount.Some? && ratio.Some? && ratio.value != 0
    then TopupProviderBudget(e.refundAmount.value, ratio.value)
    else Some(x.snapshot.grant)
  }

  function CancelSubscription(subs: seq<Subscription>, id: Option<nat>, userId: string): seq<Subscription> {
    if id.Some? && id.value < |subs| && subs[id.value].userId == userId && subs[id.value].active
    then subs[id.value := subs[id.value].(active := false)]
    else subs
  }

  /** applyRefundAccounting. Whether a refund is full is decided by the event type alone. */
  function Refund(a: Accounts, p: nat, e: PaymentEvent): Result<(Accounts, Outcome), BillingError>
    requires p < |a.payments|
  {
    var x := a.payments[p];
    var full := e.eventType != PaymentPartiallyRefunded;
    if !full && x.kind == SubscriptionPayment then
      Ok((SetPayment(a.(books := Note(a.books, x, p)), p,
                     x.(status := RECONCILIATION_REQUIRED, providerStatus := Coalesce(e.providerStatus, x.providerStatus))),
          Outcome(false, p, RECONCILIATION_REQUIRED, x.bucketId, x.subscriptionId)))
    else
      match RevokeGrant(x, e)
      case None => Err(INVALID_BUDGET_INPUTS)
      case Some(requested) =>
        var status := if full then REFUNDED else PARTIALLY_REFUNDED;
        var books := if x.bucketId.Some? && x.bucketId.value < |a.books.buckets|
                     then Revoke(a.books, x.userId, x.bucketId.value, requested, p) else a.books;
        var subs := if full then CancelSubscription(a.subscriptions, x.subscriptionId, x.userId) else a.subscriptions;
        Ok((SetPayment(a.(books := books, subscriptions := subs), p, x.(status := status, providerStatus := Coalesce(e.providerStatus, x.providerStatus))),
            Outcome(false, p, status, x.bucketId, x.subscriptionId)))
  }

  /** Failed, canceled and pending notifications move the status and nothing else. */
  function FollowStatus(a: Accounts, p: nat, e: PaymentEvent, m: MoneyEvent): (Accounts, Outcome)
    requires p < |a.payments|
  {
    var x := a.payments[p];
    var next := NextDomainStatus(x.status, m);
    var after :=
      if next.Some? && next.value != x.status then SetPayment(a, p, x.(status := next.value, providerStatus := Coalesce(e.providerStatus, x.providerStatus)))
      else if Truthy(e.providerStatus) && x.status !in {SUCCEEDED, REFUNDED, PARTIALLY_REFUNDED, RECONCILIATION_REQUIRED}
      then SetPayment(a, p, x.(providerStatus := Coalesce(e.providerStatus, x.providerStatus)))
      else a;
    (after, Outcome(false, p, if next.Some? then next.value else x.status, None, None))
  }

  function Chargeback(a: Accounts, p: nat, e: PaymentEvent): (Accounts, Outcome)
    requires p < |a.payments|
  {
    var x := a.payments[p];
    (SetPayment(a.(books := Note(a.books, x, p)), p,
                x.(status := RECONCILIATION_REQUIRED, providerStatus := Coalesce(e.providerStatus, Some("CHARGEBACK")))),
     Outcome(false, p, RECONCILIATION_REQUIRED, x.bucketId, x.subscriptionId))
  }

  /** Everything between recording a fresh event and the end of its transaction. */
  function Handle(a: Accounts, p: nat, e: PaymentEvent, now: int, defaultDays: int): Result<(Accounts, Outcome), BillingError>
    requires p < |a.payments|
  {
    var x := a.payments[p];
    if Truthy(e.providerPaymentId) && Truthy(x.providerPaymentId) && e.providerPaymentId != x.providerPaymentId
    then Ok(Mismatched(a, p, e))
    else if e.amount.Some? && e.amount.value != x.amount then Ok(Mismatched(a, p, e))
    else
      match MoneyEventOf(e)
      case Confirmed => Confirm(a, p, e, now, defaultDays)
      case Refunded => Refund(a, p, e)
      case PartiallyRefunded => Refund(a, p, e)
      case Ignore => Ok(if e.eventType == PaymentChargeback then Chargeback(a, p, e) else (a, Known(a, p, false)))
      case m => Ok(FollowStatus(a, p, e, m))
  }

  function Recorded(a: Accounts, e: PaymentEvent): Accounts { a.(events := a.events + {(e.provider, e.eventId)}) }

  /** processPaymentEvent: one transaction, undone as a whole when it throws. */
  function ProcessPaymentEvent(a: Accounts, e: PaymentEvent, now: int, defaultDays: int): (Accounts, Result<Outcome, BillingError>) {
    match LockPaymentId(a.payments, e)
    case None => (a, Err(PAYMENT_NOT_FOUND))
    case Some(p) =>
      if (e.provider, e.eventId) in a.events then (a, Ok(Known(a, p, true)))
      else
        match Handle(Recorded(a, e), p, e, now, defaultDays)
        case Err(error) => (a, Err(error))
        case Ok(r) => (r.0, Ok(r.1))
  }

  /** attachProviderCheckout, which writes PENDING whatever the status was. */
  function AttachProviderCheckout(a: Accounts, p: nat, userId: string, providerPaymentId: string, providerStatus: Option<string>)
    : (Accounts, Result<nat, BillingError>)
  {
    if p >= |a.payments| || a.payments[p].userId != userId then (a, Err(PAYMENT_NOT_FOUND))
    else if Clashes(a.payments, p, a.payments[p].provider, Some(providerPaymentId)) then (a, Err(UNIQUE_VIOLATION))
    else
      var x := a.payments[p];
      (SetPayment(a, p, x.(providerPaymentId := Some(providerPaymentId), providerStatus := Coalesce(providerStatus, x.providerStatus),
                           status := PENDING)),
       Ok(p))
  }
}
