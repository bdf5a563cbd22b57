/** What one provider event does, exactly: how much is granted, how much a refund takes back, and what nothing does. */
module PaymentsEffects {
  import opened Basics
  import opened Money
  import opened Allocation
  import opened Books
  import opened BooksInvariant
  import opened Payments
  import opened PaymentsInvariant

  /** The event is fresh, finds payment p, and agrees with it in the provider's id and the amount. */
  predicate Reaches(a: Accounts, p: nat, e: PaymentEvent) {
    LockPaymentId(a.payments, e) == Some(p) && p < |a.payments| && (e.provider, e.eventId) !in a.events && Agrees(a.payments[p], e)
  }

  predicate Agrees(x: Payment, e: PaymentEvent) {
    && !(Truthy(e.providerPaymentId) && Truthy(x.providerPaymentId) && e.providerPaymentId != x.providerPaymentId)
    && (e.amount.Some? ==> e.amount.value == x.amount)
  }

  // ---- Confirmations ----

  /** The plan a subscription payment buys, as the checkout froze it or else as the payment names it. */
  function PlanOf(x: Payment): Option<string> { Coalesce(x.snapshot.planVersionId, x.planVersionId) }

  /** Nothing stands against granting an open payment now. */
  predicate Grantable(a: Accounts, p: nat, e: PaymentEvent)
    requires p < |a.payments|
  {
    var x := a.payments[p];
    && (x.status == CREATED || x.status == PENDING)
    && x.snapshot.customerAmount == x.amount
    && (x.kind == SubscriptionPayment ==> Truthy(PlanOf(x)) && !HasActive(a.subscriptions, x.userId))
    && !Clashes(a.payments, p, x.provider, Coalesce(e.providerPaymentId, x.providerPaymentId))
  }

  /** The period a subscription payment buys. */
  function Period(x: Payment, defaultDays: int): int { (if x.snapshot.periodDays.Some? then x.snapshot.periodDays.value else defaultDays) * DAY_MS }

  /**
   * A confirmation grants exactly when the payment is open and nothing stands against it. Then one bucket opens
   * with all of the snapshot's amount unspent: a top-up's never expires, a subscription's lasts for its
   * period, and the subscription is active for as long. Otherwise no bucket changes and none opens.
   */
  lemma ConfirmationGrantsIff(a: Accounts, p: nat, e: PaymentEvent, now: int, days: int)
    requires AccountsInv(a) && Reaches(a, p, e) && MoneyEventOf(e) == Confirmed
    ensures var (t, r) := ProcessPaymentEvent(a, e, now, days);
            if Grantable(a, p, e) then GrantedBy(a, t, p, now, days) && r == Ok(Outcome(false, p, SUCCEEDED, t.payments[p].bucketId, t.payments[p].subscriptionId))
            else t.books == a.books && t.subscriptions == a.subscriptions && t.payments == a.payments
  {
    var b := Recorded(a, e);
    ConfirmGrantsIff(b, p, e, now, days);
    assert Grantable(a, p, e) == Grantable(b, p, e);
    assert Handle(b, p, e, now, days) == Confirm(b, p, e, now, days);
  }

  lemma ConfirmGrantsIff(a: Accounts, p: nat, e: PaymentEvent, now: int, days: int)
    requires AccountsInv(a) && p < |a.payments|
    ensures var r := Confirm(a, p, e, now, days);
            if Grantable(a, p, e)
            then r.Ok? && GrantedBy(a, r.value.0, p, now, days)
                 && r.value.1 == Outcome(false, p, SUCCEEDED, r.value.0.payments[p].bucketId, r.value.0.payments[p].subscriptionId)
            else r.Ok? ==> r.value.0 == a
  {
    assert PaymentInv(a.books, a.payments[p], p);
    assert HasBucketFrom(a.books.buckets, FromPayment(p)) ==> a.payments[p].bucketId.Some?;
  }

  predicate Opened(x: Payment) { x.status == CREATED || x.status == PENDING }

  predicate GrantedBy(a: Accounts, t: Accounts, p: nat, now: int, days: int) {
    && p < |a.payments| == |t.payments|
    && var x, y, b := a.payments[p], t.payments[p], |a.books.buckets|;
       && y.status == SUCCEEDED && y.bucketId == Some(b)
       && |t.books.buckets| == b + 1 && t.books.buckets[..b] == a.books.buckets
       && OpenedFor(t.books.buckets[b], x, now, days)
       && (if x.kind == SubscriptionPayment
           then && y.subscriptionId == Some(|a.subscriptions|) && PlanOf(x).Some?
                && t.subscriptions == a.subscriptions + [Subscription(x.userId, PlanOf(x).value, true, now, now + Period(x, days))]
           else y.subscriptionId.None? && t.subscriptions == a.subscriptions)
  }

  predicate OpenedFor(b: Bucket, x: Payment, now: int, days: int) {
    && b.userId == x.userId && b.total == x.snapshot.grant && b.spent == 0 && b.reserved == 0 && b.createdAt == now
    && (if x.kind == SubscriptionPayment then b.kind == MONTHLY && b.expiresAt == Some(now + Period(x, days))
        else b.kind == TOPUP && b.expiresAt.None?)
  }

  // ---- Refunds ----

  /** How much a refund asks back: of a partial refund of a top-up its part at the checkout's ratio, else everything granted. */
  function Asked(x: Payment, e: PaymentEvent): int {
    if e.eventType == PaymentPartiallyRefunded && e.refundAmount.Some? && x.snapshot.topupRatioBps.Some? && x.snapshot.topupRatioBps.value != 0
    then e.refundAmount.value * x.snapshot.topupRatioBps.value / 10_000 else x.snapshot.grant
  }

  /** The ledger grew, and notes an adjustment of bucket b. */
  ghost predicate Adjusts(s: Books, t: Books, b: nat) {
    s.ledger <= t.ledger && exists e :: e in t.ledger[|s.ledger|..] && e.kind == ADJUSTMENT && e.bucketId == Some(b)
  }

  /**
   * Bucket b lost what was asked for, or all that was neither spent nor held when that was less, which the ledger
   * then notes; nothing else moved.
   */
  ghost predicate TakenBack(s: Books, t: Books, b: nat, asked: int) {
    b < |s.buckets| == |t.buckets|
    && t.buckets == s.buckets[b := t.buckets[b]] && t.reservations == s.reservations
    && var x, y := s.buckets[b], t.buckets[b];
       && y == x.(total := y.total)
       && (asked <= x.total - x.spent - x.reserved ==> y.total == x.total - asked)
       && (asked > x.total - x.spent - x.reserved ==> y.total == x.spent + x.reserved)
       && (asked > x.total - x.spent - x.reserved <==> Adjusts(s, t, b))
  }

  lemma RevokeTakesExactly(s: Books, userId: string, b: nat, asked: int, p: nat)
    requires Inv(s) && b < |s.buckets| && asked >= 0
    ensures TakenBack(s, Revoke(s, userId, b, asked, p), b, asked)
  {
    assert BucketInv(s, b);
    var t, entries := Revoke(s, userId, b, asked, p), RevokeEntries(userId, b, p, Revocable(s.buckets[b], asked), asked);
    assert t.ledger[|s.ledger|..] == entries;
    if Revocable(s.buckets[b], asked) < asked { assert entries[|entries| - 1].kind == ADJUSTMENT && entries[|entries| - 1] in entries; }
  }

  lemma AskedIsRevokeGrant(x: Payment, e: PaymentEvent)
    requires RevokeGrant(x, e).Some?
    ensures RevokeGrant(x, e).value == Asked(x, e) >= 0
  {}

  predicate IsRefund(e: PaymentEvent) { MoneyEventOf(e) == Refunded || MoneyEventOf(e) == PartiallyRefunded }

  /** What a refund that is not thrown out does is the revocation of what it asks for. */
  lemma RefundRevokes(a: Accounts, p: nat, e: PaymentEvent, now: int, days: int)
    requires Reaches(a, p, e) && IsRefund(e) && ProcessPaymentEvent(a, e, now, days).1.Ok?
    requires p < |a.payments| && a.payments[p].bucketId.Some? && a.payments[p].bucketId.value < |a.books.buckets|
    requires e.eventType == PaymentPartiallyRefunded ==> a.payments[p].kind == TopupPayment
    ensures var x, t := a.payments[p], ProcessPaymentEvent(a, e, now, days).0;
            && Asked(x, e) >= 0 && t.books == Revoke(a.books, x.userId, x.bucketId.value, Asked(x, e), p) && |t.payments| == |a.payments|
            && t.payments[p].status == if e.eventType == PaymentPartiallyRefunded then PARTIALLY_REFUNDED else REFUNDED
  {
    AskedIsRevokeGrant(a.payments[p], e);
  }

  /**
   * A refund of a granted payment takes back exactly what it asks for, as far as it is neither spent nor held,
   * and touches no other bucket; the payment ends refunded, fully or in part.
   */
  lemma RefundTakesBack(a: Accounts, p: nat, e: PaymentEvent, now: int, days: int)
    requires AccountsInv(a) && Reaches(a, p, e) && IsRefund(e)
    requires a.payments[p].bucketId.Some? && ProcessPaymentEvent(a, e, now, days).1.Ok?
    requires e.eventType == PaymentPartiallyRefunded ==> a.payments[p].kind == TopupPayment
    ensures var t := ProcessPaymentEvent(a, e, now, days).0;
            && TakenBack(a.books, t.books, a.payments[p].bucketId.value, Asked(a.payments[p], e)) && |t.payments| == |a.payments|
            && t.payments[p].status == if e.eventType == PaymentPartiallyRefunded then PARTIALLY_REFUNDED else REFUNDED
  {
    var x := a.payments[p];
    assert PaymentInv(a.books, x, p);
    RefundRevokes(a, p, e, now, days);
    RevokeTakesExactly(a.books, x.userId, x.bucketId.value, Asked(x, e), p);
  }

  /** A partial refund of a plan payment takes nothing back and is left to a human. */
  lemma PartialPlanRefundIsLeft(a: Accounts, p: nat, e: PaymentEvent, now: int, days: int)
    requires p < |a.payments| && Reaches(a, p, e) && IsRefund(e)
    requires e.eventType == PaymentPartiallyRefunded && a.payments[p].kind == SubscriptionPayment
    ensures var t := ProcessPaymentEvent(a, e, now, days).0;
            && MovesNothing(a, t) && t.payments[p].status == RECONCILIATION_REQUIRED
  {
    var note := LedgerEntry(a.payments[p].userId, a.payments[p].bucketId, None, Some(p), ADJUSTMENT, 0);
    SumLast(a.books.ledger, note, Amounts());
  }

  /** After a full refund nothing is left to spend in the payment's bucket, and its subscription is no longer active. */
  lemma FullRefundLeavesNothing(a: Accounts, p: nat, e: PaymentEvent, now: int, days: int)
    requires AccountsInv(a) && Reaches(a, p, e) && IsRefund(e)
    requires a.payments[p].bucketId.Some? && e.eventType != PaymentPartiallyRefunded
    ensures var (t, r) := ProcessPaymentEvent(a, e, now, days);
            var x := a.payments[p];
            && r.Ok? && |t.books.buckets| == |a.books.buckets| && x.bucketId.value < |t.books.buckets|
            && Available(t.books.buckets[x.bucketId.value]) == 0
            && (x.subscriptionId.Some? && x.subscriptionId.value < |t.subscriptions| && t.subscriptions[x.subscriptionId.value].userId == x.userId ==>
                  !t.subscriptions[x.subscriptionId.value].active)
  {
    var x := a.payments[p];
    var b := x.bucketId.value;
    assert PaymentInv(a.books, x, p);
    assert BucketInv(a.books, b);
    RefundTakesBack(a, p, e, now, days);
    TotalWithinGrant(a, p);
  }

  /** A granted bucket never holds more than its payment was granted. */
  lemma TotalWithinGrant(a: Accounts, p: nat)
    requires AccountsInv(a) && p < |a.payments| && a.payments[p].bucketId.Some?
    ensures a.books.buckets[a.payments[p].bucketId.value].total <= a.payments[p].snapshot.grant
  {
    assert PaymentInv(a.books, a.payments[p], p);
    FundedWithinGrants(a, p, a.books.ledger);
  }

  lemma {:induction false} FundedWithinGrants(a: Accounts, p: nat, ledger: seq<LedgerEntry>)
    requires RevocationsTake(ledger)
    ensures Sum(ledger, FundedBy(p)) <= Sum(ledger, GrantedTo(p))
  {
    if ledger != [] { FundedWithinGrants(a, p, ledger[..|ledger| - 1]); }
  }

  // ---- Everything else ----

  /** An event that is known, finds no payment, disagrees with it or reports neither success nor refund moves no money. */
  lemma OthersMoveNothing(a: Accounts, e: PaymentEvent, now: int, days: int)
    requires MoneyEventOf(e) !in {Confirmed, Refunded, PartiallyRefunded} || forall p: nat :: !Reaches(a, p, e)
    ensures MovesNothing(a, ProcessPaymentEvent(a, e, now, days).0)
  {
    var found := LockPaymentId(a.payments, e);
    if found.Some? {
      assert !Reaches(a, found.value, e) || MoneyEventOf(e) !in {Confirmed, Refunded, PartiallyRefunded};
      if (e.provider, e.eventId) !in a.events { HandleMovesNothing(Recorded(a, e), found.value, e, now, days); }
    }
  }

  predicate MovesNothing(a: Accounts, t: Accounts) {
    && t.books.buckets == a.books.buckets && t.books.reservations == a.books.reservations && t.subscriptions == a.subscriptions
    && Sum(t.books.ledger, Amounts()) == Sum(a.books.ledger, Amounts())
    && |t.payments| == |a.payments| && forall p :: 0 <= p < |a.payments| ==> t.payments[p].bucketId == a.payments[p].bucketId
  }

  lemma HandleMovesNothing(a: Accounts, p: nat, e: PaymentEvent, now: int, days: int)
    requires p < |a.payments| && (MoneyEventOf(e) !in {Confirmed, Refunded, PartiallyRefunded} || !Agrees(a.payments[p], e))
    ensures Handle(a, p, e, now, days).Ok? && MovesNothing(a, Handle(a, p, e, now, days).value.0)
  {
    var note := LedgerEntry(a.payments[p].userId, a.payments[p].bucketId, None, Some(p), ADJUSTMENT, 0);
    SumLast(a.books.ledger, note, Amounts());
  }

  function Amounts(): LedgerEntry -> int { (e: LedgerEntry) => e.amount }

  /** Where each report leads an open payment, and that none but a refund or a dispute moves one that succeeded. */
  lemma StatusFollows(a: Accounts, p: nat, e: PaymentEvent, now: int, days: int)
    requires p < |a.payments| && LockPaymentId(a.payments, e) == Some(p) && (e.provider, e.eventId) !in a.events
    ensures var x, y, m := a.payments[p], ProcessPaymentEvent(a, e, now, days).0.payments, MoneyEventOf(e);
            && p < |y|
            && (!Agrees(x, e) ==> y[p].status == RECONCILIATION_REQUIRED)
            && (Agrees(x, e) && Opened(x) && m == Failed ==> y[p].status == FAILED)
            && (Agrees(x, e) && Opened(x) && m == Canceled ==> y[p].status == CANCELED)
            && (Agrees(x, e) && Opened(x) && m == Pending ==> y[p].status == PENDING)
            && (Agrees(x, e) && x.status == SUCCEEDED && m in {Confirmed, Failed, Canceled, Pending} ==> y[p].status == SUCCEEDED)
            && (Agrees(x, e) && m == Ignore ==> y[p].status == if e.eventType == PaymentChargeback then RECONCILIATION_REQUIRED else x.status)
  {}

  /** The provider's own words that are understood. */
  const KNOWN_STATUSES := {"CONFIRMED", "NEW", "FORM_SHOWED", "AUTHORIZING", "3DS_CHECKING", "3DS_CHECKED", "AUTHORIZED", "CONFIRMING",
                           "REJECTED", "DEADLINE_EXPIRED", "AUTH_FAIL", "CANCELED", "REVERSED", "PARTIAL_REVERSED", "REFUNDED", "PARTIAL_REFUNDED"}

  /** The event says one of these words or, without a word that is understood, is of this type. */
  predicate Says(e: PaymentEvent, words: set<string>, eventType: EventType) {
    if e.providerStatus.Some? && e.providerStatus.value in KNOWN_STATUSES then e.providerStatus.value in words else e.eventType == eventType
  }

  /**
   * What the provider's words mean for money: only CONFIRMED confirms, an authorization does not; rejected and
   * overdue payments failed, reversed ones are canceled, in part too; and only a refund refunds.
   */
  lemma OnlyConfirmedConfirms(e: PaymentEvent)
    ensures MoneyEventOf(e) == Confirmed <==> Says(e, {"CONFIRMED"}, PaymentSucceeded)
    ensures MoneyEventOf(e) == Failed <==> Says(e, {"REJECTED", "DEADLINE_EXPIRED", "AUTH_FAIL"}, PaymentFailed)
    ensures MoneyEventOf(e) == Canceled <==> Says(e, {"CANCELED", "REVERSED", "PARTIAL_REVERSED"}, PaymentCanceled)
    ensures MoneyEventOf(e) == Refunded <==> Says(e, {"REFUNDED"}, PaymentRefunded)
    ensures MoneyEventOf(e) == PartiallyRefunded <==> Says(e, {"PARTIAL_REFUNDED"}, PaymentPartiallyRefunded)
  {}
}
