/** Every payment is granted at most once, for what its checkout promised, over every run of events. */
module PaymentsInvariant {
  import opened Basics
  import opened Allocation
  import opened Books
  import opened BooksInvariant
  import opened BooksLaws
  import opened Payments

  // ---- What the ledger says about a payment ----

  predicate IsGrant(e: LedgerEntry, p: nat) { e.paymentId == Some(p) && e.kind in {BUCKET_GRANTED, TOPUP_GRANTED} }

  function GrantsOf(p: nat): LedgerEntry -> int { (e: LedgerEntry) => if IsGrant(e, p) then 1 else 0 }

  function GrantedTo(p: nat): LedgerEntry -> int { (e: LedgerEntry) => if IsGrant(e, p) then e.amount else 0 }

  function FundedBy(p: nat): LedgerEntry -> int {
    (e: LedgerEntry) => if e.paymentId == Some(p) && IsFunding(e.kind) then e.amount else 0
  }

  /**
   * A payment is granted once or not at all, for the amount of its snapshot; what it was granted
   * less what its refunds took back is the total of its bucket.
   */
  ghost predicate PaymentInv(s: Books, x: Payment, p: nat) {
    && (x.status in {CREATED, PENDING, FAILED} ==> x.bucketId.None?)
    && (x.status == SUCCEEDED ==> x.bucketId.Some?)
    && (x.bucketId.Some? ==>
          && x.bucketId.value < |s.buckets| && s.buckets[x.bucketId.value].userId == x.userId
          && (x.kind == TopupPayment ==> s.buckets[x.bucketId.value].source == FromPayment(p)))
    && Sum(s.ledger, GrantsOf(p)) == (if x.bucketId.Some? then 1 else 0)
    && Sum(s.ledger, GrantedTo(p)) == (if x.bucketId.Some? then x.snapshot.grant else 0)
    && Sum(s.ledger, FundedBy(p)) == (if x.bucketId.Some? then s.buckets[x.bucketId.value].total else 0)
  }

  ghost predicate DistinctGrants(ps: seq<Payment>) {
    forall p, q :: 0 <= p < q < |ps| && ps[p].bucketId.Some? ==> ps[p].bucketId != ps[q].bucketId
  }

  ghost predicate UniqueKeys(ps: seq<Payment>) {
    && (forall p, q :: 0 <= p < q < |ps| ==>
          !(ps[p].provider == ps[q].provider && ps[p].providerPaymentId.Some? && ps[p].providerPaymentId == ps[q].providerPaymentId))
    && (forall p, q :: 0 <= p < q < |ps| ==> ps[p].orderId != ps[q].orderId)
  }

  ghost predicate OneActive(subs: seq<Subscription>) {
    forall i, j :: 0 <= i < j < |subs| && subs[i].active && subs[j].active ==> subs[i].userId != subs[j].userId
  }

  /** A bucket bought by a top-up is the bucket of that payment. */
  ghost predicate SourcesKnown(buckets: seq<Bucket>, ps: seq<Payment>) {
    forall b :: 0 <= b < |buckets| && buckets[b].source.FromPayment? ==>
                  buckets[b].source.paymentId < |ps| && ps[buckets[b].source.paymentId].bucketId == Some(b)
  }

  ghost predicate EntriesKnown(ledger: seq<LedgerEntry>, n: nat) {
    && (forall e :: 0 <= e < |ledger| && ledger[e].paymentId.Some? ==> ledger[e].paymentId.value < n)
    && RevocationsTake(ledger)
  }

  /** A revocation never adds. */
  ghost predicate RevocationsTake(ledger: seq<LedgerEntry>) {
    forall e :: 0 <= e < |ledger| && ledger[e].kind == BUCKET_REVOKED ==> ledger[e].amount <= 0
  }

  ghost predicate AccountsInv(a: Accounts) {
    && Inv(a.books)
    && (forall p :: 0 <= p < |a.payments| ==> PaymentInv(a.books, a.payments[p], p))
    && DistinctGrants(a.payments) && UniqueKeys(a.payments) && OneActive(a.subscriptions)
    && SourcesKnown(a.books.buckets, a.payments)
    && EntriesKnown(a.books.ledger, |a.payments|)
  }

  // ---- Frames ----

  /** Buckets keep their owner, source and total, up to one whose total may change and new ones. */
  ghost predicate BucketsCarry(before: seq<Bucket>, after: seq<Bucket>, except: Option<nat>) {
    && |before| <= |after|
    && forall b :: 0 <= b < |before| ==>
         && after[b].userId == before[b].userId && after[b].source == before[b].source
         && (except != Some(b) ==> after[b].total == before[b].total)
  }

  lemma SilentEntries(ledger: seq<LedgerEntry>, es: seq<LedgerEntry>, p: nat)
    requires forall e :: 0 <= e < |es| ==> !(es[e].paymentId == Some(p) && IsFunding(es[e].kind))
    ensures Sum(ledger + es, GrantsOf(p)) == Sum(ledger, GrantsOf(p))
    ensures Sum(ledger + es, GrantedTo(p)) == Sum(ledger, GrantedTo(p))
    ensures Sum(ledger + es, FundedBy(p)) == Sum(ledger, FundedBy(p))
  {
    SumZero(es, GrantsOf(p));
    SumZero(es, GrantedTo(p));
    SumZero(es, FundedBy(p));
    SumAppend(ledger, es, GrantsOf(p));
    SumAppend(ledger, es, GrantedTo(p));
    SumAppend(ledger, es, FundedBy(p));
  }

  lemma PaymentCarries(s: Books, t: Books, x: Payment, p: nat, es: seq<LedgerEntry>, except: Option<nat>)
    requires PaymentInv(s, x, p) && t.ledger == s.ledger + es && BucketsCarry(s.buckets, t.buckets, except)
    requires x.bucketId.Some? ==> x.bucketId != except
    requires forall e :: 0 <= e < |es| ==> !(es[e].paymentId == Some(p) && IsFunding(es[e].kind))
    ensures PaymentInv(t, x, p)
  {
    SilentEntries(s.ledger, es, p);
  }

  /** A transaction that changes payment p alone and posts entries of p alone. */
  lemma OnePaymentChanges(a: Accounts, t: Accounts, p: nat, es: seq<LedgerEntry>)
    requires AccountsInv(a) && p < |a.payments| == |t.payments| && t.payments == a.payments[p := t.payments[p]]
    requires Inv(t.books) && t.books.ledger == a.books.ledger + es
    requires (forall e :: 0 <= e < |es| ==> es[e].paymentId == Some(p)) && RevocationsTake(es)
    requires BucketsCarry(a.books.buckets, t.books.buckets, a.payments[p].bucketId)
    requires PaymentInv(t.books, t.payments[p], p)
    requires DistinctGrants(t.payments) && UniqueKeys(t.payments) && OneActive(t.subscriptions)
    requires SourcesKnown(t.books.buckets, t.payments)
    ensures AccountsInv(t)
  {
    forall q | 0 <= q < |t.payments| ensures PaymentInv(t.books, t.payments[q], q) {
      if q != p {
        PaymentCarries(a.books, t.books, a.payments[q], q, es, a.payments[p].bucketId);
      }
    }
  }

  /** Replacing payment p by one with the same keys, owner and bucket. */
  lemma SameKeys(ps: seq<Payment>, p: nat, x: Payment, qs: seq<Payment>)
    requires p < |ps| && qs == ps[p := x]
    requires x.provider == ps[p].provider && x.orderId == ps[p].orderId
    requires x.bucketId == ps[p].bucketId && x.providerPaymentId == ps[p].providerPaymentId
    ensures DistinctGrants(ps) ==> DistinctGrants(qs)
    ensures UniqueKeys(ps) ==> UniqueKeys(qs)
    ensures forall buckets :: SourcesKnown(buckets, ps) ==> SourcesKnown(buckets, qs)
  {
    forall buckets | SourcesKnown(buckets, ps) ensures SourcesKnown(buckets, qs) {}
  }

  /** The status may change as long as it does not deny or invent a grant. */
  lemma StatusChanges(a: Accounts, p: nat, x: Payment)
    requires AccountsInv(a) && p < |a.payments|
    requires x == a.payments[p].(status := x.status, providerStatus := x.providerStatus)
    requires x.status in {CREATED, PENDING, FAILED} ==> x.bucketId.None?
    requires x.status == SUCCEEDED ==> x.bucketId.Some?
    ensures AccountsInv(SetPayment(a, p, x))
  {
    var t := SetPayment(a, p, x);
    SameKeys(a.payments, p, x, t.payments);
    assert PaymentInv(a.books, a.payments[p], p);
    assert t.books.ledger == a.books.ledger + [];
    OnePaymentChanges(a, t, p, []);
  }

  /** The books after a note of amount zero. */
  lemma NoteKeepsInv(s: Books, x: Payment, p: nat)
    requires Inv(s) && (x.bucketId.Some? ==> x.bucketId.value < |s.buckets|)
    ensures Inv(Note(s, x, p))
  {
    var t := Note(s, x, p);
    forall b | 0 <= b < |t.buckets| ensures BucketInv(t, b) {
      assert BucketInv(s, b);
      SumLast(s.ledger, t.ledger[|s.ledger|], Posted(b));
      SumLast(s.ledger, t.ledger[|s.ledger|], Funded(b));
    }
  }

  lemma NotedStatusChanges(a: Accounts, p: nat, x: Payment)
    requires AccountsInv(a) && p < |a.payments| && x.status == RECONCILIATION_REQUIRED
    requires x == a.payments[p].(status := x.status, providerStatus := x.providerStatus)
    ensures AccountsInv(SetPayment(a.(books := Note(a.books, a.payments[p], p)), p, x))
  {
    var t := SetPayment(a.(books := Note(a.books, a.payments[p], p)), p, x);
    assert PaymentInv(a.books, a.payments[p], p);
    NoteKeepsInv(a.books, a.payments[p], p);
    SameKeys(a.payments, p, x, t.payments);
    var note := t.books.ledger[|a.books.ledger|];
    SilentEntries(a.books.ledger, [note], p);
    OnePaymentChanges(a, t, p, [note]);
  }

  // ---- Granting ----

  /** The grant of a payment that was never granted. */
  lemma GrantedOnce(s: Books, x: Payment, p: nat, source: Source, expiresAt: Option<int>, now: int)
    requires PaymentInv(s, x, p) && x.bucketId.None? && (x.kind == TopupPayment ==> source == FromPayment(p))
    ensures var t, b := Grant(s, x.userId, source, x.snapshot.grant, expiresAt, now, p), |s.buckets|;
            forall y: Payment :: y.userId == x.userId && y.kind == x.kind && y.snapshot == x.snapshot && y.bucketId == Some(b) && y.status == SUCCEEDED
                                 ==> PaymentInv(t, y, p)
  {
    var t := Grant(s, x.userId, source, x.snapshot.grant, expiresAt, now, p);
    var entry := t.ledger[|s.ledger|];
    SumLast(s.ledger, entry, GrantsOf(p));
    SumLast(s.ledger, entry, GrantedTo(p));
    SumLast(s.ledger, entry, FundedBy(p));
  }

  lemma NewKeys(ps: seq<Payment>, p: nat, x: Payment, n: nat, qs: seq<Payment>)
    requires p < |ps| && x.provider == ps[p].provider && x.orderId == ps[p].orderId && qs == ps[p := x]
    requires UniqueKeys(ps) && !Clashes(ps, p, x.provider, x.providerPaymentId)
    requires DistinctGrants(ps) && x.bucketId == Some(n)
    requires forall q :: 0 <= q < |ps| && ps[q].bucketId.Some? ==> ps[q].bucketId.value < n
    ensures UniqueKeys(qs) && DistinctGrants(qs)
  {}

  lemma SubscriptionOpens(subs: seq<Subscription>, s: Subscription)
    requires OneActive(subs) && !HasActive(subs, s.userId)
    ensures OneActive(subs + [s])
  {}

  lemma ConfirmKeepsInv(a: Accounts, p: nat, e: PaymentEvent, now: int, defaultDays: int)
    requires AccountsInv(a) && p < |a.payments|
    requires Confirm(a, p, e, now, defaultDays).Ok?
    ensures AccountsInv(Confirm(a, p, e, now, defaultDays).value.0)
  {
    var x, t := a.payments[p], Confirm(a, p, e, now, defaultDays).value.0;
    if x.status == PENDING || x.status == CREATED {
      assert PaymentInv(a.books, x, p);
      var g := GrantFromSucceededPayment(a, p, now, defaultDays).value;
      var bucket := g.accounts.books.buckets[g.bucketId];
      GrantKeepsInv(a.books, x.userId, bucket.source, x.snapshot.grant, bucket.expiresAt, now, p);
      GrantedOnce(a.books, x, p, bucket.source, bucket.expiresAt, now);
      GrantKeepsTables(a, p, t, g.bucketId);
      if x.kind == SubscriptionPayment {
        SubscriptionOpens(a.subscriptions, g.accounts.subscriptions[|a.subscriptions|]);
      }
      OnePaymentChanges(a, t, p, [t.books.ledger[|a.books.ledger|]]);
    }
  }

  lemma GrantKeepsTables(a: Accounts, p: nat, t: Accounts, b: nat)
    requires AccountsInv(a) && p < |a.payments| && b == |a.books.buckets| && a.payments[p].bucketId.None?
    requires |t.payments| == |a.payments| && t.payments == a.payments[p := t.payments[p]]
    requires t.payments[p].bucketId == Some(b)
    requires t.payments[p].provider == a.payments[p].provider && t.payments[p].orderId == a.payments[p].orderId
    requires !Clashes(a.payments, p, t.payments[p].provider, t.payments[p].providerPaymentId)
    requires |t.books.buckets| == b + 1 && t.books.buckets[..b] == a.books.buckets
    requires t.books.buckets[b].source.FromPayment? ==> t.books.buckets[b].source.paymentId == p
    ensures UniqueKeys(t.payments) && DistinctGrants(t.payments) && SourcesKnown(t.books.buckets, t.payments)
    ensures BucketsCarry(a.books.buckets, t.books.buckets, a.payments[p].bucketId)
  {
    forall q | 0 <= q < |a.payments| && a.payments[q].bucketId.Some? ensures a.payments[q].bucketId.value < b {
      assert PaymentInv(a.books, a.payments[q], q);
    }
    NewKeys(a.payments, p, t.payments[p], b, t.payments);
    forall c | 0 <= c < |a.books.buckets| ensures t.books.buckets[c] == a.books.buckets[c] {
      assert t.books.buckets[..b][c] == t.books.buckets[c];
    }
  }

  // ---- Refunding ----

  lemma RevokeTakesBack(s: Books, x: Payment, p: nat, requested: int)
    requires Inv(s) && PaymentInv(s, x, p) && x.bucketId.Some? && requested >= 0
    ensures var t := Revoke(s, x.userId, x.bucketId.value, requested, p);
            && PaymentInv(t, x, p)
            && BucketsCarry(s.buckets, t.buckets, x.bucketId)
  {
    var b := x.bucketId.value;
    assert BucketInv(s, b);
    var revoke := Revocable(s.buckets[b], requested);
    RevokeFunds(x.userId, b, p, revoke, requested);
    RevokeGrantsNothing(x.userId, b, p, revoke, requested);
    RevokeGivesNothing(x.userId, b, p, revoke, requested);
    var es := RevokeEntries(x.userId, b, p, revoke, requested);
    SumAppend(s.ledger, es, GrantsOf(p));
    SumAppend(s.ledger, es, GrantedTo(p));
    SumAppend(s.ledger, es, FundedBy(p));
  }

  function TakenEntry(userId: string, b: nat, p: nat, revoke: int): LedgerEntry {
    LedgerEntry(userId, Some(b), None, Some(p), BUCKET_REVOKED, -revoke)
  }

  function ShortEntry(userId: string, b: nat, p: nat): LedgerEntry { LedgerEntry(userId, Some(b), None, Some(p), ADJUSTMENT, 0) }

  lemma RevokeFunds(userId: string, b: nat, p: nat, revoke: int, requested: int)
    requires 0 <= revoke
    ensures Sum(RevokeEntries(userId, b, p, revoke, requested), FundedBy(p)) == -revoke
  {
    SumOfTwo(revoke > 0, TakenEntry(userId, b, p, revoke), revoke < requested, ShortEntry(userId, b, p), FundedBy(p));
  }

  lemma RevokeGrantsNothing(userId: string, b: nat, p: nat, revoke: int, requested: int)
    ensures Sum(RevokeEntries(userId, b, p, revoke, requested), GrantsOf(p)) == 0
  {
    SumOfTwo(revoke > 0, TakenEntry(userId, b, p, revoke), revoke < requested, ShortEntry(userId, b, p), GrantsOf(p));
  }

  lemma RevokeGivesNothing(userId: string, b: nat, p: nat, revoke: int, requested: int)
    ensures Sum(RevokeEntries(userId, b, p, revoke, requested), GrantedTo(p)) == 0
  {
    SumOfTwo(revoke > 0, TakenEntry(userId, b, p, revoke), revoke < requested, ShortEntry(userId, b, p), GrantedTo(p));
  }

  lemma RevokeEntriesName(userId: string, b: nat, p: nat, revoke: int, requested: int)
    ensures var es := RevokeEntries(userId, b, p, revoke, requested);
            forall e :: 0 <= e < |es| ==> es[e].paymentId == Some(p) && es[e].reservationId.None?
  {}

  lemma SourcesCarry(before: seq<Bucket>, after: seq<Bucket>, except: Option<nat>, ps: seq<Payment>)
    requires SourcesKnown(before, ps) && BucketsCarry(before, after, except) && |after| == |before|
    ensures SourcesKnown(after, ps)
  {}

  lemma CancelKeepsOneActive(subs: seq<Subscription>, id: Option<nat>, userId: string)
    requires OneActive(subs)
    ensures OneActive(CancelSubscription(subs, id, userId))
  {}

  lemma RefundKeepsInv(a: Accounts, p: nat, e: PaymentEvent)
    requires AccountsInv(a) && p < |a.payments|
    requires Refund(a, p, e).Ok?
    ensures AccountsInv(Refund(a, p, e).value.0)
  {
    var x, t := a.payments[p], Refund(a, p, e).value.0;
    assert PaymentInv(a.books, x, p);
    if e.eventType == PaymentPartiallyRefunded && x.kind == SubscriptionPayment {
      NotedStatusChanges(a, p, t.payments[p]);
    } else {
      RevokedKeepsInv(a, p, RevokeGrant(x, e).value, t);
    }
  }

  lemma RevokedKeepsInv(a: Accounts, p: nat, requested: int, t: Accounts)
    requires AccountsInv(a) && p < |a.payments| == |t.payments| && requested >= 0
    requires t.payments == a.payments[p := t.payments[p]]
    requires t.payments[p] == a.payments[p].(status := t.payments[p].status, providerStatus := t.payments[p].providerStatus)
    requires t.payments[p].status == REFUNDED || t.payments[p].status == PARTIALLY_REFUNDED
    requires t.books == if a.payments[p].bucketId.Some? && a.payments[p].bucketId.value < |a.books.buckets|
                        then Revoke(a.books, a.payments[p].userId, a.payments[p].bucketId.value, requested, p) else a.books
    requires t.subscriptions == a.subscriptions ||
             t.subscriptions == CancelSubscription(a.subscriptions, a.payments[p].subscriptionId, a.payments[p].userId)
    ensures AccountsInv(t)
  {
    var x := a.payments[p];
    assert PaymentInv(a.books, x, p);
    SameKeys(a.payments, p, t.payments[p], t.payments);
    CancelKeepsOneActive(a.subscriptions, x.subscriptionId, x.userId);
    if x.bucketId.Some? {
      var b := x.bucketId.value;
      RevokeKeepsInv(a.books, x.userId, b, requested, p);
      RevokeTakesBack(a.books, x, p, requested);
      SourcesCarry(a.books.buckets, t.books.buckets, x.bucketId, t.payments);
      assert BucketInv(a.books, b);
      RevokeEntriesName(x.userId, b, p, Revocable(a.books.buckets[b], requested), requested);
      OnePaymentChanges(a, t, p, RevokeEntries(x.userId, b, p, Revocable(a.books.buckets[b], requested), requested));
    } else {
      assert t.books.ledger == a.books.ledger + [];
      OnePaymentChanges(a, t, p, []);
    }
  }

  // ---- Whole transactions ----

  lemma FollowStatusKeepsInv(a: Accounts, p: nat, e: PaymentEvent, m: MoneyEvent)
    requires AccountsInv(a) && p < |a.payments| && m in {Failed, Canceled, Pending}
    ensures AccountsInv(FollowStatus(a, p, e, m).0)
  {
    var x, t := a.payments[p], FollowStatus(a, p, e, m).0;
    assert PaymentInv(a.books, x, p);
    if t != a { StatusChanges(a, p, t.payments[p]); }
  }

  lemma HandleKeepsInv(a: Accounts, p: nat, e: PaymentEvent, now: int, defaultDays: int)
    requires AccountsInv(a) && p < |a.payments| && Handle(a, p, e, now, defaultDays).Ok?
    ensures AccountsInv(Handle(a, p, e, now, defaultDays).value.0)
  {
    var x := a.payments[p];
    assert PaymentInv(a.books, x, p);
    if (Truthy(e.providerPaymentId) && Truthy(x.providerPaymentId) && e.providerPaymentId != x.providerPaymentId)
       || (e.amount.Some? && e.amount.value != x.amount) {
      StatusChanges(a, p, Mismatched(a, p, e).0.payments[p]);
    } else {
      match MoneyEventOf(e)
      case Confirmed => ConfirmKeepsInv(a, p, e, now, defaultDays);
      case Refunded => RefundKeepsInv(a, p, e);
      case PartiallyRefunded => RefundKeepsInv(a, p, e);
      case Ignore => if e.eventType == PaymentChargeback { NotedStatusChanges(a, p, Chargeback(a, p, e).0.payments[p]); }
      case m => FollowStatusKeepsInv(a, p, e, m);
    }
  }

  lemma ProcessKeepsInv(a: Accounts, e: PaymentEvent, now: int, defaultDays: int)
    requires AccountsInv(a)
    ensures AccountsInv(ProcessPaymentEvent(a, e, now, defaultDays).0)
  {
    var p := LockPaymentId(a.payments, e);
    if p.Some? && (e.provider, e.eventId) !in a.events && Handle(Recorded(a, e), p.value, e, now, defaultDays).Ok? {
      assert AccountsInv(Recorded(a, e));
      HandleKeepsInv(Recorded(a, e), p.value, e, now, defaultDays);
    }
  }
}
