/** What runs of payment events, reservations and checkouts promise about every payment. */
module PaymentsLaws {
  import opened Basics
  import opened Allocation
  import opened Books
  import opened BooksInvariant
  import opened BooksLaws
  import opened Payments
  import opened PaymentsInvariant

  datatype AccountStep =
    | UseBooks(step: Step)
    | ProcessEvent(event: PaymentEvent, now: int, defaultDays: int)
    | AttachCheckout(paymentId: nat, userId: string, providerPaymentId: string, providerStatus: Option<string>)

  /** A checkout is attached to a payment of this user that was already granted. */
  predicate Reattaches(a: Accounts, p: nat, userId: string) {
    p < |a.payments| && a.payments[p].userId == userId && a.payments[p].bucketId.Some?
  }

  ghost predicate LegalStep(a: Accounts, step: AccountStep) {
    match step
    case UseBooks(s) => (s.ReserveStep? || s.SettleStep? || s.ReleaseStep?) && Legal(a.books, s)
    case ProcessEvent(_, _, _) => true
    case AttachCheckout(p, userId, _, _) => !Reattaches(a, p, userId)
  }

  ghost function ApplyStep(a: Accounts, step: AccountStep): Accounts
    requires LegalStep(a, step)
  {
    match step
    case UseBooks(s) => a.(books := Apply(a.books, s))
    case ProcessEvent(e, now, days) => ProcessPaymentEvent(a, e, now, days).0
    case AttachCheckout(p, userId, id, status) => AttachProviderCheckout(a, p, userId, id, status).0
  }

  ghost predicate LegalSteps(a: Accounts, steps: seq<AccountStep>)
    decreases |steps|
  {
    steps == [] || (LegalStep(a, steps[0]) && LegalSteps(ApplyStep(a, steps[0]), steps[1..]))
  }

  ghost function RunSteps(a: Accounts, steps: seq<AccountStep>): Accounts
    requires LegalSteps(a, steps)
    decreases |steps|
  {
    if steps == [] then a else RunSteps(ApplyStep(a, steps[0]), steps[1..])
  }

  // ---- Using the books leaves payments alone ----

  ghost predicate QuietBooks(s: Books, t: Books, es: seq<LedgerEntry>) {
    && t.ledger == s.ledger + es && (forall e :: 0 <= e < |es| ==> es[e].paymentId.None? && es[e].kind != BUCKET_REVOKED)
    && |t.buckets| == |s.buckets| && BucketsCarry(s.buckets, t.buckets, None)
  }

  lemma ReserveIsQuiet(s: Books, userId: string, requestId: string, estimated: int, shares: seq<Share>)
    ensures QuietBooks(s, Reserved(s, userId, requestId, estimated, shares), CreatedEntries(userId, |s.reservations|, shares))
  {}

  lemma CloseIsQuiet(s: Books, rid: nat, cover: Cover, order: seq<nat>)
    requires rid < |s.reservations|
    ensures var r := s.reservations[rid];
            QuietBooks(s, Close(s, rid, cover, order), SettledEntries(r.userId, rid, ClosedRows(r, cover, order)))
  {
    SettledEntriesName(s.reservations[rid].userId, rid, ClosedRows(s.reservations[rid], cover, order));
  }

  lemma ReleaseIsQuiet(s: Books, userId: string, rid: nat)
    requires Owns(s, userId, rid) && s.reservations[rid].status == ACTIVE
    ensures QuietBooks(s, Release(s, userId, rid).0, ReleasedEntries(userId, rid, s.reservations[rid].rows))
  {}

  lemma UsingBooksIsQuiet(s: Books, step: Step) returns (es: seq<LedgerEntry>)
    requires Legal(s, step) && (step.ReserveStep? || step.SettleStep? || step.ReleaseStep?)
    ensures QuietBooks(s, Apply(s, step), es)
  {
    es := [];
    if Apply(s, step) == s {
      assert s.ledger == s.ledger + es;
    } else {
      match step
      case ReserveStep(u, q, e, _, order) =>
        var shares := Plan(Rows(s.buckets, order), e).value;
        ReserveIsQuiet(s, u, q, e, shares);
        es := CreatedEntries(u, |s.reservations|, shares);
      case SettleStep(u, rid, actual, _, order, now) =>
        var r := s.reservations[rid];
        var cover := CoverActual(Rows(s.buckets, order), r.estimated, actual, now);
        CloseIsQuiet(s, rid, cover, order);
        es := SettledEntries(r.userId, rid, ClosedRows(r, cover, order));
      case ReleaseStep(u, rid) =>
        ReleaseIsQuiet(s, u, rid);
        es := ReleasedEntries(u, rid, s.reservations[rid].rows);
    }
  }

  lemma QuietBooksKeepPayments(a: Accounts, t: Books, es: seq<LedgerEntry>)
    requires AccountsInv(a) && Inv(t) && QuietBooks(a.books, t, es)
    ensures AccountsInv(a.(books := t))
  {
    forall p | 0 <= p < |a.payments| ensures PaymentInv(t, a.payments[p], p) {
      PaymentCarries(a.books, t, a.payments[p], p, es, None);
    }
    SourcesCarry(a.books.buckets, t.buckets, None, a.payments);
  }

  lemma UseKeepsInv(a: Accounts, step: Step)
    requires AccountsInv(a) && Legal(a.books, step) && (step.ReserveStep? || step.SettleStep? || step.ReleaseStep?)
    ensures AccountsInv(a.(books := Apply(a.books, step)))
  {
    StepKeepsInv(a.books, step);
    var es := UsingBooksIsQuiet(a.books, step);
    QuietBooksKeepPayments(a, Apply(a.books, step), es);
  }

  // ---- Attaching a checkout ----

  lemma AttachedKeys(ps: seq<Payment>, p: nat, x: Payment, qs: seq<Payment>)
    requires p < |ps| && x.provider == ps[p].provider && x.orderId == ps[p].orderId && qs == ps[p := x]
    requires x.bucketId == ps[p].bucketId && !Clashes(ps, p, x.provider, x.providerPaymentId)
    ensures UniqueKeys(ps) ==> UniqueKeys(qs)
    ensures DistinctGrants(ps) ==> DistinctGrants(qs)
    ensures forall buckets :: SourcesKnown(buckets, ps) ==> SourcesKnown(buckets, qs)
  {
    forall buckets | SourcesKnown(buckets, ps) ensures SourcesKnown(buckets, qs) {}
  }

  /** Attaching a checkout is sound exactly when it does not hit a granted payment. */
  lemma AttachKeepsInvIff(a: Accounts, p: nat, userId: string, id: string, status: Option<string>)
    requires AccountsInv(a)
    ensures var (t, r) := AttachProviderCheckout(a, p, userId, id, status);
            AccountsInv(t) <==> r.Err? || !Reattaches(a, p, userId)
  {
    var (t, r) := AttachProviderCheckout(a, p, userId, id, status);
    if r.Ok? {
      var x := t.payments[p];
      assert PaymentInv(a.books, a.payments[p], p);
      if x.bucketId.Some? {
        assert !PaymentInv(t.books, t.payments[p], p);
      } else {
        AttachedKeys(a.payments, p, x, t.payments);
        assert t.books.ledger == a.books.ledger + [];
        OnePaymentChanges(a, t, p, []);
      }
    }
  }

  // ---- Runs ----

  lemma StepKeepsAccounts(a: Accounts, step: AccountStep)
    requires AccountsInv(a) && LegalStep(a, step)
    ensures AccountsInv(ApplyStep(a, step))
  {
    match step
    case UseBooks(s) => UseKeepsInv(a, s);
    case ProcessEvent(e, now, days) => ProcessKeepsInv(a, e, now, days);
    case AttachCheckout(p, userId, id, status) => AttachKeepsInvIff(a, p, userId, id, status);
  }

  /** Every run keeps accounts consistent: each payment is granted at most once, for its snapshot's amount. */
  lemma {:induction false} RunKeepsAccounts(a: Accounts, steps: seq<AccountStep>)
    requires AccountsInv(a) && LegalSteps(a, steps)
    ensures AccountsInv(RunSteps(a, steps))
    decreases |steps|
  {
    if steps != [] {
      StepKeepsAccounts(a, steps[0]);
      RunKeepsAccounts(ApplyStep(a, steps[0]), steps[1..]);
    }
  }

  /** Refunds never take back more than was granted and neither used nor held. */
  lemma RefundsStayWithinGrant(a: Accounts, p: nat)
    requires AccountsInv(a) && p < |a.payments| && a.payments[p].bucketId.Some?
    ensures var b := a.payments[p].bucketId.value;
            && b < |a.books.buckets|
            && Sum(a.books.ledger, GrantedTo(p)) - Sum(a.books.ledger, FundedBy(p))
               <= a.payments[p].snapshot.grant - a.books.buckets[b].spent - a.books.buckets[b].reserved
  {
    assert PaymentInv(a.books, a.payments[p], p);
    assert BucketInv(a.books, a.payments[p].bucketId.value);
  }

  // ---- What never changes back ----

  predicate Opened(x: Payment) { x.status == CREATED || x.status == PENDING }

  /** A payment keeps its terms, a grant stays where it is, and a status that left CREATED and PENDING never returns. */
  ghost predicate Progresses(x: Payment, y: Payment) {
    && y.userId == x.userId && y.kind == x.kind && y.amount == x.amount && y.snapshot == x.snapshot
    && (x.bucketId.Some? ==> y.bucketId == x.bucketId && y.subscriptionId == x.subscriptionId)
    && (!Opened(x) ==> !Opened(y) && y.bucketId == x.bucketId)
  }

  ghost predicate OnlyProgresses(a: Accounts, t: Accounts, p: nat) {
    && p < |a.payments| == |t.payments| && t.payments == a.payments[p := t.payments[p]]
    && Progresses(a.payments[p], t.payments[p])
  }

  lemma ConfirmProgresses(a: Accounts, p: nat, e: PaymentEvent, now: int, defaultDays: int)
    requires p < |a.payments| && PaymentInv(a.books, a.payments[p], p) && Confirm(a, p, e, now, defaultDays).Ok?
    ensures OnlyProgresses(a, Confirm(a, p, e, now, defaultDays).value.0, p)
  {}

  lemma RefundProgresses(a: Accounts, p: nat, e: PaymentEvent)
    requires p < |a.payments| && Refund(a, p, e).Ok?
    ensures OnlyProgresses(a, Refund(a, p, e).value.0, p)
  {}

  lemma FollowStatusProgresses(a: Accounts, p: nat, e: PaymentEvent, m: MoneyEvent)
    requires p < |a.payments| && m in {Failed, Canceled, Pending}
    ensures OnlyProgresses(a, FollowStatus(a, p, e, m).0, p)
  {}

  lemma HandleProgresses(a: Accounts, p: nat, e: PaymentEvent, now: int, defaultDays: int)
    requires p < |a.payments| && PaymentInv(a.books, a.payments[p], p) && Handle(a, p, e, now, defaultDays).Ok?
    ensures OnlyProgresses(a, Handle(a, p, e, now, defaultDays).value.0, p)
  {
    match MoneyEventOf(e)
    case Confirmed => if Confirm(a, p, e, now, defaultDays).Ok? { ConfirmProgresses(a, p, e, now, defaultDays); }
    case Refunded => if Refund(a, p, e).Ok? { RefundProgresses(a, p, e); }
    case PartiallyRefunded => if Refund(a, p, e).Ok? { RefundProgresses(a, p, e); }
    case Ignore =>
    case m => FollowStatusProgresses(a, p, e, m);
  }

  lemma StepProgresses(a: Accounts, step: AccountStep, p: nat)
    requires AccountsInv(a) && LegalStep(a, step) && !step.AttachCheckout? && p < |a.payments|
    ensures |ApplyStep(a, step).payments| == |a.payments| && Progresses(a.payments[p], ApplyStep(a, step).payments[p])
  {
    if step.ProcessEvent? {
      var e, q := step.event, LockPaymentId(a.payments, step.event);
      if q.Some? && (e.provider, e.eventId) !in a.events && Handle(Recorded(a, e), q.value, e, step.now, step.defaultDays).Ok? {
        assert AccountsInv(Recorded(a, e));
        HandleProgresses(Recorded(a, e), q.value, e, step.now, step.defaultDays);
      }
    }
  }

  /** Over every run of events, duplicated and reordered as they may be, every payment only progresses. */
  lemma {:induction false} RunProgresses(a: Accounts, steps: seq<AccountStep>, p: nat)
    requires AccountsInv(a) && LegalSteps(a, steps) && p < |a.payments|
    requires forall i :: 0 <= i < |steps| ==> !steps[i].AttachCheckout?
    ensures |RunSteps(a, steps).payments| == |a.payments| && Progresses(a.payments[p], RunSteps(a, steps).payments[p])
    decreases |steps|
  {
    if steps != [] {
      StepKeepsAccounts(a, steps[0]);
      StepProgresses(a, steps[0], p);
      RunProgresses(ApplyStep(a, steps[0]), steps[1..], p);
    }
  }

  // ---- Duplicates ----

  lemma {:induction false} EventsAreKept(a: Accounts, steps: seq<AccountStep>)
    requires LegalSteps(a, steps)
    ensures a.events <= RunSteps(a, steps).events
    decreases |steps|
  {
    if steps != [] {
      HandleRecords(a, steps[0]);
      EventsAreKept(ApplyStep(a, steps[0]), steps[1..]);
    }
  }

  lemma HandleRecords(a: Accounts, step: AccountStep)
    requires LegalStep(a, step)
    ensures a.events <= ApplyStep(a, step).events
  {}

  lemma KnownEventChangesNothing(a: Accounts, e: PaymentEvent, now: int, days: int)
    requires (e.provider, e.eventId) in a.events
    ensures ProcessPaymentEvent(a, e, now, days).0 == a
    ensures ProcessPaymentEvent(a, e, now, days).1.Ok? ==> ProcessPaymentEvent(a, e, now, days).1.value.duplicate
  {}

  lemma ProcessedIsKnown(a: Accounts, e: PaymentEvent, now: int, days: int)
    requires ProcessPaymentEvent(a, e, now, days).1.Ok?
    ensures (e.provider, e.eventId) in ProcessPaymentEvent(a, e, now, days).0.events
  {}

  /** Once an event went through, delivering its key again changes nothing, however much happened in between. */
  lemma DuplicateChangesNothing(a: Accounts, e: PaymentEvent, now: int, days: int, steps: seq<AccountStep>,
                                again: PaymentEvent, later: int, laterDays: int)
    requires ProcessPaymentEvent(a, e, now, days).1.Ok?
    requires LegalSteps(ProcessPaymentEvent(a, e, now, days).0, steps)
    requires again.provider == e.provider && again.eventId == e.eventId
    ensures var t := RunSteps(ProcessPaymentEvent(a, e, now, days).0, steps);
            var (u, r) := ProcessPaymentEvent(t, again, later, laterDays);
            u == t && (r.Ok? ==> r.value.duplicate)
  {
    ProcessedIsKnown(a, e, now, days);
    EventsAreKept(ProcessPaymentEvent(a, e, now, days).0, steps);
    KnownEventChangesNothing(RunSteps(ProcessPaymentEvent(a, e, now, days).0, steps), again, later, laterDays);
  }

  // ---- Where a second grant is possible ----

  /** What lets a reattached payment be granted again; the unique source stops every top-up. */
  predicate CanGrantAgain(a: Accounts, x: Payment) {
    && x.kind == SubscriptionPayment && x.snapshot.customerAmount == x.amount
    && Truthy(Coalesce(x.snapshot.planVersionId, x.planVersionId)) && !HasActive(a.subscriptions, x.userId)
  }

  ghost predicate Confirms(a: Accounts, x: Payment, id: string, e: PaymentEvent) {
    && MoneyEventOf(e) == Confirmed && (e.provider, e.eventId) !in a.events
    && e.provider == x.provider && e.providerPaymentId == Some(id) && id != ""
    && (e.amount.Some? ==> e.amount.value == x.amount)
  }

  /**
   * attachProviderCheckout on a granted payment makes it grantable: the next confirmation grants it
   * a second time exactly when it buys a subscription and the user has none active.
   */
  lemma ReattachedPaymentIsGrantedAgain(a: Accounts, p: nat, id: string, status: Option<string>, e: PaymentEvent, now: int, days: int)
    requires AccountsInv(a) && p < |a.payments| && a.payments[p].bucketId.Some?
    requires !Clashes(a.payments, p, a.payments[p].provider, Some(id)) && Confirms(a, a.payments[p], id, e)
    ensures var t := AttachProviderCheckout(a, p, a.payments[p].userId, id, status).0;
            Sum(ProcessPaymentEvent(t, e, now, days).0.books.ledger, GrantsOf(p)) == if CanGrantAgain(a, a.payments[p]) then 2 else 1
  {
    var x := a.payments[p];
    assert PaymentInv(a.books, x, p);
    var t := AttachProviderCheckout(a, p, x.userId, id, status).0;
    assert t.payments[p] == x.(providerPaymentId := Some(id), providerStatus := Coalesce(status, x.providerStatus), status := PENDING);
    assert t.books == a.books && t.subscriptions == a.subscriptions && t.events == a.events;
    assert ByProviderId(t.payments, e.provider, id) == Some(p);
    assert LockPaymentId(t.payments, e) == Some(p);
    SecondGrant(Recorded(t, e), p, e, now, days);
  }

  lemma SecondGrant(t: Accounts, p: nat, e: PaymentEvent, now: int, days: int)
    requires p < |t.payments| && t.payments[p].status == PENDING && t.payments[p].bucketId.Some?
    requires t.payments[p].bucketId.value < |t.books.buckets|
    requires t.payments[p].kind == TopupPayment ==> t.books.buckets[t.payments[p].bucketId.value].source == FromPayment(p)
    requires e.providerPaymentId == t.payments[p].providerPaymentId && !Clashes(t.payments, p, t.payments[p].provider, e.providerPaymentId)
    requires e.providerPaymentId.Some? && MoneyEventOf(e) == Confirmed && (e.amount.Some? ==> e.amount.value == t.payments[p].amount)
    ensures var r := Handle(t, p, e, now, days);
            if CanGrantAgain(t, t.payments[p])
            then r.Ok? && Sum(r.value.0.books.ledger, GrantsOf(p)) == Sum(t.books.ledger, GrantsOf(p)) + 1
            else r.Err?
  {
    if CanGrantAgain(t, t.payments[p]) {
      var after := Handle(t, p, e, now, days).value.0;
      SumLast(t.books.ledger, after.books.ledger[|t.books.ledger|], GrantsOf(p));
    }
  }
}
