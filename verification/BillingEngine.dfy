/**
 * The usage operations of packages/billing/src/billing-engine.ts as they run: each transaction
 * updates bucket, reservation and ledger rows one after the other. Every method is proved to
 * leave exactly the books its function in module Books describes.
 */
module BillingEngine {
  import opened Basics
  import opened Allocation
  import opened Books
  import opened BooksInvariant
  import opened BooksLaws
  import opened Payments
  import opened PaymentsInvariant
  import opened PaymentsLaws

  // ---- One more row posted ----

  lemma PostShare(before: seq<Bucket>, shares: seq<Share>, k: nat)
    requires k < |shares| && shares[k].bucketId < |before|
    ensures var mid, b := Post(before, SharesFor(shares[..k]), Nothing()), shares[k].bucketId;
            Post(before, SharesFor(shares[..k + 1]), Nothing()) == mid[b := mid[b].(reserved := mid[b].reserved + shares[k].reserved)]
  {
    forall c | 0 <= c < |before|
      ensures ShareOf(shares[..k + 1], c) == ShareOf(shares[..k], c) + OneBucket(c)(shares[k])
    {
      SumTake(shares, k, OneBucket(c));
    }
  }

  lemma CreatedOneMore(userId: string, rid: nat, shares: seq<Share>, k: nat)
    requires k < |shares|
    ensures CreatedEntries(userId, rid, shares[..k + 1]) == CreatedEntries(userId, rid, shares[..k])
            + [LedgerEntry(userId, Some(shares[k].bucketId), Some(rid), None, RESERVATION_CREATED, 0)]
  {}

  lemma SettledOneMore(userId: string, rid: nat, rows: seq<AllocationRow>, k: nat)
    requires k < |rows|
    ensures SettledEntries(userId, rid, rows[..k + 1]) == SettledEntries(userId, rid, rows[..k]) + RowEntries(userId, rid, rows[k])
  {
    assert rows[..k + 1][..k] == rows[..k];
  }

  lemma PostRow(before: seq<Bucket>, held: seq<AllocationRow>, charged: seq<AllocationRow>, k: nat)
    requires k < |held| == |charged| && held[k].bucketId == charged[k].bucketId < |before|
    ensures var mid, b := Post(before, Unheld(held[..k]), Charges(charged[..k])), held[k].bucketId;
            Post(before, Unheld(held[..k + 1]), Charges(charged[..k + 1])) ==
            mid[b := mid[b].(reserved := mid[b].reserved - held[k].reserved, spent := mid[b].spent + charged[k].settled)]
  {
    forall c | 0 <= c < |before|
      ensures Sum(held[..k + 1], HeldOn(c)) == Sum(held[..k], HeldOn(c)) + HeldOn(c)(held[k])
      ensures Sum(charged[..k + 1], ChargedOn(c)) == Sum(charged[..k], ChargedOn(c)) + ChargedOn(c)(charged[k])
    {
      SumTake(held, k, HeldOn(c));
      SumTake(charged, k, ChargedOn(c));
    }
  }

  lemma PostNothing(buckets: seq<Bucket>, held: nat -> int, charged: nat -> int)
    requires forall b :: held(b) == 0 && charged(b) == 0
    ensures Post(buckets, held, charged) == buckets
  {}

  lemma PostTwice(before: seq<Bucket>, held1: nat -> int, held2: nat -> int, held: nat -> int, charged: nat -> int)
    requires forall b :: 0 <= b < |before| ==> held(b) == held1(b) + held2(b)
    ensures Post(Post(before, held1, Nothing()), held2, charged) == Post(before, held, charged)
  {}

  /** What is left of the charge after the first k rows. */
  function ToSettle(rows: seq<AllocationRow>, amount: int, k: nat): int
    requires k <= |rows|
  {
    Max(0, amount - Sum(rows[..k], RowHold()))
  }

  lemma ChargeStep(rows: seq<AllocationRow>, amount: int, k: nat)
    requires k < |rows| && rows[k].reserved > 0
    ensures Charge(rows, amount, k) == Min(ToSettle(rows, amount, k), rows[k].reserved)
    ensures ToSettle(rows, amount, k + 1) == ToSettle(rows, amount, k) - Charge(rows, amount, k)
    ensures Settled(rows, amount)[..k + 1] == Settled(rows, amount)[..k] + [rows[k].(settled := Charge(rows, amount, k))]
    ensures Settled(rows, amount)[k] == rows[k].(settled := Charge(rows, amount, k))
  {
    SumTake(rows, k, RowHold());
  }

  /** Buckets, ledger and settled rows in the middle of settling. */
  datatype Progress = Progress(buckets: seq<Bucket>, ledger: seq<LedgerEntry>, rows: seq<AllocationRow>, left: int)

  /** What the first k rows of a settlement leave behind. */
  ghost function AfterRows(p: Progress, userId: string, rid: nat, rows: seq<AllocationRow>, amount: int, k: nat): Progress
    requires k <= |rows|
  {
    var done := Settled(rows, amount)[..k];
    Progress(Post(p.buckets, Unheld(rows[..k]), Charges(done)), p.ledger + SettledEntries(userId, rid, done), done, ToSettle(rows, amount, k))
  }

  /** One row settled by this much. */
  function RowSettled(p: Progress, userId: string, rid: nat, row: AllocationRow, charge: int): Progress
    requires row.bucketId < |p.buckets|
  {
    var b := row.bucketId;
    Progress(p.buckets[b := p.buckets[b].(reserved := p.buckets[b].reserved - row.reserved, spent := p.buckets[b].spent + charge)],
             p.ledger + RowEntries(userId, rid, row.(settled := charge)), p.rows + [row.(settled := charge)], p.left - charge)
  }

  lemma SettleOneRow(p: Progress, userId: string, rid: nat, rows: seq<AllocationRow>, amount: int, k: nat)
    requires k < |rows| && rows[k].reserved > 0 && rows[k].bucketId < |p.buckets|
    ensures var before := AfterRows(p, userId, rid, rows, amount, k);
            && rows[k].bucketId < |before.buckets|
            && AfterRows(p, userId, rid, rows, amount, k + 1)
               == RowSettled(before, userId, rid, rows[k], Min(before.left, rows[k].reserved))
  {
    ChargeStep(rows, amount, k);
    PostRow(p.buckets, rows, Settled(rows, amount), k);
    SettledOneMore(userId, rid, Settled(rows, amount), k);
  }

  lemma SettleNoRow(p: Progress, userId: string, rid: nat, rows: seq<AllocationRow>, amount: int)
    requires amount >= 0
    ensures AfterRows(p, userId, rid, rows, amount, 0) == Progress(p.buckets, p.ledger, [], amount)
  {
    var done := Settled(rows, amount)[..0];
    PostNothing(p.buckets, Unheld(rows[..0]), Charges(done));
    assert p.ledger + [] == p.ledger;
  }

  lemma SettleAllRows(p: Progress, userId: string, rid: nat, rows: seq<AllocationRow>, amount: int)
    ensures var after, done := AfterRows(p, userId, rid, rows, amount, |rows|), Settled(rows, amount);
            && after.rows == done && after.buckets == Post(p.buckets, Unheld(rows), Charges(done))
            && after.ledger == p.ledger + SettledEntries(userId, rid, done)
  {
    assert Settled(rows, amount)[..|rows|] == Settled(rows, amount) && rows[..|rows|] == rows;
  }

  /** Extra holds that are drawn and then closed leave no trace in a bucket's hold. */
  lemma ExtraHoldsCancel(before: seq<Bucket>, r: Reservation, extra: seq<Share>, order: seq<nat>, b: nat)
    requires ReservationInv(before, r) && r.status == ACTIVE
    requires forall x :: x in extra ==> x.reserved > 0 && x.bucketId < |before| && before[x.bucketId].userId == r.userId
    ensures Unheld(r.rows)(b) == SharesFor(extra)(b) + Unheld(ExtendAll(OrderAllocations(r.rows, order), extra))(b)
  {
    var ordered := OrderAllocations(r.rows, order);
    OrderingKeepsRows(before, r.userId, r.rows, order);
    assert Unsettled(ordered) by {
      forall k | 0 <= k < |ordered| ensures ordered[k].settled == 0 { assert ordered[k] in multiset(r.rows); }
    }
    ExtendAllKeepsRows(before, r.userId, ordered, extra, b);
  }

  /** What drawing the extra shares and settling the rows one by one leaves behind. */
  ghost function ClosedInSteps(s: Books, rid: nat, cover: Cover, open: seq<AllocationRow>): Books
    requires rid < |s.reservations|
  {
    var r, rows := s.reservations[rid], Settled(open, cover.charged);
    Books(Post(Post(s.buckets, SharesFor(cover.extra), Nothing()), Unheld(open), Charges(rows)),
          s.reservations[rid := Closed(r, cover, rows)],
          s.ledger + SettledEntries(r.userId, rid, rows))
  }

  lemma OpenRowsAreSound(s: Books, r: Reservation, cover: Cover, order: seq<nat>, open: seq<AllocationRow>)
    requires ReservationInv(s.buckets, r) && r.status == ACTIVE && Covers(s, r, cover)
    requires open == ExtendAll(OrderAllocations(r.rows, order), cover.extra)
    ensures forall k :: 0 <= k < |open| ==> open[k].bucketId < |s.buckets| && open[k].reserved > 0
  {
    ClosedRowsAreSound(s, r, cover, order, 0);
    forall k | 0 <= k < |open| ensures open[k].bucketId < |s.buckets| && open[k].reserved > 0 {
      assert RowInv(s.buckets, r.userId, Settled(open, cover.charged)[k]);
    }
  }

  lemma StepsClose(s: Books, rid: nat, cover: Cover, order: seq<nat>, open: seq<AllocationRow>)
    requires rid < |s.reservations| && ReservationInv(s.buckets, s.reservations[rid])
    requires s.reservations[rid].status == ACTIVE && Covers(s, s.reservations[rid], cover)
    requires open == ExtendAll(OrderAllocations(s.reservations[rid].rows, order), cover.extra)
    ensures Close(s, rid, cover, order) == ClosedInSteps(s, rid, cover, open)
  {
    var r := s.reservations[rid];
    forall b | 0 <= b < |s.buckets|
      ensures Unheld(r.rows)(b) == SharesFor(cover.extra)(b) + Unheld(open)(b)
    {
      ExtraHoldsCancel(s.buckets, r, cover.extra, order, b);
    }
    PostTwice(s.buckets, SharesFor(cover.extra), Unheld(open), Unheld(r.rows), Charges(Settled(open, cover.charged)));
  }

  ghost predicate InRange(plan: Option<seq<Share>>, n: nat) { plan.Some? ==> forall x :: x in plan.value ==> x.bucketId < n }

  lemma PlanInRange(s: Books, userId: string, estimated: int, now: int, order: seq<nat>)
    requires Inv(s) && IsLockOrder(s, userId, {}, now, order)
    ensures InRange(Plan(Rows(s.buckets, order), estimated), |s.buckets|)
  {
    if Plan(Rows(s.buckets, order), estimated).Some? {
      LockedRowsAreDistinct(s, userId, {}, now, order);
      PlanFits(s, userId, Rows(s.buckets, order), estimated);
    }
  }

  class BillingEngine {
    var buckets: seq<Bucket>
    var reservations: seq<Reservation>
    var ledger: seq<LedgerEntry>
    var payments: seq<Payment>
    var events: set<(string, string)>
    var subscriptions: seq<Subscription>

    ghost function State(): Books
      reads this
    {
      Books(buckets, reservations, ledger)
    }

    ghost function Tables(): Accounts
      reads this
    {
      Accounts(State(), payments, events, subscriptions)
    }

    ghost predicate Valid()
      reads this
    {
      AccountsInv(Tables())
    }

    constructor ()
      ensures Valid() && Tables() == Accounts(Books([], [], []), [], {}, [])
    {
      buckets, reservations, ledger := [], [], [];
      payments, events, subscriptions := [], {}, [];
    }

    method ReserveUsage(userId: string, requestId: string, estimated: int, ghost now: int, order: seq<nat>)
      returns (r: Result<nat, BillingError>)
      requires Valid() && IsLockOrder(State(), userId, {}, now, order)
      modifies this`buckets, this`reservations, this`ledger
      ensures Valid() && (State(), r) == Reserve(old(State()), userId, requestId, estimated, order)
    {
      UseKeepsInv(Tables(), ReserveStep(userId, requestId, estimated, now, order));
      PlanInRange(State(), userId, estimated, now, order);
      r := ReserveRows(userId, requestId, estimated, order);
    }

    method ReserveRows(userId: string, requestId: string, estimated: int, order: seq<nat>) returns (r: Result<nat, BillingError>)
      requires forall i :: 0 <= i < |order| ==> order[i] < |buckets|
      requires InRange(Plan(Rows(buckets, order), estimated), |buckets|)
      modifies this`buckets, this`reservations, this`ledger
      ensures (State(), r) == Reserve(old(State()), userId, requestId, estimated, order)
    {
      if estimated <= 0 { return Err(INSUFFICIENT_USAGE); }
      var existing := Find(reservations, userId, requestId);
      if existing.Some? {
        var found := reservations[existing.value];
        if found.status == ACTIVE && found.estimated == estimated { return Ok(existing.value); }
        return Err(RESERVATION_CONFLICT);
      }
      var plan := PlanReservationAllocations(Rows(buckets, order), estimated);
      if plan.None? { return Err(INSUFFICIENT_USAGE); }
      var allocations := plan.value;
      r := Ok(|reservations|);
      HoldShares(userId, |reservations|, allocations);
      reservations := reservations + [Reservation(userId, requestId, estimated, 0, ACTIVE, ToRows(allocations))];
    }

    /** The loop that holds the shares of a new reservation in their buckets. */
    method HoldShares(userId: string, rid: nat, allocations: seq<Share>)
      requires forall x :: x in allocations ==> x.bucketId < |buckets|
      modifies this`buckets, this`ledger
      ensures buckets == Post(old(buckets), SharesFor(allocations), Nothing())
      ensures ledger == old(ledger) + CreatedEntries(userId, rid, allocations)
    {
      PostNothing(buckets, SharesFor(allocations[..0]), Nothing());
      var k := 0;
      while k < |allocations|
        invariant 0 <= k <= |allocations|
        invariant buckets == Post(old(buckets), SharesFor(allocations[..k]), Nothing())
        invariant ledger == old(ledger) + CreatedEntries(userId, rid, allocations[..k])
      {
        var share := allocations[k];
        assert share in allocations;
        PostShare(old(buckets), allocations, k);
        CreatedOneMore(userId, rid, allocations, k);
        var b := share.bucketId;
        buckets := buckets[b := buckets[b].(reserved := buckets[b].reserved + share.reserved)];
        ledger := ledger + [LedgerEntry(userId, Some(b), Some(rid), None, RESERVATION_CREATED, 0)];
        k := k + 1;
      }
      assert allocations[..k] == allocations;
    }

    method SettleUsage(userId: string, rid: nat, actualCost: int, ghost lockNow: int, order: seq<nat>, now: int)
      returns (r: Result<nat, BillingError>)
      requires Valid()
      requires forall i :: 0 <= i < |order| ==> order[i] < |buckets|
      requires Owns(State(), userId, rid) ==> IsLockOrder(State(), userId, BucketIds(reservations[rid].rows), lockNow, order)
      modifies this`buckets, this`reservations, this`ledger
      ensures Valid() && (State(), r) == Settle(old(State()), userId, rid, actualCost, order, now)
    {
      UseKeepsInv(Tables(), SettleStep(userId, rid, actualCost, lockNow, order, now));
      if actualCost < 0 { return Err(FINANCIAL_OPERATION_FAILED); }
      if rid >= |reservations| || reservations[rid].userId != userId { return Err(RESERVATION_NOT_FOUND); }
      var reservation := reservations[rid];
      if reservation.status == SETTLED {
        if reservation.settled == actualCost { return Ok(rid); }
        return Err(RESERVATION_CONFLICT);
      }
      if reservation.status == RELEASED { return Err(RESERVATION_ALREADY_RELEASED); }
      if reservation.status == ANOMALY { return Err(RESERVATION_CONFLICT); }

      CloseReservation(rid, actualCost, lockNow, order, now);
      r := Ok(rid);
    }

    /** The part of a settlement that changes anything. */
    method CloseReservation(rid: nat, actualCost: int, ghost lockNow: int, order: seq<nat>, now: int)
      requires Inv(State()) && rid < |reservations| && reservations[rid].status == ACTIVE && actualCost >= 0
      requires IsLockOrder(State(), reservations[rid].userId, BucketIds(reservations[rid].rows), lockNow, order)
      modifies this`buckets, this`reservations, this`ledger
      ensures State() == Close(old(State()), rid,
                               CoverActual(Rows(old(buckets), order), old(reservations)[rid].estimated, actualCost, now), order)
    {
      var cover := MeetActual(rid, actualCost, order, now);
      CoverIsSound(State(), rid, actualCost, lockNow, order, now);
      CloseWith(rid, cover, order);
    }

    /** The reservation row after its allocations are closed. */
    method CloseWith(rid: nat, cover: Cover, order: seq<nat>)
      requires rid < |reservations| && reservations[rid].status == ACTIVE
      requires ReservationInv(buckets, reservations[rid]) && Covers(State(), reservations[rid], cover)
      modifies this`buckets, this`reservations, this`ledger
      ensures State() == Close(old(State()), rid, cover, order)
    {
      var reservation := reservations[rid];
      ghost var s := State();
      ghost var open := ExtendAll(OrderAllocations(reservation.rows, order), cover.extra);
      OpenRowsAreSound(s, reservation, cover, order, open);
      StepsClose(s, rid, cover, order, open);
      var rows := CloseRows(reservation.userId, rid, OrderAllocations(reservation.rows, order), cover);
      reservations := reservations[rid := Closed(reservation, cover, rows)];
    }

    /** The allocation rows of a closing reservation: drawn further, then charged and freed. */
    method CloseRows(userId: string, rid: nat, ordered: seq<AllocationRow>, cover: Cover) returns (rows: seq<AllocationRow>)
      requires cover.charged >= 0 && forall x :: x in cover.extra ==> x.bucketId < |buckets|
      requires var open := ExtendAll(ordered, cover.extra);
               forall k :: 0 <= k < |open| ==> open[k].bucketId < |buckets| && open[k].reserved > 0
      modifies this`buckets, this`ledger
      ensures rows == Settled(ExtendAll(ordered, cover.extra), cover.charged)
      ensures buckets == Post(Post(old(buckets), SharesFor(cover.extra), Nothing()), Unheld(ExtendAll(ordered, cover.extra)), Charges(rows))
      ensures ledger == old(ledger) + SettledEntries(userId, rid, rows)
    {
      var open := DrawExtra(ordered, cover.extra);
      rows := SettleRows(userId, rid, open, cover.charged);
    }

    /** How the actual cost is met: the charge, the extra shares to draw, and the anomaly flag. */
    method MeetActual(rid: nat, actualCost: int, order: seq<nat>, now: int) returns (cover: Cover)
      requires rid < |reservations| && forall i :: 0 <= i < |order| ==> order[i] < |buckets|
      ensures cover == CoverActual(Rows(buckets, order), reservations[rid].estimated, actualCost, now)
    {
      var estimated := reservations[rid].estimated;
      if actualCost <= estimated { return Cover(actualCost, [], false); }
      var spendable := SpendableBuckets(Rows(buckets, order), now);
      cover := MeetExtra(spendable, estimated, actualCost);
    }

    static method MeetExtra(spendable: seq<Bucket>, estimated: int, actualCost: int) returns (cover: Cover)
      ensures cover == CoverExtra(Plan(spendable, actualCost - estimated), estimated, actualCost)
    {
      var actual, anomaly, extraShares := actualCost, false, [];
      var extraPlan := PlanReservationAllocations(spendable, actualCost - estimated);
      if extraPlan.Some? {
        extraShares := extraPlan.value;
      } else {
        actual, anomaly := estimated, true;
      }
      cover := Cover(actual, extraShares, anomaly);
    }

    /** The loop that draws an over-settlement from further buckets. */
    method DrawExtra(allocations: seq<AllocationRow>, extraPlan: seq<Share>)
      returns (allocationOrder: seq<AllocationRow>)
      requires forall x :: x in extraPlan ==> x.bucketId < |buckets|
      modifies this`buckets
      ensures allocationOrder == ExtendAll(allocations, extraPlan)
      ensures buckets == Post(old(buckets), SharesFor(extraPlan), Nothing())
    {
      allocationOrder := allocations;
      PostNothing(buckets, SharesFor(extraPlan[..0]), Nothing());
      var k := 0;
      while k < |extraPlan|
        invariant 0 <= k <= |extraPlan|
        invariant allocationOrder == ExtendAll(allocations, extraPlan[..k])
        invariant buckets == Post(old(buckets), SharesFor(extraPlan[..k]), Nothing())
      {
        assert extraPlan[k] in extraPlan;
        PostShare(old(buckets), extraPlan, k);
        assert extraPlan[..k + 1][..k] == extraPlan[..k];
        allocationOrder := DrawShare(allocationOrder, extraPlan[k]);
        k := k + 1;
      }
      assert extraPlan[..k] == extraPlan;
    }

    /** One extra share: it is added to the row of its bucket, or becomes a new row. */
    method DrawShare(allocations: seq<AllocationRow>, share: Share) returns (rows: seq<AllocationRow>)
      requires share.bucketId < |buckets|
      modifies this`buckets
      ensures rows == Extend(allocations, share)
      ensures var b := share.bucketId;
              buckets == old(buckets)[b := old(buckets)[b].(reserved := old(buckets)[b].reserved + share.reserved)]
    {
      var existing, b := RowOf(allocations, share.bucketId), share.bucketId;
      if existing < |allocations| {
        rows := allocations[existing := allocations[existing].(reserved := allocations[existing].reserved + share.reserved)];
      } else {
        rows := allocations + [AllocationRow(b, share.reserved, 0)];
      }
      buckets := buckets[b := buckets[b].(reserved := buckets[b].reserved + share.reserved)];
    }

    /** One allocation: its hold leaves the bucket, its charge is spent, and both are posted. */
    method SettleRow(userId: string, rid: nat, allocation: AllocationRow, settleAmount: int,
                     ghost rows: seq<AllocationRow>, ghost left: int)
      requires allocation.bucketId < |buckets|
      modifies this`buckets, this`ledger
      ensures Progress(buckets, ledger, rows + [allocation.(settled := settleAmount)], left - settleAmount)
              == RowSettled(Progress(old(buckets), old(ledger), rows, left), userId, rid, allocation, settleAmount)
    {
      var b, releaseAmount := allocation.bucketId, allocation.reserved - settleAmount;
      buckets := buckets[b := buckets[b].(reserved := buckets[b].reserved - allocation.reserved,
                                          spent := buckets[b].spent + settleAmount)];
      if settleAmount > 0 {
        ledger := ledger + [LedgerEntry(userId, Some(b), Some(rid), None, USAGE_SETTLED, -settleAmount)];
      }
      if releaseAmount > 0 {
        ledger := ledger + [LedgerEntry(userId, Some(b), Some(rid), None, RESERVATION_RELEASED, 0)];
      }
    }

    /** The loop that charges the allocations one after the other and frees what is left. */
    method SettleRows(userId: string, rid: nat, allocations: seq<AllocationRow>, actual: int)
      returns (settledRows: seq<AllocationRow>)
      requires actual >= 0
      requires forall k :: 0 <= k < |allocations| ==> allocations[k].bucketId < |buckets| && allocations[k].reserved > 0
      modifies this`buckets, this`ledger
      ensures settledRows == Settled(allocations, actual)
      ensures buckets == Post(old(buckets), Unheld(allocations), Charges(Settled(allocations, actual)))
      ensures ledger == old(ledger) + SettledEntries(userId, rid, Settled(allocations, actual))
    {
      settledRows := [];
      var remainingToSettle := actual;
      ghost var start := Progress(buckets, ledger, [], actual);
      SettleNoRow(start, userId, rid, allocations, actual);
      var k := 0;
      while k < |allocations|
        invariant 0 <= k <= |allocations|
        invariant Progress(buckets, ledger, settledRows, remainingToSettle) == AfterRows(start, userId, rid, allocations, actual, k)
      {
        var allocation := allocations[k];
        var settleAmount := if remainingToSettle < allocation.reserved then remainingToSettle else allocation.reserved;
        SettleOneRow(start, userId, rid, allocations, actual, k);
        SettleRow(userId, rid, allocation, settleAmount, settledRows, remainingToSettle);
        settledRows := settledRows + [allocation.(settled := settleAmount)];
        remainingToSettle := remainingToSettle - settleAmount;
        k := k + 1;
      }
      SettleAllRows(start, userId, rid, allocations, actual);
    }

    method ReleaseUsage(userId: string, rid: nat) returns (r: Result<nat, BillingError>)
      requires Valid()
      modifies this`buckets, this`reservations, this`ledger
      ensures Valid() && (State(), r) == Release(old(State()), userId, rid)
    {
      UseKeepsInv(Tables(), ReleaseStep(userId, rid));
      if rid >= |reservations| || reservations[rid].userId != userId { return Err(RESERVATION_NOT_FOUND); }
      var reservation := reservations[rid];
      if reservation.status == RELEASED { return Ok(rid); }
      if reservation.status == SETTLED || reservation.status == ANOMALY { return Err(RESERVATION_ALREADY_SETTLED); }

      assert ReservationInv(buckets, reservation);
      forall k | 0 <= k < |reservation.rows| ensures reservation.rows[k].bucketId < |buckets| {
        assert RowInv(buckets, userId, reservation.rows[k]);
      }
      var released := FreeRows(userId, rid, reservation.rows);
      reservations := reservations[rid := reservation.(status := RELEASED, settled := 0, rows := released)];
      r := Ok(rid);
    }

    /** The loop that gives every allocation of a released reservation back to its bucket. */
    method FreeRows(userId: string, rid: nat, allocations: seq<AllocationRow>) returns (released: seq<AllocationRow>)
      requires forall k :: 0 <= k < |allocations| ==> allocations[k].bucketId < |buckets|
      modifies this`buckets, this`ledger
      ensures released == Uncharged(allocations)
      ensures buckets == Post(old(buckets), Unheld(allocations), Nothing())
      ensures ledger == old(ledger) + ReleasedEntries(userId, rid, allocations)
    {
      released := [];
      ghost var start := Progress(buckets, ledger, [], 0);
      FreeNoRow(start, userId, rid, allocations);
      var k := 0;
      while k < |allocations|
        invariant 0 <= k <= |allocations|
        invariant Progress(buckets, ledger, released, 0) == AfterFreeing(start, userId, rid, allocations, k)
      {
        var allocation := allocations[k];
        FreeOneRow(start, userId, rid, allocations, k);
        var b := allocation.bucketId;
        buckets := buckets[b := buckets[b].(reserved := buckets[b].reserved - allocation.reserved)];
        released := released + [allocation.(settled := 0)];
        ledger := ledger + [LedgerEntry(userId, Some(b), Some(rid), None, RESERVATION_RELEASED, 0)];
        k := k + 1;
      }
      assert allocations[..k] == allocations;
    }

    // ---- Payment events ----

    method ProcessPaymentEvent(event: PaymentEvent, now: int, defaultDays: int) returns (r: Result<Outcome, BillingError>)
      requires Valid()
      modifies this
      ensures Valid() && (Tables(), r) == Payments.ProcessPaymentEvent(old(Tables()), event, now, defaultDays)
    {
      ProcessKeepsInv(Tables(), event, now, defaultDays);
      var found := LockPaymentId(payments, event);
      if found.None? { return Err(PAYMENT_NOT_FOUND); }
      var p := found.value;
      if (event.provider, event.eventId) in events {
        return Ok(Outcome(true, p, payments[p].status, payments[p].bucketId, payments[p].subscriptionId));
      }
      var buckets0, reservations0, ledger0 := buckets, reservations, ledger;
      var payments0, events0, subscriptions0 := payments, events, subscriptions;
      events := events + {(event.provider, event.eventId)};
      r := HandleEvent(p, event, now, defaultDays);
      if r.Err? {
        buckets, reservations, ledger := buckets0, reservations0, ledger0;
        payments, events, subscriptions := payments0, events0, subscriptions0;
      }
    }

    /** The transaction after the event is recorded; a thrown error leaves its undoing to the caller. */
    method HandleEvent(p: nat, event: PaymentEvent, now: int, defaultDays: int) returns (r: Result<Outcome, BillingError>)
      requires p < |payments|
      modifies this
      ensures Leads(Handle(old(Tables()), p, event, now, defaultDays), Tables(), r)
    {
      var payment := payments[p];
      if Truthy(event.providerPaymentId) && Truthy(payment.providerPaymentId) && event.providerPaymentId != payment.providerPaymentId {
        UpdatePayment(p, payment.(status := RECONCILIATION_REQUIRED, providerStatus := Coalesce(event.providerStatus, payment.providerStatus)));
        return Ok(Outcome(false, p, RECONCILIATION_REQUIRED, None, None));
      }
      if event.amount.Some? && event.amount.value != payment.amount {
        UpdatePayment(p, payment.(status := RECONCILIATION_REQUIRED, providerStatus := Coalesce(event.providerStatus, payment.providerStatus)));
        return Ok(Outcome(false, p, RECONCILIATION_REQUIRED, None, None));
      }
      var moneyEvent := MoneyEventOf(event);
      if moneyEvent == Confirmed {
        r := ConfirmPayment(p, event, now, defaultDays);
      } else if moneyEvent == Refunded || moneyEvent == PartiallyRefunded {
        r := ApplyRefundAccounting(p, event);
      } else if moneyEvent == Failed || moneyEvent == Canceled || moneyEvent == Pending {
        r := MoveStatus(p, event, moneyEvent);
      } else if event.eventType == PaymentChargeback {
        AppendLedger(LedgerEntry(payment.userId, payment.bucketId, None, Some(p), ADJUSTMENT, 0));
        var status := if event.providerStatus.Some? then event.providerStatus else Some("CHARGEBACK");
        UpdatePayment(p, payment.(status := RECONCILIATION_REQUIRED, providerStatus := status));
        r := Ok(Outcome(false, p, RECONCILIATION_REQUIRED, payment.bucketId, payment.subscriptionId));
      } else {
        r := Ok(Outcome(false, p, payment.status, payment.bucketId, payment.subscriptionId));
      }
    }

    method UpdatePayment(p: nat, payment: Payment)
      requires p < |payments|
      modifies this`payments
      ensures payments == old(payments)[p := payment]
    {
      payments := payments[p := payment];
    }

    method AppendLedger(entry: LedgerEntry)
      modifies this`ledger
      ensures ledger == old(ledger) + [entry]
    {
      ledger := ledger + [entry];
    }

    method ConfirmPayment(p: nat, event: PaymentEvent, now: int, defaultDays: int) returns (r: Result<Outcome, BillingError>)
      requires p < |payments|
      modifies this
      ensures Leads(Confirm(old(Tables()), p, event, now, defaultDays), Tables(), r)
    {
      var payment := payments[p];
      if payment.status == SUCCEEDED || payment.status == REFUNDED || payment.status == PARTIALLY_REFUNDED {
        return Ok(Outcome(false, p, payment.status, payment.bucketId, payment.subscriptionId));
      }
      if payment.status != PENDING && payment.status != CREATED { return Err(FINANCIAL_OPERATION_FAILED); }
      var grant := GrantPayment(p, now, defaultDays);
      if grant.Err? { return Err(grant.error); }
      var (bucketId, subscriptionId) := grant.value;
      var providerPaymentId := if event.providerPaymentId.Some? then event.providerPaymentId else payment.providerPaymentId;
      if Clashes(payments, p, payment.provider, providerPaymentId) { return Err(UNIQUE_VIOLATION); }
      var status := if event.providerStatus.Some? then event.providerStatus else Some("CONFIRMED");
      UpdatePayment(p, payment.(status := SUCCEEDED, providerStatus := status, providerPaymentId := providerPaymentId,
                                bucketId := Some(bucketId), subscriptionId := subscriptionId));
      r := Ok(Outcome(false, p, SUCCEEDED, Some(bucketId), subscriptionId));
    }

    /** The bucket row and ledger entry of a grant. */
    method OpenBucket(userId: string, source: Source, amount: int, expiresAt: Option<int>, now: int, p: nat) returns (b: nat)
      modifies this`buckets, this`ledger
      ensures b == old(|buckets|) && State() == Grant(old(State()), userId, source, amount, expiresAt, now, p)
    {
      b := |buckets|;
      var kind := if source.FromSubscription? then MONTHLY else TOPUP;
      buckets := buckets + [Bucket(b, userId, kind, amount, 0, 0, expiresAt, now, source)];
      AppendLedger(LedgerEntry(userId, Some(b), None, Some(p), if kind == MONTHLY then BUCKET_GRANTED else TOPUP_GRANTED, amount));
    }

    method GrantPayment(p: nat, now: int, defaultDays: int) returns (r: Result<(nat, Option<nat>), BillingError>)
      requires p < |payments|
      modifies this`buckets, this`ledger, this`subscriptions
      ensures match GrantFromSucceededPayment(old(Tables()), p, now, defaultDays)
              case Ok(g) => Tables() == g.accounts && r == Ok((g.bucketId, g.subscriptionId))
              case Err(error) => r == Err(error)
    {
      var payment := payments[p];
      var snapshot := payment.snapshot;
      if snapshot.customerAmount != payment.amount { return Err(PAYMENT_RECONCILIATION_REQUIRED); }
      if payment.kind == SubscriptionPayment {
        var planVersionId := if snapshot.planVersionId.Some? then snapshot.planVersionId else payment.planVersionId;
        if !Truthy(planVersionId) { return Err(PLAN_NOT_FOUND); }
        if HasActive(subscriptions, payment.userId) { return Err(SUBSCRIPTION_ALREADY_ACTIVE); }
        var periodDays := if snapshot.periodDays.Some? then snapshot.periodDays.value else defaultDays;
        var periodEnd := now + periodDays * DAY_MS;
        var s := |subscriptions|;
        subscriptions := subscriptions + [Subscription(payment.userId, planVersionId.value, true, now, periodEnd)];
        var b := OpenBucket(payment.userId, FromSubscription(s), snapshot.grant, Some(periodEnd), now, p);
        return Ok((b, Some(s)));
      }
      if HasBucketFrom(buckets, FromPayment(p)) { return Err(UNIQUE_VIOLATION); }
      var b := OpenBucket(payment.userId, FromPayment(p), snapshot.grant, None, now, p);
      r := Ok((b, None));
    }

    /** Takes back what is neither spent nor held, and notes a shortfall. */
    method RevokeFrom(userId: string, b: nat, revokeGrant: int, p: nat)
      requires b < |buckets|
      modifies this`buckets, this`ledger
      ensures State() == Revoke(old(State()), userId, b, revokeGrant, p)
    {
      var bucket := buckets[b];
      var unused := bucket.total - bucket.spent - bucket.reserved;
      var revoke := if unused < revokeGrant then unused else revokeGrant;
      ghost var before := ledger;
      if revoke > 0 {
        buckets := buckets[b := bucket.(total := bucket.total - revoke)];
        AppendLedger(LedgerEntry(userId, Some(b), None, Some(p), BUCKET_REVOKED, -revoke));
      }
      if revoke < revokeGrant {
        AppendLedger(LedgerEntry(userId, Some(b), None, Some(p), ADJUSTMENT, 0));
      }
      assert ledger == before + RevokeEntries(userId, b, p, revoke, revokeGrant);
    }

    method ApplyRefundAccounting(p: nat, event: PaymentEvent) returns (r: Result<Outcome, BillingError>)
      requires p < |payments|
      modifies this
      ensures Leads(Refund(old(Tables()), p, event), Tables(), r)
    {
      var payment := payments[p];
      var fullRefund := event.eventType != PaymentPartiallyRefunded;
      if !fullRefund && payment.kind == SubscriptionPayment {
        AppendLedger(LedgerEntry(payment.userId, payment.bucketId, None, Some(p), ADJUSTMENT, 0));
        UpdatePayment(p, payment.(status := RECONCILIATION_REQUIRED, providerStatus := Coalesce(event.providerStatus, payment.providerStatus)));
        return Ok(Outcome(false, p, RECONCILIATION_REQUIRED, payment.bucketId, payment.subscriptionId));
      }
      var revokeGrant := RevokeGrant(payment, event);
      if revokeGrant.None? { return Err(INVALID_BUDGET_INPUTS); }
      if payment.bucketId.Some? && payment.bucketId.value < |buckets| {
        RevokeFrom(payment.userId, payment.bucketId.value, revokeGrant.value, p);
      }
      if fullRefund {
        subscriptions := CancelSubscription(subscriptions, payment.subscriptionId, payment.userId);
      }
      var nextStatus := if fullRefund then REFUNDED else PARTIALLY_REFUNDED;
      UpdatePayment(p, payment.(status := nextStatus, providerStatus := Coalesce(event.providerStatus, payment.providerStatus)));
      r := Ok(Outcome(false, p, nextStatus, payment.bucketId, payment.subscriptionId));
    }

    method MoveStatus(p: nat, event: PaymentEvent, moneyEvent: MoneyEvent) returns (r: Result<Outcome, BillingError>)
      requires p < |payments|
      modifies this`payments
      ensures Leads(Ok(FollowStatus(old(Tables()), p, event, moneyEvent)), Tables(), r)
    {
      var payment := payments[p];
      var next := NextDomainStatus(payment.status, moneyEvent);
      if next.Some? && next.value != payment.status {
        UpdatePayment(p, payment.(status := next.value, providerStatus := Coalesce(event.providerStatus, payment.providerStatus)));
      } else if Truthy(event.providerStatus) && payment.status !in {SUCCEEDED, REFUNDED, PARTIALLY_REFUNDED, RECONCILIATION_REQUIRED} {
        UpdatePayment(p, payment.(providerStatus := Coalesce(event.providerStatus, payment.providerStatus)));
      }
      r := Ok(Outcome(false, p, if next.Some? then next.value else payment.status, None, None));
    }
  }

  /** The state and answer of a transaction that its specification function describes. */
  ghost predicate Leads(spec: Result<(Accounts, Outcome), BillingError>, after: Accounts, r: Result<Outcome, BillingError>) {
    match spec
    case Ok(done) => after == done.0 && r == Ok(done.1)
    case Err(error) => r == Err(error)
  }

  /** What freeing the first k rows leaves behind. */
  ghost function AfterFreeing(p: Progress, userId: string, rid: nat, rows: seq<AllocationRow>, k: nat): Progress
    requires k <= |rows|
  {
    Progress(Post(p.buckets, Unheld(rows[..k]), Nothing()), p.ledger + ReleasedEntries(userId, rid, rows[..k]), Uncharged(rows[..k]), 0)
  }

  function RowFreed(p: Progress, userId: string, rid: nat, row: AllocationRow): Progress
    requires row.bucketId < |p.buckets|
  {
    var b := row.bucketId;
    Progress(p.buckets[b := p.buckets[b].(reserved := p.buckets[b].reserved - row.reserved)],
             p.ledger + [LedgerEntry(userId, Some(b), Some(rid), None, RESERVATION_RELEASED, 0)], p.rows + [row.(settled := 0)], 0)
  }

  lemma FreeOneRow(p: Progress, userId: string, rid: nat, rows: seq<AllocationRow>, k: nat)
    requires k < |rows| && rows[k].bucketId < |p.buckets|
    ensures var before := AfterFreeing(p, userId, rid, rows, k);
            rows[k].bucketId < |before.buckets| && AfterFreeing(p, userId, rid, rows, k + 1) == RowFreed(before, userId, rid, rows[k])
  {
    PostFreed(p.buckets, rows, k);
    ReleasedOneMore(userId, rid, rows, k);
  }

  lemma FreeNoRow(p: Progress, userId: string, rid: nat, rows: seq<AllocationRow>)
    ensures AfterFreeing(p, userId, rid, rows, 0) == Progress(p.buckets, p.ledger, [], 0)
  {
    PostNothing(p.buckets, Unheld(rows[..0]), Nothing());
    assert p.ledger + [] == p.ledger;
  }

  lemma ReleasedOneMore(userId: string, rid: nat, rows: seq<AllocationRow>, k: nat)
    requires k < |rows|
    ensures ReleasedEntries(userId, rid, rows[..k + 1]) == ReleasedEntries(userId, rid, rows[..k])
            + [LedgerEntry(userId, Some(rows[k].bucketId), Some(rid), None, RESERVATION_RELEASED, 0)]
    ensures Uncharged(rows[..k + 1]) == Uncharged(rows[..k]) + [rows[k].(settled := 0)]
  {}

  lemma PostFreed(before: seq<Bucket>, held: seq<AllocationRow>, k: nat)
    requires k < |held| && held[k].bucketId < |before|
    ensures var mid, b := Post(before, Unheld(held[..k]), Nothing()), held[k].bucketId;
            Post(before, Unheld(held[..k + 1]), Nothing()) == mid[b := mid[b].(reserved := mid[b].reserved - held[k].reserved)]
  {
    forall c | 0 <= c < |before|
      ensures Sum(held[..k + 1], HeldOn(c)) == Sum(held[..k], HeldOn(c)) + HeldOn(c)(held[k])
    {
      SumTake(held, k, HeldOn(c));
    }
  }
}
