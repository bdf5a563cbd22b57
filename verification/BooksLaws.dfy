/** What the billing engine promises about the usage books, over single calls and whole runs. */
module BooksLaws {
  import opened Basics
  import opened Allocation
  import opened Books
  import opened BooksInvariant
  import Sorting

  // ---- Conservation between rows and buckets ----

  function SpentBy(): Bucket -> int { (b: Bucket) => b.spent }

  function Same(): int -> int { (x: int) => x }

  /** The per-bucket charges of some rows, as a column of n numbers. */
  function ChargeColumn(rows: seq<AllocationRow>, n: nat): (v: seq<int>)
    ensures |v| == n && forall b :: 0 <= b < n ==> v[b] == Sum(rows, ChargedOn(b))
  {
    seq(n, b requires 0 <= b < n => Sum(rows, ChargedOn(b)))
  }

  lemma {:induction false} ChargeColumnTotal(rows: seq<AllocationRow>, n: nat)
    requires forall k :: 0 <= k < |rows| ==> rows[k].bucketId < n
    ensures Sum(ChargeColumn(rows, n), Same()) == Sum(rows, RowCharge())
  {
    var v := ChargeColumn(rows, n);
    if rows == [] {
      SumZero(v, Same());
    } else {
      var last := rows[|rows| - 1];
      var w := ChargeColumn(rows[..|rows| - 1], n);
      ChargeColumnTotal(rows[..|rows| - 1], n);
      assert v == w[last.bucketId := w[last.bucketId] + last.settled];
      SumUpdate(w, last.bucketId, w[last.bucketId] + last.settled, Same());
    }
  }

  lemma {:induction false} SpentColumn(after: seq<Bucket>, before: seq<Bucket>, v: seq<int>)
    requires |after| == |before| == |v| && forall b :: 0 <= b < |v| ==> after[b].spent == before[b].spent + v[b]
    ensures Sum(after, SpentBy()) == Sum(before, SpentBy()) + Sum(v, Same())
  {
    if v != [] {
      var n := |v| - 1;
      SpentColumn(after[..n], before[..n], v[..n]);
    }
  }

  // ---- What a user could still spend ----

  function LiveSpend(userId: string, now: int): Bucket -> int {
    (b: Bucket) => if b.userId == userId && Live(b, now) then Spendable(b) else 0
  }

  /** All positive availability in the user's unexpired buckets. */
  function Spare(s: Books, userId: string, now: int): int { Sum(s.buckets, LiveSpend(userId, now)) }

  lemma {:induction false} SpareOfRows(rows: seq<Bucket>, userId: string, now: int)
    requires forall k :: k in rows ==> k.userId == userId
    ensures Sum(SpendableBuckets(rows, now), ToSpend()) == Sum(rows, LiveSpend(userId, now))
  {
    if rows != [] {
      var n := |rows| - 1;
      assert rows == rows[..n] + [rows[n]];
      SpareOfRows(rows[..n], userId, now);
      if Live(rows[n], now) { SumLast(SpendableBuckets(rows[..n], now), rows[n], ToSpend()); }
      assert rows[n] in rows;
    }
  }

  /** A column with f of the picked rows and zero elsewhere. */
  function Picked(table: seq<Bucket>, order: seq<nat>, f: Bucket -> int): (v: seq<int>)
    ensures |v| == |table| && forall i :: 0 <= i < |v| ==> v[i] == if i in order then f(table[i]) else 0
  {
    seq(|table|, i requires 0 <= i < |table| => if i in order then f(table[i]) else 0)
  }

  lemma PickedLast(table: seq<Bucket>, order: seq<nat>, o: nat, f: Bucket -> int)
    requires o < |table| && o !in order
    ensures Picked(table, order + [o], f) == Picked(table, order, f)[o := f(table[o])]
    ensures Picked(table, order, f)[o] == 0
  {}

  ghost predicate PickedSumsTo(table: seq<Bucket>, order: seq<nat>, f: Bucket -> int) {
    && (forall i :: 0 <= i < |order| ==> order[i] < |table|)
    && Sum(Picked(table, order, f), Same()) == Sum(Rows(table, order), f)
  }

  lemma PickedOneMore(table: seq<Bucket>, order: seq<nat>, o: nat, f: Bucket -> int)
    requires o < |table| && o !in order && PickedSumsTo(table, order, f)
    ensures PickedSumsTo(table, order + [o], f)
  {
    PickedLast(table, order, o, f);
    assert Rows(table, order + [o]) == Rows(table, order) + [table[o]];
    SumUpdate(Picked(table, order, f), o, f(table[o]), Same());
    SumLast(Rows(table, order), table[o], f);
  }

  lemma {:induction false} PickedTotal(table: seq<Bucket>, order: seq<nat>, f: Bucket -> int)
    requires forall i :: 0 <= i < |order| ==> order[i] < |table|
    requires forall i, j :: 0 <= i < j < |order| ==> order[i] != order[j]
    ensures PickedSumsTo(table, order, f)
  {
    if order == [] {
      SumZero(Picked(table, order, f), Same());
    } else {
      var n := |order| - 1;
      PickedTotal(table, order[..n], f);
      PickedOneMore(table, order[..n], order[n], f);
      assert order == order[..n] + [order[n]];
    }
  }

  lemma {:induction false} ColumnIsSum(table: seq<Bucket>, v: seq<int>, f: Bucket -> int)
    requires |v| == |table| && forall i :: 0 <= i < |v| ==> v[i] == f(table[i])
    ensures Sum(v, Same()) == Sum(table, f)
  {
    if v != [] {
      var n := |v| - 1;
      ColumnIsSum(table[..n], v[..n], f);
    }
  }

  lemma LockedSpare(s: Books, userId: string, named: set<nat>, lockNow: int, order: seq<nat>, now: int)
    requires Inv(s) && IsLockOrder(s, userId, named, lockNow, order) && lockNow <= now
    ensures Sum(SpendableBuckets(Rows(s.buckets, order), now), ToSpend()) == Spare(s, userId, now)
  {
    LockedRowsAreDistinct(s, userId, named, lockNow, order);
    SpareOfRows(Rows(s.buckets, order), userId, now);
    var f := LiveSpend(userId, now);
    PickedTotal(s.buckets, order, f);
    ColumnIsSum(s.buckets, Picked(s.buckets, order, f), f);
  }

  // ---- Settlement ----

  /**
   * Settling an ACTIVE reservation always succeeds. It is an ANOMALY exactly when the actual cost
   * exceeds the estimate plus all the user could still spend, and then the estimate is charged;
   * otherwise exactly the actual cost is. The charge is what all buckets together are debited.
   */
  lemma SettlementIsExact(s: Books, userId: string, rid: nat, actual: int, lockNow: int, order: seq<nat>, now: int)
    requires Inv(s) && Owns(s, userId, rid) && s.reservations[rid].status == ACTIVE && actual >= 0
    requires IsLockOrder(s, userId, BucketIds(s.reservations[rid].rows), lockNow, order) && lockNow <= now
    ensures var (t, result) := Settle(s, userId, rid, actual, order, now);
            var r, q := s.reservations[rid], t.reservations[rid];
            && result == Ok(rid)
            && q.status == (if actual > r.estimated + Spare(s, userId, now) then ANOMALY else SETTLED)
            && q.settled == (if q.status == ANOMALY then r.estimated else actual)
            && Sum(q.rows, RowCharge()) == q.settled
            && Sum(t.buckets, SpentBy()) == Sum(s.buckets, SpentBy()) + q.settled
  {
    var r, rows := s.reservations[rid], Rows(s.buckets, order);
    var cover := CoverActual(rows, r.estimated, actual, now);
    CoverIsSound(s, rid, actual, lockNow, order, now);
    LockedSpare(s, userId, BucketIds(r.rows), lockNow, order, now);
    SpareIsNatural(s, userId, now);
    ClosingDebits(s, rid, cover, order);
  }

  /** Closing a reservation debits all buckets together by exactly what it is charged. */
  lemma ClosingDebits(s: Books, rid: nat, cover: Cover, order: seq<nat>)
    requires Inv(s) && rid < |s.reservations| && s.reservations[rid].status == ACTIVE
    requires Covers(s, s.reservations[rid], cover)
    ensures var t := Close(s, rid, cover, order);
            && Sum(t.reservations[rid].rows, RowCharge()) == cover.charged
            && Sum(t.buckets, SpentBy()) == Sum(s.buckets, SpentBy()) + cover.charged
  {
    var r, t := s.reservations[rid], Close(s, rid, cover, order);
    ClosedRowsAreSound(s, r, cover, order, 0);
    var closed := ClosedRows(r, cover, order);
    forall k | 0 <= k < |closed| ensures closed[k].bucketId < |s.buckets| {
      assert RowInv(s.buckets, r.userId, closed[k]);
    }
    ChargeColumnTotal(closed, |s.buckets|);
    SpentColumn(t.buckets, s.buckets, ChargeColumn(closed, |s.buckets|));
  }

  lemma SpareIsNatural(s: Books, userId: string, now: int)
    ensures Spare(s, userId, now) >= 0
  {
    SumNonNegative(s.buckets, LiveSpend(userId, now));
  }

  lemma RowBucketIsLocked(s: Books, r: Reservation, row: AllocationRow, lockNow: int, order: seq<nat>)
    requires Inv(s) && ReservationInv(s.buckets, r) && row in OrderAllocations(r.rows, order)
    requires IsLockOrder(s, r.userId, BucketIds(r.rows), lockNow, order)
    ensures row.bucketId in order
  {
    assert row in multiset(r.rows);
    var i :| 0 <= i < |r.rows| && r.rows[i] == row;
    assert RowInv(s.buckets, r.userId, r.rows[i]) && BucketInv(s, row.bucketId);
    assert row.bucketId in BucketIds(r.rows);
  }

  lemma {:induction false} HoldPrefixGrows(rows: seq<AllocationRow>, j: nat, k: nat)
    requires j <= k <= |rows| && forall i :: 0 <= i < |rows| ==> rows[i].reserved > 0
    ensures Sum(rows[..j], RowHold()) <= Sum(rows[..k], RowHold())
  {
    if j < k {
      HoldPrefixGrows(rows, j, k - 1);
      SumTake(rows, k - 1, RowHold());
    }
  }

  /** A row is charged only when every row before it is charged in full. */
  lemma ChargeDrains(rows: seq<AllocationRow>, amount: int, j: nat, k: nat)
    requires j < k < |rows| && forall i :: 0 <= i < |rows| ==> rows[i].reserved > 0
    requires Charge(rows, amount, k) > 0
    ensures Charge(rows, amount, j) == rows[j].reserved
  {
    HoldPrefixGrows(rows, j + 1, k);
    SumTake(rows, j, RowHold());
  }

  /** Ordered allocations stand in the priority order of their buckets. */
  lemma RowsFollowPriority(s: Books, r: Reservation, lockNow: int, order: seq<nat>, j: nat, k: nat)
    requires Inv(s) && ReservationInv(s.buckets, r) && j < k < |r.rows|
    requires IsLockOrder(s, r.userId, BucketIds(r.rows), lockNow, order)
    ensures var rows := OrderAllocations(r.rows, order);
            && rows[j].bucketId < |s.buckets| && rows[k].bucketId < |s.buckets|
            && Before(s.buckets[rows[j].bucketId], s.buckets[rows[k].bucketId])
  {
    var rows := OrderAllocations(r.rows, order);
    assert Sorting.TotalPreorder(ByRank(order));
    Sorting.StableSortSorts(ByRank(order), r.rows);
    assert rows[j] in rows && rows[k] in rows;
    RowBucketIsLocked(s, r, rows[j], lockNow, order);
    RowBucketIsLocked(s, r, rows[k], lockNow, order);
    assert ByRank(order)(rows[j], rows[k]);
    var x, y := IndexIn(order, rows[j].bucketId), IndexIn(order, rows[k].bucketId);
    assert order[x] < |s.buckets| && order[y] < |s.buckets|;
  }

  /**
   * Within the estimate, rows are charged in the priority order of their buckets: a row is charged
   * only when every row before it is charged in full, and the rest of its hold is returned.
   */
  lemma SettlementFollowsPriority(s: Books, userId: string, rid: nat, actual: int, lockNow: int, order: seq<nat>, now: int)
    requires Inv(s) && Owns(s, userId, rid) && s.reservations[rid].status == ACTIVE
    requires 0 <= actual <= s.reservations[rid].estimated
    requires IsLockOrder(s, userId, BucketIds(s.reservations[rid].rows), lockNow, order)
    ensures var q := Settle(s, userId, rid, actual, order, now).0.reservations[rid].rows;
            forall j, k :: 0 <= j < k < |q| ==>
              && q[j].bucketId < |s.buckets| && q[k].bucketId < |s.buckets|
              && Before(s.buckets[q[j].bucketId], s.buckets[q[k].bucketId])
              && (q[k].settled > 0 ==> q[j].settled == q[j].reserved)
  {
    var r := s.reservations[rid];
    var rows := OrderAllocations(r.rows, order);
    var q := Settled(rows, actual);
    assert ExtendAll(rows, []) == rows;
    assert Settle(s, userId, rid, actual, order, now).0.reservations[rid].rows == q;
    assert ReservationInv(s.buckets, r);
    OrderingKeepsRows(s.buckets, userId, r.rows, order);
    forall i | 0 <= i < |rows| ensures rows[i].reserved > 0 { assert RowInv(s.buckets, userId, rows[i]); }
    forall j, k | 0 <= j < k < |q|
      ensures q[j].bucketId < |s.buckets| && q[k].bucketId < |s.buckets|
      ensures Before(s.buckets[q[j].bucketId], s.buckets[q[k].bucketId])
      ensures q[k].settled > 0 ==> q[j].settled == q[j].reserved
    {
      RowsFollowPriority(s, r, lockNow, order, j, k);
      if q[k].settled > 0 { ChargeDrains(rows, actual, j, k); }
    }
  }

  lemma FullChargeDrainsAll(rows: seq<AllocationRow>, k: nat)
    requires k < |rows| && forall i :: 0 <= i < |rows| ==> rows[i].reserved > 0
    ensures Charge(rows, Sum(rows, RowHold()), k) == rows[k].reserved
  {
    HoldPrefixGrows(rows, k + 1, |rows|);
    SumTake(rows, k, RowHold());
    assert rows[..|rows|] == rows;
  }

  /**
   * Beyond the estimate nothing of any hold is returned: whether further usage is drawn or the
   * settlement is an anomaly, every row is charged in full.
   */
  lemma OverSettlementDrainsAll(s: Books, userId: string, rid: nat, actual: int, lockNow: int, order: seq<nat>, now: int)
    requires Inv(s) && Owns(s, userId, rid) && s.reservations[rid].status == ACTIVE
    requires actual > s.reservations[rid].estimated
    requires IsLockOrder(s, userId, BucketIds(s.reservations[rid].rows), lockNow, order)
    ensures var q := Settle(s, userId, rid, actual, order, now).0.reservations[rid].rows;
            forall k :: 0 <= k < |q| ==> q[k].settled == q[k].reserved
  {
    var r := s.reservations[rid];
    OverCoverIsFull(s, rid, actual, lockNow, order, now);
    FullCloseDrainsAll(s, r, CoverActual(Rows(s.buckets, order), r.estimated, actual, now), order);
    assert r.estimated > 0 by { assert ReservationInv(s.buckets, r); }
    RowsAfterSettling(s, userId, rid, actual, order, now);
  }

  /** Beyond the estimate the charge is everything that is held, further shares included. */
  lemma OverCoverIsFull(s: Books, rid: nat, actual: int, lockNow: int, order: seq<nat>, now: int)
    requires Inv(s) && rid < |s.reservations| && actual > s.reservations[rid].estimated
    requires IsLockOrder(s, s.reservations[rid].userId, BucketIds(s.reservations[rid].rows), lockNow, order)
    ensures var r := s.reservations[rid];
            var cover := CoverActual(Rows(s.buckets, order), r.estimated, actual, now);
            Covers(s, r, cover) && cover.charged == r.estimated + Total(cover.extra)
  {
    var r := s.reservations[rid];
    assert r.estimated > 0 by { assert ReservationInv(s.buckets, r); }
    CoverIsSound(s, rid, actual, lockNow, order, now);
    ExtraFits(s, r.userId, BucketIds(r.rows), actual - r.estimated, lockNow, order, now);
  }

  lemma RowsAfterSettling(s: Books, userId: string, rid: nat, actual: int, order: seq<nat>, now: int)
    requires Owns(s, userId, rid) && s.reservations[rid].status == ACTIVE && actual >= 0
    requires forall i :: 0 <= i < |order| ==> order[i] < |s.buckets|
    ensures var t, r := Settle(s, userId, rid, actual, order, now).0, s.reservations[rid];
            rid < |t.reservations| &&
            t.reservations[rid].rows == ClosedRows(r, CoverActual(Rows(s.buckets, order), r.estimated, actual, now), order)
  {}

  lemma FullCloseDrainsAll(s: Books, r: Reservation, cover: Cover, order: seq<nat>)
    requires r in s.reservations && Inv(s) && r.status == ACTIVE
    requires Covers(s, r, cover) && cover.charged == r.estimated + Total(cover.extra)
    ensures forall k :: 0 <= k < |ClosedRows(r, cover, order)| ==>
              ClosedRows(r, cover, order)[k].settled == ClosedRows(r, cover, order)[k].reserved
  {
    assert ReservationInv(s.buckets, r);
    ClosedRowsAreSound(s, r, cover, order, 0);
    var open := ExtendAll(OrderAllocations(r.rows, order), cover.extra);
    HoldsUnchanged(open, cover.charged, RowHold());
    forall k | 0 <= k < |open| ensures open[k].reserved > 0 { assert RowInv(s.buckets, r.userId, ClosedRows(r, cover, order)[k]); }
    forall k | 0 <= k < |open| ensures Charge(open, cover.charged, k) == open[k].reserved { FullChargeDrainsAll(open, k); }
  }

  // ---- Retries and inverses ----

  /** Repeating a reservation that went through finds it and changes nothing. */
  lemma ReserveIsIdempotent(s: Books, userId: string, requestId: string, estimated: int, order: seq<nat>, again: seq<nat>)
    requires forall i :: 0 <= i < |order| ==> order[i] < |s.buckets|
    requires forall i :: 0 <= i < |again| ==> again[i] < |s.buckets|
    requires Reserve(s, userId, requestId, estimated, order).1.Ok?
    ensures var (t, first) := Reserve(s, userId, requestId, estimated, order);
            Reserve(t, userId, requestId, estimated, again) == (t, first)
  {
    if Find(s.reservations, userId, requestId).None? {
      FindLast(s.reservations, Reservation(userId, requestId, estimated, 0, ACTIVE,
                                           ToRows(Plan(Rows(s.buckets, order), estimated).value)));
    }
  }

  lemma FindLast(rs: seq<Reservation>, r: Reservation)
    ensures Find(rs + [r], r.userId, r.requestId) == Some(|rs|)
  {}

  /** A settlement is repeated without a trace at the same amount, and refused at another or when it ended as an anomaly. */
  lemma SettleIsIdempotent(s: Books, userId: string, rid: nat, actual: int, other: int,
                           lockNow: int, order: seq<nat>, now: int, again: seq<nat>, later: int)
    requires Inv(s) && Owns(s, userId, rid) && s.reservations[rid].status == ACTIVE && actual >= 0 && other >= 0
    requires IsLockOrder(s, userId, BucketIds(s.reservations[rid].rows), lockNow, order) && lockNow <= now
    requires forall i :: 0 <= i < |again| ==> again[i] < |s.buckets|
    ensures var t := Settle(s, userId, rid, actual, order, now).0;
            var covered := actual <= s.reservations[rid].estimated + Spare(s, userId, now);
            Settle(t, userId, rid, other, again, later) == (t, if covered && other == actual then Ok(rid) else Err(RESERVATION_CONFLICT))
  {
    SettlementIsExact(s, userId, rid, actual, lockNow, order, now);
  }

  /** Releasing a fresh reservation gives every bucket back exactly what it held. */
  lemma ReleaseUndoesReserve(s: Books, userId: string, requestId: string, estimated: int, now: int, order: seq<nat>)
    requires Inv(s) && IsLockOrder(s, userId, {}, now, order)
    requires Find(s.reservations, userId, requestId).None? && Reserve(s, userId, requestId, estimated, order).1.Ok?
    ensures var (t, result) := Reserve(s, userId, requestId, estimated, order);
            var (u, released) := Release(t, userId, result.value);
            released == result && u.buckets == s.buckets && u.reservations[result.value].status == RELEASED
  {
    var (t, result) := Reserve(s, userId, requestId, estimated, order);
    var shares := Plan(Rows(s.buckets, order), estimated).value;
    forall b | 0 <= b < |s.buckets|
      ensures Release(t, userId, result.value).0.buckets[b] == s.buckets[b]
    {
      HoldOfShares(shares, b);
    }
  }

  // ---- Whole runs ----

  datatype Step =
    | ReserveStep(userId: string, requestId: string, estimated: int, lockNow: int, order: seq<nat>)
    | SettleStep(userId: string, rid: nat, actual: int, lockNow: int, order: seq<nat>, now: int)
    | ReleaseStep(userId: string, rid: nat)
    | GrantStep(userId: string, source: Source, amount: nat, expiresAt: Option<int>, now: int, paymentId: nat)
    | RevokeStep(userId: string, bucketId: nat, requested: nat, paymentId: nat)

  /** A step may happen when the database hands out locked rows as it must. */
  ghost predicate Legal(s: Books, step: Step) {
    match step
    case ReserveStep(u, _, _, lockNow, order) => IsLockOrder(s, u, {}, lockNow, order)
    case SettleStep(u, rid, _, lockNow, order, _) =>
      && (forall i :: 0 <= i < |order| ==> order[i] < |s.buckets|)
      && (Owns(s, u, rid) ==> IsLockOrder(s, u, BucketIds(s.reservations[rid].rows), lockNow, order))
    case ReleaseStep(_, _) => true
    case GrantStep(_, _, _, _, _, _) => true
    case RevokeStep(_, b, _, _) => b < |s.buckets|
  }

  ghost function Apply(s: Books, step: Step): Books
    requires Legal(s, step)
  {
    match step
    case ReserveStep(u, q, e, _, order) => Reserve(s, u, q, e, order).0
    case SettleStep(u, rid, a, _, order, now) => Settle(s, u, rid, a, order, now).0
    case ReleaseStep(u, rid) => Release(s, u, rid).0
    case GrantStep(u, k, a, x, now, p) => Grant(s, u, k, a, x, now, p)
    case RevokeStep(u, b, a, p) => Revoke(s, u, b, a, p)
  }

  ghost predicate LegalRun(s: Books, steps: seq<Step>)
    decreases |steps|
  {
    steps == [] || (Legal(s, steps[0]) && LegalRun(Apply(s, steps[0]), steps[1..]))
  }

  ghost function Run(s: Books, steps: seq<Step>): Books
    requires LegalRun(s, steps)
    decreases |steps|
  {
    if steps == [] then s else Run(Apply(s, steps[0]), steps[1..])
  }

  lemma StepKeepsInv(s: Books, step: Step)
    requires Inv(s) && Legal(s, step)
    ensures Inv(Apply(s, step))
  {
    match step
    case ReserveStep(u, q, e, lockNow, order) => ReserveKeepsInv(s, u, q, e, lockNow, order);
    case SettleStep(u, rid, a, lockNow, order, now) => SettleKeepsInv(s, u, rid, a, lockNow, order, now);
    case ReleaseStep(u, rid) => ReleaseKeepsInv(s, u, rid);
    case GrantStep(u, k, a, x, now, p) => GrantKeepsInv(s, u, k, a, x, now, p);
    case RevokeStep(u, b, a, p) => RevokeKeepsInv(s, u, b, a, p);
  }

  /** Every run of grants, reservations, settlements, releases and refunds keeps the books consistent. */
  lemma {:induction false} RunKeepsInv(s: Books, steps: seq<Step>)
    requires Inv(s) && LegalRun(s, steps)
    ensures Inv(Run(s, steps))
    decreases |steps|
  {
    if steps != [] {
      StepKeepsInv(s, steps[0]);
      RunKeepsInv(Apply(s, steps[0]), steps[1..]);
    }
  }

  // ---- The ledger and the reservations ----

  function ChargedTo(rid: nat): LedgerEntry -> int {
    (e: LedgerEntry) => if e.reservationId == Some(rid) then e.amount else 0
  }

  /** The ledger has debited every reservation by exactly what it is settled at. */
  ghost predicate ChargedOnce(s: Books) {
    && (forall r :: 0 <= r < |s.reservations| ==> Sum(s.ledger, ChargedTo(r)) == -s.reservations[r].settled)
    && (forall e :: 0 <= e < |s.ledger| && s.ledger[e].reservationId.Some? ==>
          s.ledger[e].reservationId.value < |s.reservations|)
  }

  lemma ChargeOfRow(userId: string, rid: nat, row: AllocationRow, r: nat)
    requires 0 <= row.settled
    ensures Sum(RowEntries(userId, rid, row), ChargedTo(r)) == if r == rid then -row.settled else 0
  {
    var charge := LedgerEntry(userId, Some(row.bucketId), Some(rid), None, USAGE_SETTLED, -row.settled);
    var free := LedgerEntry(userId, Some(row.bucketId), Some(rid), None, RESERVATION_RELEASED, 0);
    SumOfTwo(row.settled > 0, charge, row.reserved - row.settled > 0, free, ChargedTo(r));
  }

  lemma {:induction false} ChargeOfSettlement(userId: string, rid: nat, rows: seq<AllocationRow>, r: nat)
    requires forall k :: 0 <= k < |rows| ==> 0 <= rows[k].settled
    ensures Sum(SettledEntries(userId, rid, rows), ChargedTo(r)) == if r == rid then -Sum(rows, RowCharge()) else 0
  {
    if rows != [] {
      var n := |rows| - 1;
      ChargeOfSettlement(userId, rid, rows[..n], r);
      ChargeOfRow(userId, rid, rows[n], r);
      SumAppend(SettledEntries(userId, rid, rows[..n]), RowEntries(userId, rid, rows[n]), ChargedTo(r));
    }
  }

  lemma {:induction false} SettledEntriesName(userId: string, rid: nat, rows: seq<AllocationRow>)
    ensures forall e :: e in SettledEntries(userId, rid, rows) ==> e.reservationId == Some(rid) && e.paymentId.None? && e.kind != BUCKET_REVOKED
  {
    if rows != [] { SettledEntriesName(userId, rid, rows[..|rows| - 1]); }
  }

  /** A step that settles nothing and appends no debit of a reservation. */
  lemma QuietStep(s: Books, t: Books, es: seq<LedgerEntry>)
    requires ChargedOnce(s) && t.ledger == s.ledger + es && |s.reservations| <= |t.reservations|
    requires forall r :: 0 <= r < |t.reservations| ==>
               t.reservations[r].settled == if r < |s.reservations| then s.reservations[r].settled else 0
    requires forall e :: 0 <= e < |es| && es[e].reservationId.Some? ==>
               es[e].amount == 0 && es[e].reservationId.value < |t.reservations|
    ensures ChargedOnce(t)
  {
    forall r | 0 <= r < |t.reservations| ensures Sum(t.ledger, ChargedTo(r)) == -t.reservations[r].settled {
      SumZero(es, ChargedTo(r));
      SumAppend(s.ledger, es, ChargedTo(r));
      if r >= |s.reservations| { SumZero(s.ledger, ChargedTo(r)); }
    }
  }

  lemma ClosingChargesOnce(s: Books, rid: nat, cover: Cover, order: seq<nat>)
    requires Inv(s) && ChargedOnce(s) && rid < |s.reservations| && s.reservations[rid].status == ACTIVE
    requires Covers(s, s.reservations[rid], cover)
    ensures ChargedOnce(Close(s, rid, cover, order))
  {
    var t, r := Close(s, rid, cover, order), s.reservations[rid];
    ClosedRowsAreSound(s, r, cover, order, 0);
    assert ReservationInv(s.buckets, r);
    assert r.settled == 0 by { SumZero(r.rows, RowCharge()); }
    var rows := ClosedRows(r, cover, order);
    forall k | 0 <= k < |rows| ensures 0 <= rows[k].settled { assert RowInv(s.buckets, r.userId, rows[k]); }
    var es := SettledEntries(r.userId, rid, rows);
    SettledEntriesName(r.userId, rid, rows);
    forall e | 0 <= e < |t.ledger| && t.ledger[e].reservationId.Some? ensures t.ledger[e].reservationId.value < |t.reservations| {
      if e >= |s.ledger| { assert es[e - |s.ledger|] in es; }
    }
    forall q | 0 <= q < |t.reservations| ensures Sum(t.ledger, ChargedTo(q)) == -t.reservations[q].settled {
      ChargeOfSettlement(r.userId, rid, rows, q);
      SumAppend(s.ledger, es, ChargedTo(q));
    }
  }

  lemma ReserveChargesOnce(s: Books, userId: string, requestId: string, estimated: int, shares: seq<Share>)
    requires ChargedOnce(s)
    ensures ChargedOnce(Reserved(s, userId, requestId, estimated, shares))
  {
    QuietStep(s, Reserved(s, userId, requestId, estimated, shares), CreatedEntries(userId, |s.reservations|, shares));
  }

  lemma ReleaseChargesOnce(s: Books, userId: string, rid: nat)
    requires Inv(s) && ChargedOnce(s)
    ensures ChargedOnce(Release(s, userId, rid).0)
  {
    if Owns(s, userId, rid) && s.reservations[rid].status == ACTIVE {
      var r := s.reservations[rid];
      assert ReservationInv(s.buckets, r);
      SumZero(r.rows, RowCharge());
      QuietStep(s, Release(s, userId, rid).0, ReleasedEntries(userId, rid, r.rows));
    }
  }

  lemma FundingChargesOnce(s: Books, t: Books, es: seq<LedgerEntry>)
    requires ChargedOnce(s) && t.ledger == s.ledger + es && t.reservations == s.reservations
    requires forall e :: 0 <= e < |es| ==> es[e].reservationId.None?
    ensures ChargedOnce(t)
  {
    QuietStep(s, t, es);
  }

  lemma SettleChargesOnce(s: Books, userId: string, rid: nat, actual: int, lockNow: int, order: seq<nat>, now: int)
    requires Inv(s) && ChargedOnce(s) && Legal(s, SettleStep(userId, rid, actual, lockNow, order, now))
    ensures ChargedOnce(Settle(s, userId, rid, actual, order, now).0)
  {
    if actual >= 0 && Owns(s, userId, rid) && s.reservations[rid].status == ACTIVE {
      CoverIsSound(s, rid, actual, lockNow, order, now);
      ClosingChargesOnce(s, rid, CoverActual(Rows(s.buckets, order), s.reservations[rid].estimated, actual, now), order);
    }
  }

  lemma StepChargesOnce(s: Books, step: Step)
    requires Inv(s) && ChargedOnce(s) && Legal(s, step)
    ensures ChargedOnce(Apply(s, step))
  {
    match step
    case ReserveStep(u, q, e, lockNow, order) =>
      var plan := Plan(Rows(s.buckets, order), e);
      if plan.Some? { ReserveChargesOnce(s, u, q, e, plan.value); }
    case SettleStep(u, rid, a, lockNow, order, now) => SettleChargesOnce(s, u, rid, a, lockNow, order, now);
    case ReleaseStep(u, rid) => ReleaseChargesOnce(s, u, rid);
    case GrantStep(u, k, a, x, now, p) =>
      var t := Grant(s, u, k, a, x, now, p);
      FundingChargesOnce(s, t, [t.ledger[|s.ledger|]]);
    case RevokeStep(u, b, a, p) =>
      FundingChargesOnce(s, Revoke(s, u, b, a, p), RevokeEntries(u, b, p, Revocable(s.buckets[b], a), a));
  }

  /** Over every run the ledger debits each reservation once, by its settled amount. */
  lemma {:induction false} RunChargesOnce(s: Books, steps: seq<Step>)
    requires Inv(s) && ChargedOnce(s) && LegalRun(s, steps)
    ensures ChargedOnce(Run(s, steps))
    decreases |steps|
  {
    if steps != [] {
      StepKeepsInv(s, steps[0]);
      StepChargesOnce(s, steps[0]);
      RunChargesOnce(Apply(s, steps[0]), steps[1..]);
    }
  }

  /** A closed reservation is never touched again, whatever happens later. */
  lemma {:induction false} ClosedForever(s: Books, steps: seq<Step>, rid: nat)
    requires LegalRun(s, steps) && rid < |s.reservations| && s.reservations[rid].status != ACTIVE
    ensures rid < |Run(s, steps).reservations| && Run(s, steps).reservations[rid] == s.reservations[rid]
    decreases |steps|
  {
    if steps != [] {
      ClosedForever(Apply(s, steps[0]), steps[1..], rid);
    }
  }
}
