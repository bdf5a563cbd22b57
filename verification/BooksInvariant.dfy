/** Every operation on the usage books keeps the invariant that ties its tables together. */
module BooksInvariant {
  import opened Basics
  import opened Allocation
  import opened Books
  import Sorting

  // ---- Sums over shares, rows and entries ----

  lemma {:induction false} HoldOfShares(shares: seq<Share>, b: nat)
    ensures Sum(ToRows(shares), HeldOn(b)) == ShareOf(shares, b)
    ensures Sum(ToRows(shares), ChargedOn(b)) == 0
    ensures Sum(ToRows(shares), RowHold()) == Total(shares)
    ensures Sum(ToRows(shares), RowCharge()) == 0
  {
    if shares != [] {
      var n := |shares| - 1;
      HoldOfShares(shares[..n], b);
      assert ToRows(shares)[..n] == ToRows(shares[..n]);
    }
  }

  lemma NoPosting(es: seq<LedgerEntry>, b: nat)
    requires forall i :: 0 <= i < |es| ==> es[i].amount == 0
    ensures Sum(es, Posted(b)) == 0 && Sum(es, Funded(b)) == 0
  {
    SumZero(es, Posted(b));
    SumZero(es, Funded(b));
  }

  lemma PostingOfRow(userId: string, rid: nat, row: AllocationRow, b: nat)
    requires 0 <= row.settled
    ensures Sum(RowEntries(userId, rid, row), Posted(b)) == -ChargedOn(b)(row)
    ensures Sum(RowEntries(userId, rid, row), Funded(b)) == 0
  {
    var charge := LedgerEntry(userId, Some(row.bucketId), Some(rid), None, USAGE_SETTLED, -row.settled);
    var free := LedgerEntry(userId, Some(row.bucketId), Some(rid), None, RESERVATION_RELEASED, 0);
    SumOfTwo(row.settled > 0, charge, row.reserved - row.settled > 0, free, Posted(b));
    SumOfTwo(row.settled > 0, charge, row.reserved - row.settled > 0, free, Funded(b));
  }

  lemma {:induction false} PostingOfSettlement(userId: string, rid: nat, rows: seq<AllocationRow>, b: nat)
    requires forall k :: 0 <= k < |rows| ==> 0 <= rows[k].settled
    ensures Sum(SettledEntries(userId, rid, rows), Posted(b)) == -Sum(rows, ChargedOn(b))
    ensures Sum(SettledEntries(userId, rid, rows), Funded(b)) == 0
  {
    if rows != [] {
      var n := |rows| - 1;
      PostingOfSettlement(userId, rid, rows[..n], b);
      PostingOfRow(userId, rid, rows[n], b);
      var front, last := SettledEntries(userId, rid, rows[..n]), RowEntries(userId, rid, rows[n]);
      SumAppend(front, last, Posted(b));
      SumAppend(front, last, Funded(b));
    }
  }

  ghost predicate EntriesInRange(es: seq<LedgerEntry>, n: nat) {
    forall e :: 0 <= e < |es| && es[e].bucketId.Some? ==> es[e].bucketId.value < n
  }

  lemma {:induction false} SettlementInRange(userId: string, rid: nat, rows: seq<AllocationRow>, n: nat)
    requires forall k :: 0 <= k < |rows| ==> rows[k].bucketId < n
    ensures EntriesInRange(SettledEntries(userId, rid, rows), n)
  {
    if rows != [] { SettlementInRange(userId, rid, rows[..|rows| - 1], n); }
  }

  lemma HoldsAreNatural(rows: seq<AllocationRow>, b: nat)
    requires forall k :: 0 <= k < |rows| ==> 0 <= rows[k].reserved
    ensures Sum(rows, HeldOn(b)) >= 0
  {
    SumNonNegative(rows, HeldOn(b));
  }

  // ---- Locked rows ----

  lemma LockedRowsAreDistinct(s: Books, userId: string, named: set<nat>, now: int, order: seq<nat>)
    requires Inv(s) && IsLockOrder(s, userId, named, now, order)
    ensures DistinctIds(Rows(s.buckets, order))
    ensures forall k :: k in Rows(s.buckets, order) ==>
              k.id < |s.buckets| && s.buckets[k.id] == k && k.userId == userId && Spendable(k) == Available(k)
  {
    forall i | 0 <= i < |order|
      ensures Rows(s.buckets, order)[i].id == order[i] && s.buckets[order[i]].userId == userId
      ensures Spendable(s.buckets[order[i]]) == Available(s.buckets[order[i]])
    {
      assert BucketInv(s, order[i]);
      assert order[i] in order;
    }
  }

  lemma {:induction false} SpendableIsPart(rows: seq<Bucket>, now: int)
    requires DistinctIds(rows)
    ensures DistinctIds(SpendableBuckets(rows, now))
    ensures forall k :: k in SpendableBuckets(rows, now) <==> k in rows && Live(k, now)
  {
    if rows != [] {
      var n := |rows| - 1;
      SpendableIsPart(rows[..n], now);
      var front := SpendableBuckets(rows[..n], now);
      assert rows == rows[..n] + [rows[n]];
      if Live(rows[n], now) {
        var all := front + [rows[n]];
        forall i, j | 0 <= i < j < |all| ensures all[i].id != all[j].id {
          if j == |front| { assert all[i] in front; }
        }
      }
    }
  }

  /** A plan made from locked rows holds only what each bucket of the user has available. */
  ghost predicate FitsBuckets(s: Books, userId: string, shares: seq<Share>) {
    && DistinctShares(shares)
    && (forall x :: x in shares ==> x.reserved > 0 && x.bucketId < |s.buckets| && s.buckets[x.bucketId].userId == userId)
    && (forall b :: 0 <= b < |s.buckets| ==> 0 <= ShareOf(shares, b) <= Available(s.buckets[b]))
  }

  lemma PlanFits(s: Books, userId: string, rows: seq<Bucket>, amount: int)
    requires Inv(s) && DistinctIds(rows)
    requires forall k :: k in rows ==> k.id < |s.buckets| && s.buckets[k.id] == k && k.userId == userId && Spendable(k) == Available(k)
    requires Plan(rows, amount).Some?
    ensures FitsBuckets(s, userId, Plan(rows, amount).value) && Total(Plan(rows, amount).value) == amount
  {
    PlanIsExact(rows, amount);
    var shares := Plan(rows, amount).value;
    forall b | 0 <= b < |s.buckets| ensures 0 <= ShareOf(shares, b) <= Available(s.buckets[b]) {
      if k :| k in rows && k.id == b {
        assert Spendable(k) == Available(s.buckets[b]);
      } else {
        ShareOfAbsent(shares, b);
        assert BucketInv(s, b);
      }
    }
  }

  // ---- reserveUsage ----

  lemma ReserveKeepsBucket(s: Books, b: nat, userId: string, requestId: string, estimated: int, shares: seq<Share>)
    requires b < |s.buckets| && BucketInv(s, b) && 0 <= ShareOf(shares, b) <= Available(s.buckets[b])
    ensures BucketInv(Reserved(s, userId, requestId, estimated, shares), b)
  {
    HoldOfShares(shares, b);
    var r := Reservation(userId, requestId, estimated, 0, ACTIVE, ToRows(shares));
    SumLast(s.reservations, r, ActiveHold(b));
    SumLast(s.reservations, r, TotalCharge(b));
    var es := CreatedEntries(userId, |s.reservations|, shares);
    NoPosting(es, b);
    SumAppend(s.ledger, es, Posted(b));
    SumAppend(s.ledger, es, Funded(b));
  }

  lemma NewReservationInv(s: Books, userId: string, requestId: string, shares: seq<Share>)
    requires FitsBuckets(s, userId, shares) && Total(shares) > 0
    ensures ReservationInv(s.buckets, Reservation(userId, requestId, Total(shares), 0, ACTIVE, ToRows(shares)))
  {
    HoldOfShares(shares, 0);
    var rows := ToRows(shares);
    forall k | 0 <= k < |rows| ensures RowInv(s.buckets, userId, rows[k]) {
      assert shares[k] in shares;
    }
  }

  /** Reservations see of a bucket only that it exists and whose it is. */
  lemma ReservationInvCarries(before: seq<Bucket>, after: seq<Bucket>, r: Reservation)
    requires ReservationInv(before, r) && |before| <= |after|
    requires forall b :: 0 <= b < |before| ==> after[b].userId == before[b].userId
    ensures ReservationInv(after, r)
  {
    forall k | 0 <= k < |r.rows| ensures RowInv(after, r.userId, r.rows[k]) {
      assert RowInv(before, r.userId, r.rows[k]);
    }
  }

  lemma ReservedKeepsInv(s: Books, userId: string, requestId: string, shares: seq<Share>)
    requires Inv(s) && FitsBuckets(s, userId, shares) && Total(shares) > 0
    requires Find(s.reservations, userId, requestId).None?
    ensures Inv(Reserved(s, userId, requestId, Total(shares), shares))
  {
    var t := Reserved(s, userId, requestId, Total(shares), shares);
    forall b | 0 <= b < |t.buckets| ensures BucketInv(t, b) {
      ReserveKeepsBucket(s, b, userId, requestId, Total(shares), shares);
    }
    forall r | 0 <= r < |t.reservations| ensures ReservationInv(t.buckets, t.reservations[r]) {
      if r < |s.reservations| {
        ReservationInvCarries(s.buckets, t.buckets, s.reservations[r]);
      } else {
        NewReservationInv(s, userId, requestId, shares);
        ReservationInvCarries(s.buckets, t.buckets, t.reservations[r]);
      }
    }
    forall e | 0 <= e < |t.ledger| && t.ledger[e].bucketId.Some? ensures t.ledger[e].bucketId.value < |t.buckets| {
      if e >= |s.ledger| { assert shares[e - |s.ledger|] in shares; }
    }
  }

  lemma ReserveKeepsInv(s: Books, userId: string, requestId: string, estimated: int, now: int, order: seq<nat>)
    requires Inv(s) && IsLockOrder(s, userId, {}, now, order)
    ensures Inv(Reserve(s, userId, requestId, estimated, order).0)
  {
    var rows := Rows(s.buckets, order);
    if estimated > 0 && Find(s.reservations, userId, requestId).None? && Plan(rows, estimated).Some? {
      LockedRowsAreDistinct(s, userId, {}, now, order);
      PlanFits(s, userId, rows, estimated);
      ReservedKeepsInv(s, userId, requestId, Plan(rows, estimated).value);
    }
  }

  // ---- settleUsage ----

  ghost predicate RowsInv(buckets: seq<Bucket>, userId: string, rows: seq<AllocationRow>) {
    && DistinctRows(rows)
    && (forall k :: 0 <= k < |rows| ==> RowInv(buckets, userId, rows[k]))
  }

  /** Ordering the allocations only rearranges them. */
  lemma OrderingKeepsRows(buckets: seq<Bucket>, userId: string, rows: seq<AllocationRow>, order: seq<nat>)
    requires RowsInv(buckets, userId, rows)
    ensures RowsInv(buckets, userId, OrderAllocations(rows, order))
    ensures forall f: AllocationRow -> int :: Sum(OrderAllocations(rows, order), f) == Sum(rows, f)
  {
    var sorted := OrderAllocations(rows, order);
    forall k | 0 <= k < |sorted| ensures RowInv(buckets, userId, sorted[k]) {
      assert sorted[k] in multiset(rows);
      var i :| 0 <= i < |rows| && rows[i] == sorted[k];
    }
    forall i, j | 0 <= i < j < |sorted| ensures sorted[i].bucketId != sorted[j].bucketId {
      if sorted[i].bucketId == sorted[j].bucketId {
        RowsOfOneBucket(rows, sorted[i].bucketId);
        RowsOfOneBucket(sorted, sorted[i].bucketId);
        SumOfPermutation(sorted, rows, CountOn(sorted[i].bucketId));
        TwoRows(sorted, i, j);
      }
    }
    forall f: AllocationRow -> int ensures Sum(sorted, f) == Sum(rows, f) {
      SumOfPermutation(sorted, rows, f);
    }
  }

  function CountOn(b: nat): AllocationRow -> int { (r: AllocationRow) => if r.bucketId == b then 1 else 0 }

  lemma {:induction false} RowsOfOneBucket(rows: seq<AllocationRow>, b: nat)
    ensures DistinctRows(rows) ==> Sum(rows, CountOn(b)) <= 1
    ensures Sum(rows, CountOn(b)) >= 0
    ensures (forall k :: 0 <= k < |rows| ==> rows[k].bucketId != b) ==> Sum(rows, CountOn(b)) == 0
  {
    if rows != [] { RowsOfOneBucket(rows[..|rows| - 1], b); }
  }

  lemma TwoRows(rows: seq<AllocationRow>, i: nat, j: nat)
    requires i < j < |rows| && rows[i].bucketId == rows[j].bucketId
    ensures Sum(rows, CountOn(rows[i].bucketId)) >= 2
  {
    var f := CountOn(rows[i].bucketId);
    assert rows == rows[..j] + [rows[j]] + rows[j + 1..];
    assert rows[..j] == rows[..i] + [rows[i]] + rows[i + 1..j];
    SumAppend(rows[..j] + [rows[j]], rows[j + 1..], f);
    SumLast(rows[..j], rows[j], f);
    SumAppend(rows[..i] + [rows[i]], rows[i + 1..j], f);
    SumLast(rows[..i], rows[i], f);
    SumNonNegative(rows[..i], f);
    SumNonNegative(rows[i + 1..j], f);
    SumNonNegative(rows[j + 1..], f);
  }

  ghost predicate Unsettled(rows: seq<AllocationRow>) {
    forall k :: 0 <= k < |rows| ==> rows[k].settled == 0
  }

  lemma ExtendKeepsRows(buckets: seq<Bucket>, userId: string, rows: seq<AllocationRow>, share: Share, b: nat)
    requires RowsInv(buckets, userId, rows) && Unsettled(rows)
    requires share.reserved > 0 && share.bucketId < |buckets| && buckets[share.bucketId].userId == userId
    ensures RowsInv(buckets, userId, Extend(rows, share)) && Unsettled(Extend(rows, share))
    ensures Sum(Extend(rows, share), HeldOn(b)) == Sum(rows, HeldOn(b)) + OneBucket(b)(share)
    ensures Sum(Extend(rows, share), RowHold()) == Sum(rows, RowHold()) + share.reserved
  {
    var i := RowOf(rows, share.bucketId);
    if i < |rows| {
      var row := rows[i].(reserved := rows[i].reserved + share.reserved);
      SumUpdate(rows, i, row, HeldOn(b));
      SumUpdate(rows, i, row, RowHold());
      assert RowInv(buckets, userId, rows[i]);
      var extended := Extend(rows, share);
      forall k | 0 <= k < |rows| ensures RowInv(buckets, userId, extended[k]) {
        assert RowInv(buckets, userId, rows[k]);
      }
    } else {
      SumLast(rows, ToRow(share), HeldOn(b));
      SumLast(rows, ToRow(share), RowHold());
    }
  }

  lemma {:induction false} ExtendAllKeepsRows(buckets: seq<Bucket>, userId: string, rows: seq<AllocationRow>, extra: seq<Share>, b: nat)
    requires RowsInv(buckets, userId, rows) && Unsettled(rows)
    requires forall x :: x in extra ==> x.reserved > 0 && x.bucketId < |buckets| && buckets[x.bucketId].userId == userId
    ensures RowsInv(buckets, userId, ExtendAll(rows, extra)) && Unsettled(ExtendAll(rows, extra))
    ensures Sum(ExtendAll(rows, extra), HeldOn(b)) == Sum(rows, HeldOn(b)) + ShareOf(extra, b)
    ensures Sum(ExtendAll(rows, extra), RowHold()) == Sum(rows, RowHold()) + Total(extra)
  {
    if extra != [] {
      var n := |extra| - 1;
      assert extra[n] in extra;
      ExtendAllKeepsRows(buckets, userId, rows, extra[..n], b);
      ExtendKeepsRows(buckets, userId, ExtendAll(rows, extra[..n]), extra[n], b);
    }
  }

  /** The first n rows are charged exactly what they can hold of the amount. */
  lemma {:induction false} ChargesTotal(rows: seq<AllocationRow>, amount: int, n: nat)
    requires n <= |rows| && amount >= 0 && forall k :: 0 <= k < |rows| ==> rows[k].reserved > 0
    ensures Sum(Settled(rows, amount)[..n], RowCharge()) == Min(amount, Sum(rows[..n], RowHold()))
  {
    if n > 0 {
      ChargesTotal(rows, amount, n - 1);
      SumTake(rows, n - 1, RowHold());
      SumTake(Settled(rows, amount), n - 1, RowCharge());
    }
  }

  lemma SettledKeepsRows(buckets: seq<Bucket>, userId: string, rows: seq<AllocationRow>, amount: int, b: nat)
    requires RowsInv(buckets, userId, rows) && 0 <= amount <= Sum(rows, RowHold())
    ensures RowsInv(buckets, userId, Settled(rows, amount))
    ensures Sum(Settled(rows, amount), RowCharge()) == amount
    ensures Sum(Settled(rows, amount), RowHold()) == Sum(rows, RowHold())
    ensures 0 <= Sum(Settled(rows, amount), ChargedOn(b)) <= Sum(rows, HeldOn(b))
  {
    var done := Settled(rows, amount);
    forall k | 0 <= k < |rows| ensures RowInv(buckets, userId, done[k]) && rows[k].reserved > 0 {
      assert RowInv(buckets, userId, rows[k]);
    }
    ChargesTotal(rows, amount, |rows|);
    assert done[..|rows|] == done && rows[..|rows|] == rows;
    HoldsUnchanged(rows, amount, RowHold());
    HoldsUnchanged(rows, amount, HeldOn(b));
    SumBounded(done, ChargedOn(b), HeldOn(b));
    SumNonNegative(done, ChargedOn(b));
  }

  lemma HoldsUnchanged(rows: seq<AllocationRow>, amount: int, f: AllocationRow -> int)
    requires forall r: AllocationRow, x :: f(r.(settled := x)) == f(r)
    ensures Sum(Settled(rows, amount), f) == Sum(rows, f)
  {
    SumPointwise(Settled(rows, amount), rows, f);
  }

  /** The rows a reservation is closed with. */
  function ClosedRows(r: Reservation, cover: Cover, order: seq<nat>): seq<AllocationRow> {
    Settled(ExtendAll(OrderAllocations(r.rows, order), cover.extra), cover.charged)
  }

  ghost predicate Covers(s: Books, r: Reservation, cover: Cover) {
    && FitsBuckets(s, r.userId, cover.extra)
    && 0 <= cover.charged <= r.estimated + Total(cover.extra)
  }

  lemma ClosedRowsAreSound(s: Books, r: Reservation, cover: Cover, order: seq<nat>, b: nat)
    requires ReservationInv(s.buckets, r) && r.status == ACTIVE && Covers(s, r, cover)
    ensures var rows := ClosedRows(r, cover, order);
            && RowsInv(s.buckets, r.userId, rows)
            && Sum(rows, RowCharge()) == cover.charged
            && Sum(rows, RowHold()) == r.estimated + Total(cover.extra)
            && 0 <= Sum(rows, ChargedOn(b)) <= Sum(r.rows, HeldOn(b)) + ShareOf(cover.extra, b)
  {
    var ordered := OrderAllocations(r.rows, order);
    OrderingKeepsRows(s.buckets, r.userId, r.rows, order);
    assert Unsettled(ordered) by {
      forall k | 0 <= k < |ordered| ensures ordered[k].settled == 0 {
        assert ordered[k] in multiset(r.rows);
      }
    }
    ExtendAllKeepsRows(s.buckets, r.userId, ordered, cover.extra, b);
    SettledKeepsRows(s.buckets, r.userId, ExtendAll(ordered, cover.extra), cover.charged, b);
  }

  lemma CloseKeepsBucket(s: Books, rid: nat, cover: Cover, order: seq<nat>, b: nat)
    requires Inv(s) && rid < |s.reservations| && s.reservations[rid].status == ACTIVE
    requires Covers(s, s.reservations[rid], cover) && b < |s.buckets|
    ensures BucketInv(Close(s, rid, cover, order), b)
  {
    var r := s.reservations[rid];
    assert BucketInv(s, b) && ReservationInv(s.buckets, r);
    var rows := ClosedRows(r, cover, order);
    ClosedRowsAreSound(s, r, cover, order, b);
    var t := Close(s, rid, cover, order);
    SumUpdate(s.reservations, rid, t.reservations[rid], ActiveHold(b));
    SumUpdate(s.reservations, rid, t.reservations[rid], TotalCharge(b));
    ActiveHoldsAreNatural(t.reservations, b);
    assert Sum(r.rows, ChargedOn(b)) == 0 by { SumZero(r.rows, ChargedOn(b)); }
    LedgerOfSettlement(s.ledger, r.userId, rid, rows, b);
    assert TotalCharge(b)(t.reservations[rid]) == Sum(rows, ChargedOn(b));
  }

  lemma LedgerOfSettlement(ledger: seq<LedgerEntry>, userId: string, rid: nat, rows: seq<AllocationRow>, b: nat)
    requires forall k :: 0 <= k < |rows| ==> 0 <= rows[k].settled
    ensures Sum(ledger + SettledEntries(userId, rid, rows), Posted(b)) == Sum(ledger, Posted(b)) - Sum(rows, ChargedOn(b))
    ensures Sum(ledger + SettledEntries(userId, rid, rows), Funded(b)) == Sum(ledger, Funded(b))
  {
    PostingOfSettlement(userId, rid, rows, b);
    SumAppend(ledger, SettledEntries(userId, rid, rows), Posted(b));
    SumAppend(ledger, SettledEntries(userId, rid, rows), Funded(b));
  }

  lemma ActiveHoldsAreNatural(rs: seq<Reservation>, b: nat)
    requires forall i, k :: 0 <= i < |rs| && 0 <= k < |rs[i].rows| ==> 0 <= rs[i].rows[k].reserved
    ensures Sum(rs, ActiveHold(b)) >= 0
  {
    forall i | 0 <= i < |rs| ensures ActiveHold(b)(rs[i]) >= 0 { HoldsAreNatural(rs[i].rows, b); }
    SumNonNegative(rs, ActiveHold(b));
  }

  /** Replacing one reservation by one of the same request keeps the table's own invariants. */
  lemma ReplacedReservation(rs: seq<Reservation>, buckets: seq<Bucket>, after: seq<Bucket>, rid: nat, r: Reservation, all: seq<Reservation>)
    requires rid < |rs| && r.userId == rs[rid].userId && r.requestId == rs[rid].requestId && all == rs[rid := r]
    requires UniqueRequests(rs) && forall i :: 0 <= i < |rs| ==> ReservationInv(buckets, rs[i])
    requires ReservationInv(buckets, r)
    requires |buckets| <= |after| && forall b :: 0 <= b < |buckets| ==> after[b].userId == buckets[b].userId
    ensures UniqueRequests(all)
    ensures forall i :: 0 <= i < |rs| ==> ReservationInv(after, all[i])
  {
    forall i | 0 <= i < |rs| ensures ReservationInv(after, all[i]) {
      ReservationInvCarries(buckets, after, all[i]);
    }
  }

  lemma CloseKeepsInv(s: Books, rid: nat, cover: Cover, order: seq<nat>)
    requires Inv(s) && rid < |s.reservations| && s.reservations[rid].status == ACTIVE
    requires Covers(s, s.reservations[rid], cover)
    ensures Inv(Close(s, rid, cover, order))
  {
    var r, t := s.reservations[rid], Close(s, rid, cover, order);
    assert ReservationInv(s.buckets, r);
    forall b | 0 <= b < |t.buckets| ensures BucketInv(t, b) {
      CloseKeepsBucket(s, rid, cover, order, b);
    }
    ClosedRowsAreSound(s, r, cover, order, 0);
    TotalIsNatural(cover.extra);
    ReplacedReservation(s.reservations, s.buckets, t.buckets, rid, t.reservations[rid], t.reservations);
    var rows := ClosedRows(r, cover, order);
    assert forall k :: 0 <= k < |rows| ==> RowInv(s.buckets, r.userId, rows[k]);
    SettlementInRange(r.userId, rid, rows, |s.buckets|);
  }

  lemma TotalIsNatural(shares: seq<Share>)
    requires forall x :: x in shares ==> x.reserved > 0
    ensures Total(shares) >= 0
  {
    forall k | 0 <= k < |shares| ensures AnyBucket()(shares[k]) >= 0 { assert shares[k] in shares; }
    SumNonNegative(shares, AnyBucket());
  }

  lemma NoExtraFits(s: Books, userId: string)
    requires Inv(s)
    ensures FitsBuckets(s, userId, [])
  {
    forall b | 0 <= b < |s.buckets| ensures 0 <= ShareOf([], b) <= Available(s.buckets[b]) {
      assert BucketInv(s, b);
    }
  }

  lemma CoverIsSound(s: Books, rid: nat, actual: int, lockNow: int, order: seq<nat>, now: int)
    requires Inv(s) && rid < |s.reservations| && actual >= 0
    requires IsLockOrder(s, s.reservations[rid].userId, BucketIds(s.reservations[rid].rows), lockNow, order)
    ensures Covers(s, s.reservations[rid], CoverActual(Rows(s.buckets, order), s.reservations[rid].estimated, actual, now))
  {
    var r := s.reservations[rid];
    assert r.estimated > 0 by { assert ReservationInv(s.buckets, r); }
    ExtraFits(s, r.userId, BucketIds(r.rows), actual - r.estimated, lockNow, order, now);
    NoExtraFits(s, r.userId);
  }

  lemma ExtraFits(s: Books, userId: string, named: set<nat>, extra: int, lockNow: int, order: seq<nat>, now: int)
    requires Inv(s) && IsLockOrder(s, userId, named, lockNow, order)
    ensures var plan := Plan(SpendableBuckets(Rows(s.buckets, order), now), extra);
            plan.Some? ==> FitsBuckets(s, userId, plan.value) && Total(plan.value) == extra
  {
    var rows := Rows(s.buckets, order);
    LockedRowsAreDistinct(s, userId, named, lockNow, order);
    SpendableIsPart(rows, now);
    if Plan(SpendableBuckets(rows, now), extra).Some? {
      PlanFits(s, userId, SpendableBuckets(rows, now), extra);
    }
  }

  lemma SettleKeepsInv(s: Books, userId: string, rid: nat, actual: int, lockNow: int, order: seq<nat>, now: int)
    requires Inv(s)
    requires forall i :: 0 <= i < |order| ==> order[i] < |s.buckets|
    requires Owns(s, userId, rid) ==> IsLockOrder(s, userId, BucketIds(s.reservations[rid].rows), lockNow, order)
    ensures Inv(Settle(s, userId, rid, actual, order, now).0)
  {
    if actual >= 0 && Owns(s, userId, rid) && s.reservations[rid].status == ACTIVE {
      CoverIsSound(s, rid, actual, lockNow, order, now);
      CloseKeepsInv(s, rid, CoverActual(Rows(s.buckets, order), s.reservations[rid].estimated, actual, now), order);
    }
  }

  // ---- releaseUsage ----

  lemma ReleaseKeepsBucket(s: Books, userId: string, rid: nat, b: nat)
    requires Inv(s) && Owns(s, userId, rid) && s.reservations[rid].status == ACTIVE && b < |s.buckets|
    ensures BucketInv(Release(s, userId, rid).0, b)
  {
    var t, r := Release(s, userId, rid).0, s.reservations[rid];
    assert BucketInv(s, b) && ReservationInv(s.buckets, r);
    assert Uncharged(r.rows) == r.rows;
    SumUpdate(s.reservations, rid, t.reservations[rid], ActiveHold(b));
    SumUpdate(s.reservations, rid, t.reservations[rid], TotalCharge(b));
    ActiveHoldsAreNatural(t.reservations, b);
    HoldsAreNatural(r.rows, b);
    var es := ReleasedEntries(userId, rid, r.rows);
    NoPosting(es, b);
    SumAppend(s.ledger, es, Posted(b));
    SumAppend(s.ledger, es, Funded(b));
  }

  lemma ReleaseKeepsInv(s: Books, userId: string, rid: nat)
    requires Inv(s)
    ensures Inv(Release(s, userId, rid).0)
  {
    var t := Release(s, userId, rid).0;
    if Owns(s, userId, rid) && s.reservations[rid].status == ACTIVE {
      var r := s.reservations[rid];
      assert ReservationInv(s.buckets, r);
      assert Uncharged(r.rows) == r.rows;
      forall b | 0 <= b < |t.buckets| ensures BucketInv(t, b) {
        ReleaseKeepsBucket(s, userId, rid, b);
      }
      assert r.settled == 0 by { SumZero(r.rows, RowCharge()); }
      ReplacedReservation(s.reservations, s.buckets, t.buckets, rid, t.reservations[rid], t.reservations);
      assert forall k :: 0 <= k < |r.rows| ==> RowInv(s.buckets, r.userId, r.rows[k]);
    }
  }

  // ---- Grants and refunds ----

  lemma {:induction false} NoRowsYet(rows: seq<AllocationRow>, b: nat)
    requires forall k :: 0 <= k < |rows| ==> rows[k].bucketId < b
    ensures Sum(rows, HeldOn(b)) == 0 && Sum(rows, ChargedOn(b)) == 0
  {
    SumZero(rows, HeldOn(b));
    SumZero(rows, ChargedOn(b));
  }

  lemma GrantKeepsInv(s: Books, userId: string, source: Source, amount: int, expiresAt: Option<int>, now: int, paymentId: nat)
    requires Inv(s) && amount >= 0
    ensures Inv(Grant(s, userId, source, amount, expiresAt, now, paymentId))
  {
    var t := Grant(s, userId, source, amount, expiresAt, now, paymentId);
    var id := |s.buckets|;
    var entry := t.ledger[|s.ledger|];
    forall b | 0 <= b < |t.buckets| ensures BucketInv(t, b) {
      SumLast(s.ledger, entry, Posted(b));
      SumLast(s.ledger, entry, Funded(b));
      if b < id {
        assert BucketInv(s, b);
      } else {
        SumZero(s.ledger, Posted(b));
        SumZero(s.ledger, Funded(b));
        forall r | 0 <= r < |s.reservations| ensures ActiveHold(b)(s.reservations[r]) == 0 && TotalCharge(b)(s.reservations[r]) == 0 {
          assert ReservationInv(s.buckets, s.reservations[r]);
          forall k | 0 <= k < |s.reservations[r].rows| ensures s.reservations[r].rows[k].bucketId < b {
            assert RowInv(s.buckets, s.reservations[r].userId, s.reservations[r].rows[k]);
          }
          NoRowsYet(s.reservations[r].rows, b);
        }
        SumZero(s.reservations, ActiveHold(b));
        SumZero(s.reservations, TotalCharge(b));
      }
    }
    forall r | 0 <= r < |s.reservations| ensures ReservationInv(t.buckets, s.reservations[r]) {
      ReservationInvCarries(s.buckets, t.buckets, s.reservations[r]);
    }
  }

  lemma PostingOfRevoke(userId: string, b: nat, paymentId: nat, revoke: int, requested: int, c: nat)
    requires 0 <= revoke
    ensures Sum(RevokeEntries(userId, b, paymentId, revoke, requested), Posted(c)) == if c == b then -revoke else 0
    ensures Sum(RevokeEntries(userId, b, paymentId, revoke, requested), Funded(c)) == if c == b then -revoke else 0
  {
    var taken := LedgerEntry(userId, Some(b), None, Some(paymentId), BUCKET_REVOKED, -revoke);
    var short := LedgerEntry(userId, Some(b), None, Some(paymentId), ADJUSTMENT, 0);
    SumOfTwo(revoke > 0, taken, revoke < requested, short, Posted(c));
    SumOfTwo(revoke > 0, taken, revoke < requested, short, Funded(c));
  }

  lemma RevokeKeepsBucket(s: Books, userId: string, b: nat, requested: int, paymentId: nat, c: nat)
    requires Inv(s) && b < |s.buckets| && requested >= 0 && c < |s.buckets|
    ensures BucketInv(Revoke(s, userId, b, requested, paymentId), c)
  {
    var revoke := Revocable(s.buckets[b], requested);
    assert BucketInv(s, b) && BucketInv(s, c);
    var es := RevokeEntries(userId, b, paymentId, revoke, requested);
    PostingOfRevoke(userId, b, paymentId, revoke, requested, c);
    SumAppend(s.ledger, es, Posted(c));
    SumAppend(s.ledger, es, Funded(c));
  }

  lemma RevokeKeepsInv(s: Books, userId: string, b: nat, requested: int, paymentId: nat)
    requires Inv(s) && b < |s.buckets| && requested >= 0
    ensures Inv(Revoke(s, userId, b, requested, paymentId))
  {
    var t := Revoke(s, userId, b, requested, paymentId);
    forall c | 0 <= c < |t.buckets| ensures BucketInv(t, c) {
      RevokeKeepsBucket(s, userId, b, requested, paymentId, c);
    }
    forall r | 0 <= r < |s.reservations| ensures ReservationInv(t.buckets, s.reservations[r]) {
      ReservationInvCarries(s.buckets, t.buckets, s.reservations[r]);
    }
  }
}
