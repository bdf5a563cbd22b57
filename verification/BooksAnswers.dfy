/** What the usage books answer, and which buckets they use first (packages/billing/src/billing-engine.ts, allocation.ts). */
module BooksAnswers {
  import opened Basics
  import opened Money
  import opened Allocation
  import opened Books
  import opened BooksInvariant
  import opened BooksLaws
  import Sorting

  // ---- Which bucket is used first ----

  /**
   * Monthly usage is used before top-ups; of one kind, what expires before what does not, what expires earlier
   * first, and at the same expiry the older bucket.
   */
  predicate UsedFirst(x: Bucket, y: Bucket) {
    || (x.kind == MONTHLY && y.kind == TOPUP)
    || (x.kind == y.kind &&
        (|| (x.expiresAt.Some? && y.expiresAt.None?)
         || (x.expiresAt.Some? && y.expiresAt.Some? && x.expiresAt.value < y.expiresAt.value)
         || (x.expiresAt == y.expiresAt && x.createdAt < y.createdAt)))
  }

  lemma PriorityTells(x: Bucket, y: Bucket)
    ensures CompareBucketPriority(x, y) < 0 <==> UsedFirst(x, y)
  {}

  lemma SortedPositions(ordered: seq<Bucket>, x: Bucket, y: Bucket) returns (i: nat, j: nat)
    requires Sorting.SortedBy(Before, ordered) && x in ordered && y in ordered && UsedFirst(x, y)
    ensures i < j < |ordered| && ordered[i] == x && ordered[j] == y
  {
    i :| 0 <= i < |ordered| && ordered[i] == x;
    j :| 0 <= j < |ordered| && ordered[j] == y;
    PriorityTells(x, y);
    PriorityTells(y, x);
    assert j < i ==> Before(ordered[j], ordered[i]);
  }

  /** A plan touches a bucket only once every bucket that is used before it is drained. */
  lemma FirstIsDrained(buckets: seq<Bucket>, amount: int, x: Bucket, y: Bucket)
    requires DistinctIds(buckets) && x in buckets && y in buckets && UsedFirst(x, y)
    requires Plan(buckets, amount).Some? && ShareOf(Plan(buckets, amount).value, y.id) > 0
    ensures ShareOf(Plan(buckets, amount).value, x.id) == Spendable(x)
  {
    PlanIsExact(buckets, amount);
    SortKeepsIds(buckets);
    var i, j := SortedPositions(ByPriority(buckets), x, y);
  }

  // ---- What is there to spend ----

  predicate Unexpired(b: Bucket, now: int) { match b.expiresAt case None => true case Some(at) => at > now }

  /** What a bucket adds to its user's spendable usage: all that is neither spent nor held, until it expires. */
  lemma SpareTells(s: Books, b: nat, userId: string, now: int)
    requires Inv(s) && b < |s.buckets|
    ensures var k := s.buckets[b];
            LiveSpend(userId, now)(k) == if k.userId == userId && Unexpired(k, now) then k.total - k.spent - k.reserved else 0
  {
    assert BucketInv(s, b);
  }

  // ---- reserveUsage ----

  /** A request that reserved already is found with the same amount while it is active; otherwise it is in conflict. */
  lemma ReserveAgainAnswers(s: Books, userId: string, requestId: string, amount: int, i: nat, order: seq<nat>)
    requires (forall k :: 0 <= k < |order| ==> order[k] < |s.buckets|) && UniqueRequests(s.reservations) && amount > 0
    requires i < |s.reservations| && s.reservations[i].userId == userId && s.reservations[i].requestId == requestId
    ensures Reserve(s, userId, requestId, amount, order) ==
            (s, if s.reservations[i].status == ACTIVE && s.reservations[i].estimated == amount then Ok(i) else Err(RESERVATION_CONFLICT))
  {
    var f := Find(s.reservations, userId, requestId);
    assert f.Some?;
  }

  /**
   * A new request is granted exactly when its amount is positive and the user's unexpired buckets together still have
   * it. It then holds exactly the amount, in the user's own unexpired buckets; otherwise nothing changes.
   */
  lemma ReserveGrantsIff(s: Books, userId: string, requestId: string, amount: int, now: int, order: seq<nat>)
    requires Inv(s) && IsLockOrder(s, userId, {}, now, order) && Find(s.reservations, userId, requestId).None?
    ensures var (t, r) := Reserve(s, userId, requestId, amount, order);
            if 0 < amount <= Spare(s, userId, now)
            then r == Ok(|s.reservations|) && HeldFor(s, t, userId, requestId, amount, now)
            else t == s && r == Err(INSUFFICIENT_USAGE)
  {
    var rows := Rows(s.buckets, order);
    LockedRowsAreDistinct(s, userId, {}, now, order);
    LockedSpare(s, userId, {}, now, order, now);
    AllSpendable(rows, now);
    PlanIsExact(rows, amount);
    if Plan(rows, amount).Some? { GrantedRows(s, userId, requestId, amount, now, order); }
  }

  lemma {:induction false} AllSpendable(rows: seq<Bucket>, now: int)
    requires forall k :: 0 <= k < |rows| ==> Live(rows[k], now)
    ensures SpendableBuckets(rows, now) == rows
  {
    if rows != [] {
      AllSpendable(rows[..|rows| - 1], now);
      assert rows == rows[..|rows| - 1] + [rows[|rows| - 1]];
    }
  }

  /** The ledger gained one entry of this kind, without an amount, for every row. */
  ghost predicate PostsRows(s: Books, t: Books, userId: string, rid: nat, rows: seq<AllocationRow>, kind: LedgerKind) {
    && |t.ledger| == |s.ledger| + |rows| && s.ledger <= t.ledger
    && forall k :: 0 <= k < |rows| ==>
         t.ledger[|s.ledger| + k] == LedgerEntry(userId, Some(rows[k].bucketId), Some(rid), None, kind, 0)
  }

  /** The new reservation holds the amount in unexpired buckets of its user, which hold that much more, and is posted. */
  ghost predicate HeldFor(s: Books, t: Books, userId: string, requestId: string, amount: int, now: int) {
    && |t.reservations| == |s.reservations| + 1 && t.reservations[..|s.reservations|] == s.reservations && |t.buckets| == |s.buckets|
    && var r := t.reservations[|s.reservations|];
       && r.userId == userId && r.requestId == requestId && r.estimated == amount && r.settled == 0 && r.status == ACTIVE
       && Sum(r.rows, RowHold()) == amount
       && (forall k :: 0 <= k < |r.rows| ==> RowFor(s, r.rows[k], userId, now))
       && (forall b :: 0 <= b < |s.buckets| ==> t.buckets[b] == s.buckets[b].(reserved := s.buckets[b].reserved + Sum(r.rows, HeldOn(b))))
       && PostsRows(s, t, userId, |s.reservations|, r.rows, RESERVATION_CREATED)
  }

  ghost predicate RowFor(s: Books, row: AllocationRow, userId: string, now: int) {
    row.bucketId < |s.buckets| && s.buckets[row.bucketId].userId == userId && Unexpired(s.buckets[row.bucketId], now) && row.reserved > 0
  }

  lemma IdIsPosition(s: Books, b: nat)
    requires Inv(s) && b < |s.buckets|
    ensures s.buckets[b].id == b
  {
    assert BucketInv(s, b);
  }

  lemma PlannedShares(rows: seq<Bucket>, amount: int, share: Share) returns (i: nat)
    requires DistinctIds(rows) && Plan(rows, amount).Some? && share in Plan(rows, amount).value
    ensures i < |rows| && rows[i].id == share.bucketId && share.reserved > 0
  {
    PlanIsExact(rows, amount);
    var b :| b in rows && b.id == share.bucketId;
    i :| 0 <= i < |rows| && rows[i] == b;
  }

  /** Every share is of a locked bucket, which is the user's own and unexpired. */
  lemma ShareIsFor(s: Books, userId: string, amount: int, now: int, order: seq<nat>, share: Share)
    requires Inv(s) && IsLockOrder(s, userId, {}, now, order) && Plan(Rows(s.buckets, order), amount).Some?
    requires share in Plan(Rows(s.buckets, order), amount).value
    ensures RowFor(s, ToRow(share), userId, now)
  {
    var rows := Rows(s.buckets, order);
    LockedRowsAreDistinct(s, userId, {}, now, order);
    var i := PlannedShares(rows, amount, share);
    assert order[i] in order && Locks(s.buckets[order[i]], userId, {}, now);
    IdIsPosition(s, order[i]);
  }

  lemma GrantedRows(s: Books, userId: string, requestId: string, amount: int, now: int, order: seq<nat>)
    requires Inv(s) && IsLockOrder(s, userId, {}, now, order) && Find(s.reservations, userId, requestId).None?
    requires amount > 0 && Plan(Rows(s.buckets, order), amount).Some?
    ensures HeldFor(s, Reserve(s, userId, requestId, amount, order).0, userId, requestId, amount, now)
  {
    var shares := Plan(Rows(s.buckets, order), amount).value;
    var t := Reserve(s, userId, requestId, amount, order).0;
    assert t == Reserved(s, userId, requestId, amount, shares);
    ReserveKeepsInv(s, userId, requestId, amount, now, order);
    var r := t.reservations[|s.reservations|];
    assert ReservationInv(t.buckets, r);
    forall k | 0 <= k < |r.rows| ensures RowFor(s, r.rows[k], userId, now) {
      ShareIsFor(s, userId, amount, now, order, shares[k]);
    }
    forall b | 0 <= b < |s.buckets| ensures ShareOf(shares, b) == Sum(r.rows, HeldOn(b)) { HoldOfShares(shares, b); }
  }

  // ---- settleUsage and releaseUsage ----

  /** Why a settlement is refused: a negative cost, an unknown reservation, or one that was closed otherwise; refused, nothing changes. */
  lemma SettleRefuses(s: Books, userId: string, rid: nat, actual: int, order: seq<nat>, now: int)
    requires forall k :: 0 <= k < |order| ==> order[k] < |s.buckets|
    ensures var (t, r) := Settle(s, userId, rid, actual, order, now);
            && (r.Err? ==> t == s)
            && (actual < 0 ==> r == Err(FINANCIAL_OPERATION_FAILED))
            && (actual >= 0 && !(rid < |s.reservations| && s.reservations[rid].userId == userId) ==> r == Err(RESERVATION_NOT_FOUND))
            && (actual >= 0 && rid < |s.reservations| && s.reservations[rid].userId == userId ==>
                  match s.reservations[rid].status
                  case ACTIVE => r == Ok(rid)
                  case SETTLED => r == (if s.reservations[rid].settled == actual then Ok(rid) else Err(RESERVATION_CONFLICT)) && t == s
                  case RELEASED => r == Err(RESERVATION_ALREADY_RELEASED)
                  case ANOMALY => r == Err(RESERVATION_CONFLICT))
  {}

  /** These entries tell what became of a row's hold: they post what it was charged, if anything, and what was freed, if anything. */
  predicate TellsRow(es: seq<LedgerEntry>, userId: string, rid: nat, row: AllocationRow) {
    && (LedgerEntry(userId, Some(row.bucketId), Some(rid), None, USAGE_SETTLED, -row.settled) in es <==> row.settled > 0)
    && (LedgerEntry(userId, Some(row.bucketId), Some(rid), None, RESERVATION_RELEASED, 0) in es <==> row.settled < row.reserved)
  }

  lemma {:induction false} EntriesOfRows(userId: string, rid: nat, rows: seq<AllocationRow>, e: LedgerEntry)
    ensures e in SettledEntries(userId, rid, rows) <==> exists k :: 0 <= k < |rows| && e in RowEntries(userId, rid, rows[k])
  {
    if rows != [] {
      var n := |rows| - 1;
      EntriesOfRows(userId, rid, rows[..n], e);
      if e in RowEntries(userId, rid, rows[n]) { assert n < |rows|; }
      if k :| 0 <= k < n && e in RowEntries(userId, rid, rows[..n][k]) { assert e in RowEntries(userId, rid, rows[k]); }
      if k :| 0 <= k < |rows| && e in RowEntries(userId, rid, rows[k]) { if k < n { assert e in RowEntries(userId, rid, rows[..n][k]); } }
    }
  }

  lemma RowsAreTold(userId: string, rid: nat, rows: seq<AllocationRow>, k: nat)
    requires DistinctRows(rows) && k < |rows|
    ensures TellsRow(SettledEntries(userId, rid, rows), userId, rid, rows[k])
  {
    var settled := LedgerEntry(userId, Some(rows[k].bucketId), Some(rid), None, USAGE_SETTLED, -rows[k].settled);
    var freed := LedgerEntry(userId, Some(rows[k].bucketId), Some(rid), None, RESERVATION_RELEASED, 0);
    EntriesOfRows(userId, rid, rows, settled);
    EntriesOfRows(userId, rid, rows, freed);
    if rows[k].settled > 0 { assert settled in RowEntries(userId, rid, rows[k]); }
    if rows[k].settled < rows[k].reserved { assert freed in RowEntries(userId, rid, rows[k]); }
  }

  /** A settlement posts, for every bucket the reservation held, exactly what it is charged and that the rest is freed. */
  lemma SettlementIsPosted(s: Books, userId: string, rid: nat, actual: int, lockNow: int, order: seq<nat>, now: int)
    requires Inv(s) && Owns(s, userId, rid) && s.reservations[rid].status == ACTIVE && actual >= 0
    requires IsLockOrder(s, userId, BucketIds(s.reservations[rid].rows), lockNow, order) && lockNow <= now
    ensures var t := Settle(s, userId, rid, actual, order, now).0;
            && s.ledger <= t.ledger && rid < |t.reservations|
            && forall k :: 0 <= k < |t.reservations[rid].rows| ==> TellsRow(t.ledger[|s.ledger|..], userId, rid, t.reservations[rid].rows[k])
  {
    var t := Settle(s, userId, rid, actual, order, now).0;
    var rows := t.reservations[rid].rows;
    SettleKeepsInv(s, userId, rid, actual, lockNow, order, now);
    assert ReservationInv(t.buckets, t.reservations[rid]);
    assert t.ledger[|s.ledger|..] == SettledEntries(userId, rid, rows);
    forall k | 0 <= k < |rows| ensures TellsRow(t.ledger[|s.ledger|..], userId, rid, rows[k]) { RowsAreTold(userId, rid, rows, k); }
  }

  /** A release frees an active reservation and nothing else; it may be repeated, and refuses what was settled. */
  lemma ReleaseAnswers(s: Books, userId: string, rid: nat)
    requires Inv(s)
    ensures var (t, r) := Release(s, userId, rid);
            if !(rid < |s.reservations| && s.reservations[rid].userId == userId) then t == s && r == Err(RESERVATION_NOT_FOUND)
            else match s.reservations[rid].status
                 case ACTIVE => r == Ok(rid) && Freed(s, t, rid)
                 case RELEASED => r == Ok(rid) && t == s
                 case _ => r == Err(RESERVATION_ALREADY_SETTLED) && t == s
  {
    if rid < |s.reservations| { assert ReservationInv(s.buckets, s.reservations[rid]); }
  }

  ghost predicate Freed(s: Books, t: Books, rid: nat) {
    && rid < |s.reservations| == |t.reservations| && |t.buckets| == |s.buckets|
    && t.reservations[rid].status == RELEASED && t.reservations[rid].settled == 0
    && t.reservations == s.reservations[rid := t.reservations[rid]]
    && PostsRows(s, t, s.reservations[rid].userId, rid, s.reservations[rid].rows, RESERVATION_RELEASED)
    && forall b :: 0 <= b < |s.buckets| ==>
         t.buckets[b] == s.buckets[b].(reserved := s.buckets[b].reserved - Sum(s.reservations[rid].rows, HeldOn(b)))
  }
}
