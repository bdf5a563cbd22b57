/**
 * The usage books: buckets, reservations with their allocations, and the ledger, as values.
 * Every operation of packages/billing/src/billing-engine.ts on them is one function from the
 * books before its transaction to the books after it.
 */
module Books {
  import opened Basics
  import opened Allocation
  import Sorting

  datatype ReservationStatus = ACTIVE | SETTLED | RELEASED | ANOMALY

  /** One row of usage_reservation_allocation; rows are grouped under their reservation. */
  datatype AllocationRow = AllocationRow(bucketId: nat, reserved: int, settled: int)

  datatype Reservation = Reservation(userId: string, requestId: string, estimated: int, settled: int,
                                     status: ReservationStatus, rows: seq<AllocationRow>)

  datatype LedgerKind = BUCKET_GRANTED | TOPUP_GRANTED | BUCKET_REVOKED | RESERVATION_CREATED
                      | USAGE_SETTLED | RESERVATION_RELEASED | ADJUSTMENT

  datatype LedgerEntry = LedgerEntry(userId: string, bucketId: Option<nat>, reservationId: Option<nat>,
                                     paymentId: Option<nat>, kind: LedgerKind, amount: int)

  /** Rows are never deleted, so a row's id is its position in the table. */
  datatype Books = Books(buckets: seq<Bucket>, reservations: seq<Reservation>, ledger: seq<LedgerEntry>)

  datatype BillingError = INSUFFICIENT_USAGE | RESERVATION_CONFLICT | RESERVATION_NOT_FOUND
                        | RESERVATION_ALREADY_RELEASED | RESERVATION_ALREADY_SETTLED
                        | FINANCIAL_OPERATION_FAILED | PAYMENT_NOT_FOUND | PAYMENT_RECONCILIATION_REQUIRED
                        | PLAN_NOT_FOUND | SUBSCRIPTION_ALREADY_ACTIVE
                        | UNIQUE_VIOLATION | INVALID_BUDGET_INPUTS

  // ---- Locked rows ----

  predicate Live(b: Bucket, now: int) { b.expiresAt.None? || b.expiresAt.value > now }

  predicate Locks(b: Bucket, userId: string, named: set<nat>, now: int) {
    b.userId == userId && (b.id in named || Live(b, now))
  }

  /**
   * An order in which the database may return the locked buckets of a user: each matching
   * row once, by priority, ties in any order.
   */
  ghost predicate IsLockOrder(s: Books, userId: string, named: set<nat>, now: int, order: seq<nat>) {
    && (forall i :: 0 <= i < |order| ==> order[i] < |s.buckets|)
    && (forall i, j :: 0 <= i < j < |order| ==> order[i] != order[j])
    && (forall i, j :: 0 <= i < j < |order| ==> Before(s.buckets[order[i]], s.buckets[order[j]]))
    && (forall b :: 0 <= b < |s.buckets| ==> (b in order <==> Locks(s.buckets[b], userId, named, now)))
  }

  function Rows(buckets: seq<Bucket>, order: seq<nat>): (rows: seq<Bucket>)
    requires forall i :: 0 <= i < |order| ==> order[i] < |buckets|
    ensures |rows| == |order| && forall i :: 0 <= i < |rows| ==> rows[i] == buckets[order[i]]
  {
    seq(|order|, i requires 0 <= i < |order| => buckets[order[i]])
  }

  function BucketIds(rows: seq<AllocationRow>): set<nat> { set r | r in rows :: r.bucketId }

  // ---- Sums over rows ----

  function HeldOn(b: nat): AllocationRow -> int { (r: AllocationRow) => if r.bucketId == b then r.reserved else 0 }

  function ChargedOn(b: nat): AllocationRow -> int { (r: AllocationRow) => if r.bucketId == b then r.settled else 0 }

  function RowHold(): AllocationRow -> int { (r: AllocationRow) => r.reserved }

  function RowCharge(): AllocationRow -> int { (r: AllocationRow) => r.settled }

  function ActiveHold(b: nat): Reservation -> int {
    (r: Reservation) => if r.status == ACTIVE then Sum(r.rows, HeldOn(b)) else 0
  }

  function TotalCharge(b: nat): Reservation -> int { (r: Reservation) => Sum(r.rows, ChargedOn(b)) }

  function Posted(b: nat): LedgerEntry -> int { (e: LedgerEntry) => if e.bucketId == Some(b) then e.amount else 0 }

  predicate IsFunding(kind: LedgerKind) { kind in {BUCKET_GRANTED, TOPUP_GRANTED, BUCKET_REVOKED} }

  function Funded(b: nat): LedgerEntry -> int {
    (e: LedgerEntry) => if e.bucketId == Some(b) && IsFunding(e.kind) then e.amount else 0
  }

  // ---- The invariant that ties the four tables together ----

  ghost predicate BucketInv(s: Books, b: nat)
    requires b < |s.buckets|
  {
    var k := s.buckets[b];
    && k.id == b
    && 0 <= k.spent && 0 <= k.reserved && k.spent + k.reserved <= k.total
    && k.reserved == Sum(s.reservations, ActiveHold(b))
    && k.spent == Sum(s.reservations, TotalCharge(b))
    && Sum(s.ledger, Posted(b)) == k.total - k.spent
    && Sum(s.ledger, Funded(b)) == k.total
  }

  ghost predicate DistinctRows(rows: seq<AllocationRow>) {
    forall i, j :: 0 <= i < j < |rows| ==> rows[i].bucketId != rows[j].bucketId
  }

  ghost predicate RowInv(buckets: seq<Bucket>, userId: string, row: AllocationRow) {
    && row.bucketId < |buckets| && buckets[row.bucketId].userId == userId
    && 0 < row.reserved && 0 <= row.settled <= row.reserved
  }

  ghost predicate ReservationInv(buckets: seq<Bucket>, r: Reservation) {
    && r.estimated > 0
    && DistinctRows(r.rows)
    && (forall k :: 0 <= k < |r.rows| ==> RowInv(buckets, r.userId, r.rows[k]))
    && r.estimated == Sum(r.rows, RowHold())
    && r.settled == Sum(r.rows, RowCharge())
    && (r.status in {ACTIVE, RELEASED} ==> forall k :: 0 <= k < |r.rows| ==> r.rows[k].settled == 0)
  }

  ghost predicate UniqueRequests(rs: seq<Reservation>) {
    forall i, j :: 0 <= i < j < |rs| ==> !(rs[i].userId == rs[j].userId && rs[i].requestId == rs[j].requestId)
  }

  ghost predicate Inv(s: Books) {
    && (forall b :: 0 <= b < |s.buckets| ==> BucketInv(s, b))
    && (forall r :: 0 <= r < |s.reservations| ==> ReservationInv(s.buckets, s.reservations[r]))
    && UniqueRequests(s.reservations)
    && (forall e :: 0 <= e < |s.ledger| ==> s.ledger[e].bucketId.Some? ==> s.ledger[e].bucketId.value < |s.buckets|)
  }

  // ---- reserveUsage ----

  /** The reservation of a request, by its unique key. */
  function Find(rs: seq<Reservation>, userId: string, requestId: string): (i: Option<nat>)
    ensures i.Some? ==> i.value < |rs| && rs[i.value].userId == userId && rs[i.value].requestId == requestId
    ensures i.None? ==> forall k :: 0 <= k < |rs| ==> !(rs[k].userId == userId && rs[k].requestId == requestId)
  {
    if rs == [] then None
    else
      var n := |rs| - 1;
      if rs[n].userId == userId && rs[n].requestId == requestId then Some(n)
      else Find(rs[..n], userId, requestId)
  }

  function ToRow(s: Share): AllocationRow { AllocationRow(s.bucketId, s.reserved, 0) }

  function ToRows(shares: seq<Share>): (rows: seq<AllocationRow>)
    ensures |rows| == |shares| && forall i :: 0 <= i < |rows| ==> rows[i] == ToRow(shares[i])
  {
    seq(|shares|, i requires 0 <= i < |shares| => ToRow(shares[i]))
  }

  function CreatedEntries(userId: string, rid: nat, shares: seq<Share>): (es: seq<LedgerEntry>)
    ensures |es| == |shares|
    ensures forall i :: 0 <= i < |es| ==>
              es[i] == LedgerEntry(userId, Some(shares[i].bucketId), Some(rid), None, RESERVATION_CREATED, 0)
  {
    seq(|shares|, i requires 0 <= i < |shares| =>
      LedgerEntry(userId, Some(shares[i].bucketId), Some(rid), None, RESERVATION_CREATED, 0))
  }

  /** Every bucket with its holds moved by `held` and its spending by `charged`. */
  function Post(buckets: seq<Bucket>, held: nat -> int, charged: nat -> int): (r: seq<Bucket>)
    ensures |r| == |buckets|
    ensures forall b :: 0 <= b < |r| ==>
              r[b] == buckets[b].(reserved := buckets[b].reserved + held(b), spent := buckets[b].spent + charged(b))
  {
    seq(|buckets|, b requires 0 <= b < |buckets| =>
      buckets[b].(reserved := buckets[b].reserved + held(b), spent := buckets[b].spent + charged(b)))
  }

  function Nothing(): nat -> int { (b: nat) => 0 }

  function SharesFor(shares: seq<Share>): nat -> int { (b: nat) => ShareOf(shares, b) }

  function Unheld(rows: seq<AllocationRow>): nat -> int { (b: nat) => -Sum(rows, HeldOn(b)) }

  function Charges(rows: seq<AllocationRow>): nat -> int { (b: nat) => Sum(rows, ChargedOn(b)) }

  function Reserved(s: Books, userId: string, requestId: string, estimated: int, shares: seq<Share>): Books {
    Books(Post(s.buckets, SharesFor(shares), Nothing()),
          s.reservations + [Reservation(userId, requestId, estimated, 0, ACTIVE, ToRows(shares))],
          s.ledger + CreatedEntries(userId, |s.reservations|, shares))
  }

  function Reserve(s: Books, userId: string, requestId: string, estimated: int, order: seq<nat>)
    : (Books, Result<nat, BillingError>)
    requires forall i :: 0 <= i < |order| ==> order[i] < |s.buckets|
  {
    if estimated <= 0 then (s, Err(INSUFFICIENT_USAGE))
    else
      match Find(s.reservations, userId, requestId)
      case Some(i) =>
        var existing := s.reservations[i];
        if existing.status == ACTIVE && existing.estimated == estimated then (s, Ok(i))
        else (s, Err(RESERVATION_CONFLICT))
      case None =>
        match Plan(Rows(s.buckets, order), estimated)
        case None => (s, Err(INSUFFICIENT_USAGE))
        case Some(shares) =>
          (Reserved(s, userId, requestId, estimated, shares), Ok(|s.reservations|))
  }

  // ---- settleUsage ----

  /** orderAllocations: rows by the position of their bucket in the lock order. */
  function Rank(order: seq<nat>, b: nat): nat {
    if b in order then IndexIn(order, b) else 0
  }

  function IndexIn(order: seq<nat>, b: nat): (i: nat)
    requires b in order
    ensures i < |order| && order[i] == b
  {
    if order[0] == b then 0 else 1 + IndexIn(order[1..], b)
  }

  function ByRank(order: seq<nat>): (AllocationRow, AllocationRow) -> bool {
    (l: AllocationRow, r: AllocationRow) => Rank(order, l.bucketId) <= Rank(order, r.bucketId)
  }

  function OrderAllocations(rows: seq<AllocationRow>, order: seq<nat>): seq<AllocationRow> {
    Sorting.StableSort(ByRank(order), rows)
  }

  /** spendableBuckets: the locked buckets that have not expired at the second clock reading. */
  function SpendableBuckets(rows: seq<Bucket>, now: int): seq<Bucket> {
    if rows == [] then []
    else
      var n := |rows| - 1;
      if Live(rows[n], now) then SpendableBuckets(rows[..n], now) + [rows[n]] else SpendableBuckets(rows[..n], now)
  }

  /** The position of a bucket's row, or the number of rows when it has none. */
  function RowOf(rows: seq<AllocationRow>, b: nat): (i: nat)
    ensures i <= |rows|
    ensures i < |rows| ==> rows[i].bucketId == b
    ensures forall k :: 0 <= k < i ==> rows[k].bucketId != b
  {
    if rows == [] then 0 else if rows[0].bucketId == b then 0 else 1 + RowOf(rows[1..], b)
  }

  /** Adds one extra share to the row of its bucket, or as a new row behind the others. */
  function Extend(rows: seq<AllocationRow>, share: Share): seq<AllocationRow> {
    var i := RowOf(rows, share.bucketId);
    if i < |rows| then rows[i := rows[i].(reserved := rows[i].reserved + share.reserved)]
    else rows + [ToRow(share)]
  }

  function ExtendAll(rows: seq<AllocationRow>, shares: seq<Share>): seq<AllocationRow> {
    if shares == [] then rows
    else Extend(ExtendAll(rows, shares[..|shares| - 1]), shares[|shares| - 1])
  }

  /** Row k is charged what the rows before it could not hold, up to its own hold. */
  function Charge(rows: seq<AllocationRow>, amount: int, k: nat): int
    requires k < |rows|
  {
    Max(0, Min(rows[k].reserved, amount - Sum(rows[..k], RowHold())))
  }

  function Settled(rows: seq<AllocationRow>, amount: int): (r: seq<AllocationRow>)
    ensures |r| == |rows|
    ensures forall k :: 0 <= k < |r| ==> r[k] == rows[k].(settled := Charge(rows, amount, k))
  {
    seq(|rows|, k requires 0 <= k < |rows| => rows[k].(settled := Charge(rows, amount, k)))
  }

  function RowEntries(userId: string, rid: nat, row: AllocationRow): seq<LedgerEntry> {
    (if row.settled > 0
     then [LedgerEntry(userId, Some(row.bucketId), Some(rid), None, USAGE_SETTLED, -row.settled)] else [])
    + (if row.reserved - row.settled > 0
       then [LedgerEntry(userId, Some(row.bucketId), Some(rid), None, RESERVATION_RELEASED, 0)] else [])
  }

  function SettledEntries(userId: string, rid: nat, rows: seq<AllocationRow>): seq<LedgerEntry> {
    if rows == [] then []
    else SettledEntries(userId, rid, rows[..|rows| - 1]) + RowEntries(userId, rid, rows[|rows| - 1])
  }

  /** How an actual cost is met: the amount charged, the extra shares drawn, and whether it is an anomaly. */
  datatype Cover = Cover(charged: int, extra: seq<Share>, anomaly: bool)

  function CoverExtra(extraPlan: Option<seq<Share>>, estimated: int, actual: int): Cover {
    match extraPlan
    case Some(extra) => Cover(actual, extra, false)
    case None => Cover(estimated, [], true)
  }

  function CoverActual(rows: seq<Bucket>, estimated: int, actual: int, now: int): Cover {
    if actual <= estimated then Cover(actual, [], false)
    else CoverExtra(Plan(SpendableBuckets(rows, now), actual - estimated), estimated, actual)
  }

  function Closed(r: Reservation, cover: Cover, rows: seq<AllocationRow>): Reservation {
    r.(estimated := r.estimated + Total(cover.extra), settled := cover.charged,
       status := if cover.anomaly then ANOMALY else SETTLED, rows := rows)
  }

  function Close(s: Books, rid: nat, cover: Cover, order: seq<nat>): Books
    requires rid < |s.reservations|
  {
    var r := s.reservations[rid];
    var rows := Settled(ExtendAll(OrderAllocations(r.rows, order), cover.extra), cover.charged);
    Books(Post(s.buckets, Unheld(r.rows), Charges(rows)),
          s.reservations[rid := Closed(r, cover, rows)],
          s.ledger + SettledEntries(r.userId, rid, rows))
  }

  predicate Owns(s: Books, userId: string, rid: nat) {
    rid < |s.reservations| && s.reservations[rid].userId == userId
  }

  function Settle(s: Books, userId: string, rid: nat, actual: int, order: seq<nat>, now: int)
    : (Books, Result<nat, BillingError>)
    requires forall i :: 0 <= i < |order| ==> order[i] < |s.buckets|
  {
    if actual < 0 then (s, Err(FINANCIAL_OPERATION_FAILED))
    else if !Owns(s, userId, rid) then (s, Err(RESERVATION_NOT_FOUND))
    else
      var r := s.reservations[rid];
      match r.status
      case SETTLED => if r.settled == actual then (s, Ok(rid)) else (s, Err(RESERVATION_CONFLICT))
      case RELEASED => (s, Err(RESERVATION_ALREADY_RELEASED))
      case ANOMALY => (s, Err(RESERVATION_CONFLICT))
      case ACTIVE => (Close(s, rid, CoverActual(Rows(s.buckets, order), r.estimated, actual, now), order), Ok(rid))
  }

  // ---- releaseUsage ----

  function ReleasedEntries(userId: string, rid: nat, rows: seq<AllocationRow>): (es: seq<LedgerEntry>)
    ensures |es| == |rows|
    ensures forall i :: 0 <= i < |es| ==>
              es[i] == LedgerEntry(userId, Some(rows[i].bucketId), Some(rid), None, RESERVATION_RELEASED, 0)
  {
    seq(|rows|, i requires 0 <= i < |rows| =>
      LedgerEntry(userId, Some(rows[i].bucketId), Some(rid), None, RESERVATION_RELEASED, 0))
  }

  function Uncharged(rows: seq<AllocationRow>): (r: seq<AllocationRow>)
    ensures |r| == |rows| && forall i :: 0 <= i < |r| ==> r[i] == rows[i].(settled := 0)
  {
    seq(|rows|, i requires 0 <= i < |rows| => rows[i].(settled := 0))
  }

  function Release(s: Books, userId: string, rid: nat): (Books, Result<nat, BillingError>) {
    if !Owns(s, userId, rid) then (s, Err(RESERVATION_NOT_FOUND))
    else
      var r := s.reservations[rid];
      match r.status
      case RELEASED => (s, Ok(rid))
      case SETTLED => (s, Err(RESERVATION_ALREADY_SETTLED))
      case ANOMALY => (s, Err(RESERVATION_ALREADY_SETTLED))
      case ACTIVE =>
        (Books(Post(s.buckets, Unheld(r.rows), Nothing()),
               s.reservations[rid := r.(status := RELEASED, settled := 0, rows := Uncharged(r.rows))],
               s.ledger + ReleasedEntries(userId, rid, r.rows)),
         Ok(rid))
  }

  // ---- Grants and refunds ----

  /** The bucket part of grantFromSucceededPayment. */
  function Grant(s: Books, userId: string, source: Source, amount: int, expiresAt: Option<int>, now: int, paymentId: nat)
    : Books
  {
    var id, kind := |s.buckets|, if source.FromSubscription? then MONTHLY else TOPUP;
    Books(s.buckets + [Bucket(id, userId, kind, amount, 0, 0, expiresAt, now, source)], s.reservations,
          s.ledger + [LedgerEntry(userId, Some(id), None, Some(paymentId),
                                  if kind == MONTHLY then BUCKET_GRANTED else TOPUP_GRANTED, amount)])
  }

  /** The part of a refund that can be taken back: never what is spent or held. */
  function Revocable(b: Bucket, requested: int): int { Min(Available(b), requested) }

  function RevokeEntries(userId: string, b: nat, paymentId: nat, revoke: int, requested: int): seq<LedgerEntry> {
    (if revoke > 0 then [LedgerEntry(userId, Some(b), None, Some(paymentId), BUCKET_REVOKED, -revoke)] else [])
    + (if revoke < requested then [LedgerEntry(userId, Some(b), None, Some(paymentId), ADJUSTMENT, 0)] else [])
  }

  /** The bucket part of applyRefundAccounting. */
  function Revoke(s: Books, userId: string, b: nat, requested: int, paymentId: nat): Books
    requires b < |s.buckets|
  {
    var k := s.buckets[b];
    var revoke := Revocable(k, requested);
    Books(if revoke > 0 then s.buckets[b := k.(total := k.total - revoke)] else s.buckets,
          s.reservations,
          s.ledger + RevokeEntries(userId, b, paymentId, revoke, requested))
  }
}
