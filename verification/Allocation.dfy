/** How an amount is spread over usage buckets (packages/billing/src/allocation.ts). */
module Allocation {
  import opened Basics
  import opened Money
  import Sorting

  datatype BucketType = MONTHLY | TOPUP

  /** The unique (sourceType, sourceId) of a bucket. */
  datatype Source = FromSubscription(subscriptionId: nat) | FromPayment(paymentId: nat)

  datatype Bucket = Bucket(id: nat, userId: string, kind: BucketType,
                           total: int, spent: int, reserved: int,
                           expiresAt: Option<int>, createdAt: int, source: Source)

  datatype Share = Share(bucketId: nat, reserved: int)

  function TypeRank(kind: BucketType): int { if kind == MONTHLY then 0 else 1 }

  function CompareBucketPriority(left: Bucket, right: Bucket): int {
    var leftRank, rightRank := TypeRank(left.kind), TypeRank(right.kind);
    if leftRank != rightRank then leftRank - rightRank
    else if left.expiresAt.Some? && right.expiresAt.Some? then
      var byExpiry := left.expiresAt.value - right.expiresAt.value;
      if byExpiry != 0 then byExpiry else left.createdAt - right.createdAt
    else if left.expiresAt.Some? then -1
    else if right.expiresAt.Some? then 1
    else left.createdAt - right.createdAt
  }

  predicate Before(left: Bucket, right: Bucket) { CompareBucketPriority(left, right) <= 0 }

  lemma PriorityIsTotalPreorder()
    ensures Sorting.TotalPreorder(Before)
  {}

  function ByPriority(buckets: seq<Bucket>): seq<Bucket> { Sorting.StableSort(Before, buckets) }

  function Available(b: Bucket): int { AvailableMicroRub(b.total, b.spent, b.reserved) }

  /** What a bucket can give: its availability when that is positive. */
  function Spendable(b: Bucket): nat { Max(Available(b), 0) }

  function ToSpend(): Bucket -> int { (b: Bucket) => Spendable(b) }

  /** Bucket k receives what the buckets before it could not cover, up to its own availability. */
  function Take(ordered: seq<Bucket>, amount: int, k: nat): nat
    requires k < |ordered|
  {
    Max(0, Min(Spendable(ordered[k]), amount - Sum(ordered[..k], ToSpend())))
  }

  /** The shares of the first n buckets, leaving out empty ones. */
  function Shares(ordered: seq<Bucket>, amount: int, n: nat): seq<Share>
    requires n <= |ordered|
  {
    if n == 0 then []
    else
      var earlier, take := Shares(ordered, amount, n - 1), Take(ordered, amount, n - 1);
      if take > 0 then earlier + [Share(ordered[n - 1].id, take)] else earlier
  }

  /** The allocation plan: a complete waterfall in priority order, or nothing. */
  function Plan(buckets: seq<Bucket>, amount: int): Option<seq<Share>> {
    if amount <= 0 || amount > Sum(buckets, ToSpend()) then None
    else Some(Shares(ByPriority(buckets), amount, |buckets|))
  }

  lemma {:induction false} PrefixSumGrows(ordered: seq<Bucket>, j: nat, k: nat)
    requires j <= k <= |ordered|
    ensures Sum(ordered[..j], ToSpend()) <= Sum(ordered[..k], ToSpend())
  {
    if j < k {
      PrefixSumGrows(ordered, j, k - 1);
      SumTake(ordered, k - 1, ToSpend());
    }
  }

  /** Once the amount is covered, the remaining buckets receive nothing. */
  lemma {:induction false} NothingLeft(ordered: seq<Bucket>, amount: int, k: nat, n: nat)
    requires k <= n <= |ordered| && amount <= Sum(ordered[..k], ToSpend())
    ensures Shares(ordered, amount, n) == Shares(ordered, amount, k)
  {
    if k < n {
      NothingLeft(ordered, amount, k, n - 1);
      assert Take(ordered, amount, n - 1) == 0 by { PrefixSumGrows(ordered, k, n - 1); }
    }
  }

  // What a share list gives to one bucket, and in all.

  function OneBucket(id: nat): Share -> int { (s: Share) => if s.bucketId == id then s.reserved else 0 }

  function AnyBucket(): Share -> int { (s: Share) => s.reserved }

  function ShareOf(shares: seq<Share>, id: nat): int { Sum(shares, OneBucket(id)) }

  function Total(shares: seq<Share>): int { Sum(shares, AnyBucket()) }

  ghost predicate DistinctIds(buckets: seq<Bucket>) {
    forall i, j :: 0 <= i < j < |buckets| ==> buckets[i].id != buckets[j].id
  }

  ghost predicate DistinctShares(shares: seq<Share>) {
    forall i, j :: 0 <= i < j < |shares| ==> shares[i].bucketId != shares[j].bucketId
  }

  /** The first n shares hold exactly the part of the amount the first n buckets can cover. */
  lemma {:induction false} SharesTotal(ordered: seq<Bucket>, amount: int, n: nat)
    requires n <= |ordered| && amount >= 0
    ensures Total(Shares(ordered, amount, n)) == Min(amount, Sum(ordered[..n], ToSpend()))
  {
    if n > 0 {
      SharesTotal(ordered, amount, n - 1);
      SumTake(ordered, n - 1, ToSpend());
      var rest := Shares(ordered, amount, n - 1);
      var take := Take(ordered, amount, n - 1);
      if take > 0 {
        SumLast(rest, Share(ordered[n - 1].id, take), AnyBucket());
      }
    }
  }

  /** Every share is positive and comes from one of the first n buckets, in their order. */
  lemma {:induction false} SharesComeFromBuckets(ordered: seq<Bucket>, amount: int, n: nat)
    requires n <= |ordered| && DistinctIds(ordered)
    ensures forall s :: s in Shares(ordered, amount, n) ==> s.reserved > 0 && exists k :: 0 <= k < n && ordered[k].id == s.bucketId
    ensures DistinctShares(Shares(ordered, amount, n))
  {
    if n > 0 {
      SharesComeFromBuckets(ordered, amount, n - 1);
      var rest, all := Shares(ordered, amount, n - 1), Shares(ordered, amount, n);
      forall s | s in all ensures s.reserved > 0 && exists k :: 0 <= k < n && ordered[k].id == s.bucketId {
        if s !in rest { assert ordered[n - 1].id == s.bucketId; }
      }
      forall i, j | 0 <= i < j < |all| ensures all[i].bucketId != all[j].bucketId {
        assert all[i] == rest[i] && rest[i] in rest;
        if j < |rest| { assert rest[j] == all[j]; }
      }
    }
  }

  lemma ShareOfStep(ordered: seq<Bucket>, amount: int, n: nat, id: nat)
    requires n < |ordered|
    ensures ShareOf(Shares(ordered, amount, n + 1), id)
            == ShareOf(Shares(ordered, amount, n), id) + if ordered[n].id == id then Take(ordered, amount, n) else 0
  {
    var take := Take(ordered, amount, n);
    if take > 0 {
      SumLast(Shares(ordered, amount, n), Share(ordered[n].id, take), OneBucket(id));
    }
  }

  /** Bucket k of the priority order is given exactly its part of the waterfall. */
  lemma {:induction false} ShareOfBucket(ordered: seq<Bucket>, amount: int, n: nat, k: nat)
    requires k < |ordered| && n <= |ordered| && DistinctIds(ordered)
    ensures ShareOf(Shares(ordered, amount, n), ordered[k].id) == if k < n then Take(ordered, amount, k) else 0
  {
    if n > 0 {
      ShareOfBucket(ordered, amount, n - 1, k);
      ShareOfStep(ordered, amount, n - 1, ordered[k].id);
    }
  }

  lemma ShareOfAbsent(shares: seq<Share>, id: nat)
    requires forall s :: s in shares ==> s.bucketId != id
    ensures ShareOf(shares, id) == 0
  {
    SumZero(shares, OneBucket(id));
  }

  lemma SortKeepsIds(buckets: seq<Bucket>)
    requires DistinctIds(buckets)
    ensures DistinctIds(ByPriority(buckets))
    ensures forall b :: b in ByPriority(buckets) <==> b in buckets
  {
    var ordered := ByPriority(buckets);
    forall b ensures b in ordered <==> b in buckets {
      assert b in ordered <==> b in multiset(ordered);
      assert b in buckets <==> b in multiset(buckets);
    }
    DistinctFromMultiset(buckets, ordered);
  }

  lemma DistinctFromMultiset(a: seq<Bucket>, b: seq<Bucket>)
    requires DistinctIds(a) && multiset(a) == multiset(b)
    ensures DistinctIds(b)
  {
    forall i, j | 0 <= i < j < |b| ensures b[i].id != b[j].id {
      if b[i].id == b[j].id {
        assert b[i] in multiset(a) && b[j] in multiset(a);
        var p :| 0 <= p < |a| && a[p] == b[i];
        var q :| 0 <= q < |a| && a[q] == b[j];
        assert p == q;
        TwiceInMultiset(b, i, j);
        OnceInMultiset(a, p);
        assert false;
      }
    }
  }

  lemma TwiceInMultiset<T>(s: seq<T>, i: nat, j: nat)
    requires i < j < |s| && s[i] == s[j]
    ensures multiset(s)[s[i]] >= 2
  {
    assert s == s[..i] + [s[i]] + s[i + 1..j] + [s[j]] + s[j + 1..];
  }

  lemma OnceInMultiset(a: seq<Bucket>, p: nat)
    requires p < |a| && DistinctIds(a)
    ensures multiset(a)[a[p]] == 1
  {
    assert a == a[..p] + [a[p]] + a[p + 1..];
    assert a[p] !in a[..p] && a[p] !in a[p + 1..];
    assert multiset(a) == multiset(a[..p]) + multiset{a[p]} + multiset(a[p + 1..]);
    assert a[p] !in multiset(a[..p]) && a[p] !in multiset(a[p + 1..]);
  }

  lemma ShareFits(ordered: seq<Bucket>, amount: int, b: Bucket)
    requires DistinctIds(ordered) && b in ordered
    ensures 0 <= ShareOf(Shares(ordered, amount, |ordered|), b.id) <= Spendable(b)
  {
    var k :| 0 <= k < |ordered| && ordered[k] == b;
    ShareOfBucket(ordered, amount, |ordered|, k);
  }

  /** A bucket is touched only when every bucket before it is drained. */
  lemma EarlierIsDrained(ordered: seq<Bucket>, amount: int, j: nat, k: nat)
    requires DistinctIds(ordered) && j < k < |ordered|
    requires ShareOf(Shares(ordered, amount, |ordered|), ordered[k].id) > 0
    ensures ShareOf(Shares(ordered, amount, |ordered|), ordered[j].id) == Spendable(ordered[j])
  {
    ShareOfBucket(ordered, amount, |ordered|, j);
    ShareOfBucket(ordered, amount, |ordered|, k);
    SumTake(ordered, j, ToSpend());
    PrefixSumGrows(ordered, j + 1, k);
  }

  /**
   * A plan exists exactly when the amount is positive and covered by the positive availabilities.
   * It then sums to the amount, gives every bucket at most its availability, and touches a bucket
   * only when every bucket before it in priority order is drained.
   */
  lemma PlanIsExact(buckets: seq<Bucket>, amount: int)
    requires DistinctIds(buckets)
    ensures Plan(buckets, amount).None? <==> amount <= 0 || Sum(buckets, ToSpend()) < amount
    ensures Plan(buckets, amount).Some? ==>
              var shares, ordered := Plan(buckets, amount).value, ByPriority(buckets);
              && Total(shares) == amount
              && DistinctShares(shares)
              && Sorting.SortedBy(Before, ordered)
              && (forall s :: s in shares ==> s.reserved > 0 && exists b :: b in buckets && b.id == s.bucketId)
              && (forall b :: b in buckets ==> 0 <= ShareOf(shares, b.id) <= Spendable(b))
              && (forall j, k :: 0 <= j < k < |ordered| && ShareOf(shares, ordered[k].id) > 0 ==>
                    ShareOf(shares, ordered[j].id) == Spendable(ordered[j]))
  {
    if Plan(buckets, amount).Some? {
      var shares, ordered := Plan(buckets, amount).value, ByPriority(buckets);
      var n := |buckets|;
      PriorityIsTotalPreorder();
      Sorting.StableSortSorts(Before, buckets);
      SortKeepsIds(buckets);
      SumOfPermutation(buckets, ordered, ToSpend());
      assert ordered[..n] == ordered;
      SharesTotal(ordered, amount, n);
      SharesComeFromBuckets(ordered, amount, n);
      forall s | s in shares ensures s.reserved > 0 && exists b :: b in buckets && b.id == s.bucketId {
        var k :| 0 <= k < n && ordered[k].id == s.bucketId;
        assert ordered[k] in buckets;
      }
      forall b | b in buckets ensures 0 <= ShareOf(shares, b.id) <= Spendable(b) {
        ShareFits(ordered, amount, b);
      }
      forall j, k | 0 <= j < k < |ordered| && ShareOf(shares, ordered[k].id) > 0
        ensures ShareOf(shares, ordered[j].id) == Spendable(ordered[j])
      {
        EarlierIsDrained(ordered, amount, j, k);
      }
    }
  }

  /** What is left of the amount after the first k buckets. */
  function Remaining(ordered: seq<Bucket>, amount: int, k: nat): int
    requires k <= |ordered|
  {
    Max(0, amount - Sum(ordered[..k], ToSpend()))
  }

  lemma RemainingStep(ordered: seq<Bucket>, amount: int, k: nat)
    requires k < |ordered|
    ensures Take(ordered, amount, k) == Min(Spendable(ordered[k]), Remaining(ordered, amount, k))
    ensures Remaining(ordered, amount, k + 1) == Remaining(ordered, amount, k) - Take(ordered, amount, k)
  {
    SumTake(ordered, k, ToSpend());
  }

  /** Where the loop may stop, its allocations and remainder decide the plan. */
  lemma PlanFromPrefix(buckets: seq<Bucket>, ordered: seq<Bucket>, amount: int, k: nat)
    requires ordered == ByPriority(buckets) && amount > 0 && k <= |ordered|
    requires k == |ordered| || Remaining(ordered, amount, k) == 0
    ensures Plan(buckets, amount) ==
            if Remaining(ordered, amount, k) > 0 then None else Some(Shares(ordered, amount, k))
  {
    SumOfPermutation(buckets, ordered, ToSpend());
    assert ordered[..|ordered|] == ordered;
    PrefixSumGrows(ordered, k, |ordered|);
    if Remaining(ordered, amount, k) == 0 {
      NothingLeft(ordered, amount, k, |ordered|);
    }
  }

  /** The source's loop computes the waterfall. */
  method PlanReservationAllocations(buckets: seq<Bucket>, estimated: int) returns (r: Option<seq<Share>>)
    ensures r == Plan(buckets, estimated)
  {
    if estimated <= 0 { return None; }
    var ordered := ByPriority(buckets);
    var allocations: seq<Share> := [];
    var remaining := estimated;
    var k := 0;
    while k < |ordered| && remaining != 0
      invariant 0 <= k <= |ordered|
      invariant remaining == Remaining(ordered, estimated, k)
      invariant allocations == Shares(ordered, estimated, k)
    {
      RemainingStep(ordered, estimated, k);
      var available := Available(ordered[k]);
      if available > 0 {
        var take := if available < remaining then available else remaining;
        allocations := allocations + [Share(ordered[k].id, take)];
        remaining := remaining - take;
      }
      k := k + 1;
    }
    PlanFromPrefix(buckets, ordered, estimated, k);
    r := if remaining > 0 then None else Some(allocations);
  }
}
