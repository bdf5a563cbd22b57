/** How many output tokens a turn is funded for (packages/ai/src/execution-budget.ts). */
module Budget {
  import opened Basics
  import opened Cost
  import Turns

  datatype Profile = Profile(preferred: int, minimum: int)

  /** The inputs of a resolution that do not depend on what is available. */
  datatype Request = Request(profile: Profile, modelMaxOutput: int, inputTokens: int, maxReservation: int, price: Price, safetyBps: int)

  /** `Throws` is an input the source rejects with an error. */
  datatype Resolution = Funded(selected: int, cost: int) | InsufficientUsage | RequestCostLimit | Throws

  predicate ValidProfile(p: Profile) { p.minimum > 0 && p.preferred > 0 && p.minimum <= p.preferred }

  predicate ValidRequest(q: Request) {
    ValidProfile(q.profile) && q.modelMaxOutput > 0 && q.inputTokens >= 0 && ValidPrice(q.price) && q.safetyBps >= 0
  }

  function Preferred(q: Request): int { Min(q.profile.preferred, q.modelMaxOutput) }

  function Minimum(q: Request): int { Min(q.profile.minimum, Preferred(q)) }

  function CostOf(q: Request, outputTokens: int): (c: int)
    requires ValidRequest(q) && outputTokens >= 0
    ensures c >= 1
  {
    ReservationGrows(q.inputTokens, outputTokens, outputTokens, q.price, q.safetyBps);
    EstimateReservation(q.inputTokens, outputTokens, q.price, q.safetyBps).value
  }

  lemma CostGrows(q: Request, fewer: int, more: int)
    requires ValidRequest(q) && 0 <= fewer <= more
    ensures CostOf(q, fewer) <= CostOf(q, more)
  {
    ReservationGrows(q.inputTokens, fewer, more, q.price, q.safetyBps);
  }

  /** The greatest output size in [low, high] whose cost fits, given that the least one does. */
  function Greatest(q: Request, low: int, high: int, ceiling: int): (r: int)
    requires ValidRequest(q) && 0 <= low <= high && CostOf(q, low) <= ceiling
    ensures low <= r <= high && CostOf(q, r) <= ceiling
    ensures forall o :: r < o <= high ==> CostOf(q, o) > ceiling
    decreases high - low
  {
    if CostOf(q, high) <= ceiling then high
    else
      var r := Greatest(q, low, high - 1, ceiling);
      assert forall o :: r < o <= high ==> CostOf(q, o) > ceiling by {
        forall o | r < o <= high ensures CostOf(q, o) > ceiling {
          if o < high { assert o <= high - 1; }
        }
      }
      r
  }

  function Resolve(q: Request, available: int): Resolution {
    if q.modelMaxOutput <= 0 || q.inputTokens < 0 then Throws
    else if q.maxReservation <= 0 then RequestCostLimit
    else if available <= 0 then InsufficientUsage
    else if !ValidRequest(q) then Throws
    else if CostOf(q, Minimum(q)) > q.maxReservation then RequestCostLimit
    else if CostOf(q, Minimum(q)) > available then InsufficientUsage
    else
      var selected := Greatest(q, Minimum(q), Preferred(q), Min(available, q.maxReservation));
      Funded(selected, CostOf(q, selected))
  }

  /** The source's binary search. */
  method ResolveAiExecutionBudget(q: Request, available: int) returns (r: Resolution)
    ensures r == Resolve(q, available)
  {
    if q.modelMaxOutput <= 0 || q.inputTokens < 0 { return Throws; }
    if q.maxReservation <= 0 { return RequestCostLimit; }
    if available <= 0 { return InsufficientUsage; }
    if !ValidRequest(q) { return Throws; }

    var preferred, minimum := Preferred(q), Minimum(q);
    var minimumCost := CostOf(q, minimum);
    if minimumCost > q.maxReservation { return RequestCostLimit; }
    if minimumCost > available { return InsufficientUsage; }
    var spendCeiling := if available < q.maxReservation then available else q.maxReservation;
    var preferredCost := CostOf(q, preferred);
    if preferredCost <= spendCeiling { return Funded(preferred, preferredCost); }

    var low, high, selected, selectedCost := minimum, preferred, minimum, minimumCost;
    while low <= high
      invariant minimum <= low <= high + 1 <= preferred + 1
      invariant minimum <= selected <= preferred && selectedCost == CostOf(q, selected) <= spendCeiling
      invariant low == minimum || selected == low - 1
      invariant low == minimum ==> selected == minimum
      invariant forall o :: high < o <= preferred ==> CostOf(q, o) > spendCeiling
      decreases high - low
    {
      var candidate := low + (high - low) / 2;
      var candidateCost := CostOf(q, candidate);
      if candidateCost <= spendCeiling {
        selected, selectedCost := candidate, candidateCost;
        low := candidate + 1;
      } else {
        forall o | candidate <= o <= preferred ensures CostOf(q, o) > spendCeiling { CostGrows(q, candidate, o); }
        high := candidate - 1;
      }
    }
    GreatestIsUnique(q, minimum, preferred, spendCeiling, selected);
    r := Funded(selected, selectedCost);
  }

  lemma GreatestIsUnique(q: Request, low: int, high: int, ceiling: int, r: int)
    requires ValidRequest(q) && 0 <= low <= r <= high && CostOf(q, low) <= ceiling && CostOf(q, r) <= ceiling
    requires forall o :: r < o <= high ==> CostOf(q, o) > ceiling
    ensures Greatest(q, low, high, ceiling) == r
  {}

  /**
   * A valid request is funded exactly when its minimum fits both positive ceilings, and then with
   * the greatest output between minimum and preference whose cost fits them.
   */
  lemma FundedIsGreatest(q: Request, available: int)
    requires ValidRequest(q)
    ensures Resolve(q, available).Funded? <==>
              q.maxReservation > 0 && available > 0 && CostOf(q, Minimum(q)) <= q.maxReservation && CostOf(q, Minimum(q)) <= available
    ensures Resolve(q, available).Funded? ==>
              var r := Resolve(q, available);
              && Minimum(q) <= r.selected <= Preferred(q) && r.cost == CostOf(q, r.selected)
              && forall o :: Minimum(q) <= o <= Preferred(q) ==>
                   (CostOf(q, o) <= q.maxReservation && CostOf(q, o) <= available <==> o <= r.selected)
  {
    if Resolve(q, available).Funded? {
      var r := Resolve(q, available);
      forall o | Minimum(q) <= o <= Preferred(q)
        ensures CostOf(q, o) <= q.maxReservation && CostOf(q, o) <= available <==> o <= r.selected
      {
        if o <= r.selected { CostGrows(q, o, r.selected); }
      }
    }
  }

  /**
   * A valid request is refused for its cost exactly when even its minimum exceeds the request's own ceiling,
   * and for missing usage exactly when it is not, but exceeds what is available; nothing else is answered.
   */
  lemma RefusalTells(q: Request, available: int)
    requires ValidRequest(q)
    ensures var least, r := CostOf(q, Minimum(q)), Resolve(q, available);
            && (q.maxReservation < least && (available > 0 || q.maxReservation <= 0) ==> r == RequestCostLimit)
            && (least <= q.maxReservation && available < least ==> r == InsufficientUsage)
            && (available <= 0 < q.maxReservation ==> r == InsufficientUsage)
            && (r.Funded? || r == RequestCostLimit || r == InsufficientUsage)
  {}

  /** More available usage never funds less. */
  lemma MoreUsageFundsMore(q: Request, less: int, more: int)
    requires ValidRequest(q) && less <= more && Resolve(q, less).Funded?
    ensures Resolve(q, more).Funded? && Resolve(q, less).selected <= Resolve(q, more).selected
  {
    FundedIsGreatest(q, less);
    FundedIsGreatest(q, more);
  }

  /** The budget as the turn admission uses it. */
  function AsBudget(q: Request): Turns.Budget {
    (available: int) =>
      match Resolve(q, available)
      case Funded(_, cost) => if cost >= 0 then Turns.Funded(cost) else Turns.Insufficient
      case InsufficientUsage => Turns.Insufficient
      case RequestCostLimit => Turns.CostLimit
      case Throws => Turns.CostLimit
  }

  /** What admission assumes of a budget, this one meets: its estimate is positive and within both ceilings. */
  lemma BudgetIsSound(q: Request, maxReservation: nat)
    requires q.maxReservation == maxReservation
    ensures Turns.SoundBudget(AsBudget(q), maxReservation)
    ensures forall available :: AsBudget(q)(available).Funded? ==> 1 <= AsBudget(q)(available).estimate <= available
  {
    forall available | Resolve(q, available).Funded?
      ensures 1 <= Resolve(q, available).cost <= maxReservation && Resolve(q, available).cost <= available
    {
      FundedIsGreatest(q, available);
    }
  }
}
