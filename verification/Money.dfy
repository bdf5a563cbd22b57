/** Integer money in microRUB (packages/billing/src/money.ts). */
module Money {
  import opened Basics

  const BASIS_POINTS_DENOMINATOR := 10_000

  function AvailableMicroRub(total: int, spent: int, reserved: int): int {
    total - spent - reserved
  }

  /** The provider budget bought by a top-up; None is the source's thrown error. */
  function TopupProviderBudget(amount: int, ratioBps: int): (r: Option<int>)
    ensures r.Some? <==> amount >= 0 && 0 <= ratioBps <= BASIS_POINTS_DENOMINATOR
    ensures r.Some? ==> 0 <= r.value <= amount
    ensures r.Some? ==> r.value * BASIS_POINTS_DENOMINATOR <= amount * ratioBps < (r.value + 1) * BASIS_POINTS_DENOMINATOR
  {
    if amount < 0 || ratioBps < 0 || ratioBps > BASIS_POINTS_DENOMINATOR then None
    else
      assert 0 <= amount * ratioBps <= amount * BASIS_POINTS_DENOMINATOR;
      Some(amount * ratioBps / BASIS_POINTS_DENOMINATOR)
  }
}
