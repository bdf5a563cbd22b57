/** What provider usage costs and what is reserved for it (packages/ai/src/cost.ts, usage.ts). */
module Cost {
  import opened Basics

  const TOKENS_PER_MILLION := 1_000_000

  /** Tokens of one provider answer; cache writes may be counted on top of ordinary input. */
  datatype Usage = Usage(input: int, output: int, reasoning: int, cacheRead: int, cacheWrite: int)

  /** Prices in microRUB per million tokens; a missing cache price counts as zero. */
  datatype Price = Price(input: int, output: int, cacheRead: Option<int>, cacheWrite: Option<int>)

  function OrZero(o: Option<int>): int { if o.Some? then o.value else 0 }

  /** normalizeProviderUsage; None is the thrown error. */
  function NormalizeUsage(input: int, output: int, reasoning: Option<int>, cacheRead: Option<int>, cacheWrite: Option<int>)
    : (u: Option<Usage>)
    ensures var told := Usage(input, output, OrZero(reasoning), OrZero(cacheRead), OrZero(cacheWrite));
            u == if Normalized(told) then Some(told) else None
  {
    var u := Usage(input, output, OrZero(reasoning), OrZero(cacheRead), OrZero(cacheWrite));
    if u.input < 0 || u.output < 0 || u.reasoning < 0 || u.cacheRead < 0 || u.cacheWrite < 0 then None
    else if u.cacheRead > u.input || u.cacheWrite > u.input || u.reasoning > u.output then None
    else Some(u)
  }

  predicate Normalized(u: Usage) {
    0 <= u.cacheRead <= u.input && 0 <= u.cacheWrite <= u.input && 0 <= u.reasoning <= u.output
  }

  predicate ValidPrice(p: Price) {
    p.input >= 0 && p.output >= 0 && OrZero(p.cacheRead) >= 0 && OrZero(p.cacheWrite) >= 0
  }

  /** Division that rounds up. */
  function CeilDiv(a: int, d: int): int
    requires a >= 0 && d > 0
  {
    (a + d - 1) / d
  }

  function TokenCost(tokens: int, price: int): Option<int> {
    if tokens < 0 || price < 0 then None
    else if tokens == 0 || price == 0 then Some(0)
    else
      assert tokens * price >= 0;
      Some(CeilDiv(tokens * price, TOKENS_PER_MILLION))
  }

  function ApplySafetyMargin(cost: int, safetyBps: int): Option<int> {
    if cost < 0 || safetyBps < 0 then None
    else
      assert cost * (10_000 + safetyBps) >= 0;
      Some(CeilDiv(cost * (10_000 + safetyBps), 10_000))
  }

  function Plus(a: Option<int>, b: Option<int>): Option<int> {
    if a.Some? && b.Some? then Some(a.value + b.value) else None
  }

  function ProviderCostFromUsage(u: Usage, p: Price): Option<int> {
    if u.input - u.cacheRead < 0 then None
    else
      Plus(Plus(Plus(TokenCost(u.input - u.cacheRead, p.input), TokenCost(u.output, p.output)),
                if u.cacheRead > 0 then TokenCost(u.cacheRead, OrZero(p.cacheRead)) else Some(0)),
           if u.cacheWrite > 0 then TokenCost(u.cacheWrite, OrZero(p.cacheWrite)) else Some(0))
  }

  /** The reserve before its margin: every input token at the worst input price, plus the full output. */
  function RawReserve(inputTokens: int, outputTokens: int, p: Price): Option<int> {
    Plus(TokenCost(inputTokens, Max(p.input, OrZero(p.cacheRead)) + OrZero(p.cacheWrite)), TokenCost(outputTokens, p.output))
  }

  function EstimateReservation(inputTokens: int, outputTokens: int, p: Price, safetyBps: int): Option<int> {
    var raw := RawReserve(inputTokens, outputTokens, p);
    if raw.None? then None
    else
      var reserved := ApplySafetyMargin(raw.value, safetyBps);
      if reserved.None? then None else Some(Max(1, reserved.value))
  }

  // ---- Rounding up ----

  /** The rounded quotient is the least number of divisors that covers the dividend. */
  lemma CeilBounds(a: int, d: int)
    requires a >= 0 && d > 0
    ensures (CeilDiv(a, d) - 1) * d < a <= CeilDiv(a, d) * d
    ensures 0 <= CeilDiv(a, d)
  {}

  lemma MulLess(x: int, y: int, d: int)
    requires x * d < y * d && d > 0
    ensures x < y
  {}

  lemma CeilMonotone(a: int, b: int, d: int)
    requires 0 <= a <= b && d > 0
    ensures CeilDiv(a, d) <= CeilDiv(b, d)
  {
    CeilBounds(a, d);
    CeilBounds(b, d);
    MulLess(CeilDiv(a, d) - 1, CeilDiv(b, d), d);
  }

  /** Rounding two parts up separately costs at most one more than rounding their sum. */
  lemma CeilOfSum(a: int, b: int, d: int)
    requires 0 <= a && 0 <= b && d > 0
    ensures CeilDiv(a, d) + CeilDiv(b, d) <= CeilDiv(a + b, d) + 1
  {
    CeilBounds(a, d);
    CeilBounds(b, d);
    CeilBounds(a + b, d);
    var x, y, z := CeilDiv(a, d), CeilDiv(b, d), CeilDiv(a + b, d);
    assert (x - 1) * d + (y - 1) * d == (x + y - 2) * d;
    MulLess(x + y - 2, z, d);
  }

  // ---- Reservation covers usage ----

  lemma TokenCostIsCeil(tokens: int, price: int)
    requires tokens >= 0 && price >= 0
    ensures tokens * price >= 0
    ensures TokenCost(tokens, price) == Some(CeilDiv(tokens * price, TOKENS_PER_MILLION))
  {
    if tokens == 0 || price == 0 { assert tokens * price == 0; }
  }

  lemma MulMonotone(a: int, b: int, c: int, d: int)
    requires 0 <= a <= b && 0 <= c <= d
    ensures a * c <= b * d
  {
    assert a * c <= b * c <= b * d;
  }

  /** The exact input cost of an answer, before any rounding, is within the worst-case input cost. */
  lemma InputWithinWorstCase(u: Usage, p: Price, inputTokens: int)
    requires Normalized(u) && ValidPrice(p) && u.input <= inputTokens
    ensures var worst := Max(p.input, OrZero(p.cacheRead)) + OrZero(p.cacheWrite);
            (u.input - u.cacheRead) * p.input + u.cacheRead * OrZero(p.cacheRead) + u.cacheWrite * OrZero(p.cacheWrite)
            <= inputTokens * worst
  {
    var base, write := Max(p.input, OrZero(p.cacheRead)), OrZero(p.cacheWrite);
    MulMonotone(u.input - u.cacheRead, u.input - u.cacheRead, p.input, base);
    MulMonotone(u.cacheRead, u.cacheRead, OrZero(p.cacheRead), base);
    MulMonotone(u.cacheWrite, u.input, write, write);
    assert (u.input - u.cacheRead) * base + u.cacheRead * base == u.input * base;
    assert u.input * base + u.input * write == u.input * (base + write);
    MulMonotone(u.input, inputTokens, base + write, base + write);
  }

  /** How many ceilings an answer pays beyond the reserve's one for input. */
  function ExtraCeilings(u: Usage): int { (if u.cacheRead > 0 then 1 else 0) + (if u.cacheWrite > 0 then 1 else 0) }

  /**
   * Within the funded token caps, an answer costs at most the unmargined reserve, plus one for
   * cache reads and one for cache writes.
   */
  lemma CostWithinRawReserve(u: Usage, p: Price, inputTokens: int, outputTokens: int)
    requires Normalized(u) && ValidPrice(p) && u.input <= inputTokens && u.output <= outputTokens
    ensures ProviderCostFromUsage(u, p).Some? && RawReserve(inputTokens, outputTokens, p).Some?
    ensures ProviderCostFromUsage(u, p).value <= RawReserve(inputTokens, outputTokens, p).value + ExtraCeilings(u)
  {
    var M := TOKENS_PER_MILLION;
    var read, write := OrZero(p.cacheRead), OrZero(p.cacheWrite);
    var worst := Max(p.input, read) + write;
    TokenCostIsCeil(u.input - u.cacheRead, p.input);
    TokenCostIsCeil(u.output, p.output);
    TokenCostIsCeil(u.cacheRead, read);
    TokenCostIsCeil(u.cacheWrite, write);
    TokenCostIsCeil(inputTokens, worst);
    TokenCostIsCeil(outputTokens, p.output);
    var a, b, c := (u.input - u.cacheRead) * p.input, u.cacheRead * read, u.cacheWrite * write;
    InputWithinWorstCase(u, p, inputTokens);
    ThreeCeilings(a, b, c, u.cacheRead > 0, u.cacheWrite > 0);
    CeilMonotone(a + b + c, inputTokens * worst, M);
    MulMonotone(u.output, outputTokens, p.output, p.output);
    CeilMonotone(u.output * p.output, outputTokens * p.output, M);
  }

  lemma ThreeCeilings(a: int, b: int, c: int, some: bool, more: bool)
    requires 0 <= a && 0 <= b && 0 <= c && (!some ==> b == 0) && (!more ==> c == 0)
    ensures var M := TOKENS_PER_MILLION;
            CeilDiv(a, M) + CeilDiv(b, M) + CeilDiv(c, M)
            <= CeilDiv(a + b + c, M) + (if some then 1 else 0) + (if more then 1 else 0)
  {
    if some { CeilOfSum(a, b, TOKENS_PER_MILLION); }
    if more { CeilOfSum(a + b, c, TOKENS_PER_MILLION); }
  }

  /** The margin never takes away, and more than ten thousand basis-point units add at least two. */
  lemma MarginAdds(cost: int, safetyBps: int)
    requires cost >= 0 && safetyBps >= 0
    ensures ApplySafetyMargin(cost, safetyBps).value >= cost
    ensures cost * safetyBps > 10_000 ==> ApplySafetyMargin(cost, safetyBps).value >= cost + 2
  {
    var total := cost * (10_000 + safetyBps);
    assert total == cost * 10_000 + cost * safetyBps;
    assert cost * safetyBps >= 0;
    CeilBounds(total, 10_000);
  }

  /** An answer within the caps that were funded. */
  predicate WithinCaps(u: Usage, p: Price, inputTokens: int, outputTokens: int) {
    Normalized(u) && ValidPrice(p) && u.input <= inputTokens && u.output <= outputTokens
  }

  predicate Covers(u: Usage, p: Price, inputTokens: int, outputTokens: int, safetyBps: int) {
    match (ProviderCostFromUsage(u, p), EstimateReservation(inputTokens, outputTokens, p, safetyBps))
    case (Some(cost), Some(reserved)) => cost <= reserved
    case _ => false
  }

  /**
   * The reservation covers an answer within the funded caps when its margin makes up for the
   * answer's extra ceilings; without cache tokens it always does.
   */
  lemma ReservationCoversCost(u: Usage, p: Price, inputTokens: int, outputTokens: int, safetyBps: int)
    requires WithinCaps(u, p, inputTokens, outputTokens) && safetyBps >= 0
    requires match RawReserve(inputTokens, outputTokens, p) case Some(raw) => ExtraCeilings(u) == 0 || raw * safetyBps > 10_000 case None => false
    ensures Covers(u, p, inputTokens, outputTokens, safetyBps)
  {
    CostWithinRawReserve(u, p, inputTokens, outputTokens);
    RawIsNatural(inputTokens, outputTokens, p);
    MarginAdds(RawReserve(inputTokens, outputTokens, p).value, safetyBps);
  }

  lemma FreeReserveIsFreeUsage(u: Usage, p: Price, inputTokens: int, outputTokens: int)
    requires WithinCaps(u, p, inputTokens, outputTokens) && RawReserve(inputTokens, outputTokens, p) == Some(0)
    ensures ProviderCostFromUsage(u, p) == Some(0)
  {
    var read, write := OrZero(p.cacheRead), OrZero(p.cacheWrite);
    TokenCostIsCeil(u.input - u.cacheRead, p.input);
    TokenCostIsCeil(u.output, p.output);
    TokenCostIsCeil(u.cacheRead, read);
    TokenCostIsCeil(u.cacheWrite, write);
    TokenCostIsCeil(inputTokens, Max(p.input, read) + write);
    TokenCostIsCeil(outputTokens, p.output);
    InputWithinWorstCase(u, p, inputTokens);
    MulMonotone(u.output, outputTokens, p.output, p.output);
  }

  ghost predicate AlwaysCovers(safetyBps: int) {
    forall u, p, inputTokens, outputTokens :: WithinCaps(u, p, inputTokens, outputTokens) ==> Covers(u, p, inputTokens, outputTokens, safetyBps)
  }

  /** A margin covers every answer at every price exactly when it more than doubles the reserve. */
  lemma MarginCoversIff(safetyBps: int)
    requires safetyBps >= 0
    ensures AlwaysCovers(safetyBps) <==> safetyBps > 10_000
  {
    if safetyBps > 10_000 {
      forall u, p, inputTokens, outputTokens | WithinCaps(u, p, inputTokens, outputTokens)
        ensures Covers(u, p, inputTokens, outputTokens, safetyBps)
      {
        RawIsNatural(inputTokens, outputTokens, p);
        var raw := RawReserve(inputTokens, outputTokens, p).value;
        if raw == 0 {
          FreeReserveIsFreeUsage(u, p, inputTokens, outputTokens);
          MarginAdds(0, safetyBps);
        } else {
          MulMonotone(1, raw, safetyBps, safetyBps);
          ReservationCoversCost(u, p, inputTokens, outputTokens, safetyBps);
        }
      }
    } else {
      CacheTokensCanExceedReservation(safetyBps);
      var u, p := Usage(2, 0, 0, 1, 1), Price(1, 0, Some(1), Some(1));
      assert WithinCaps(u, p, 2, 0) && !Covers(u, p, 2, 0, safetyBps);
    }
  }

  lemma RawIsNatural(inputTokens: int, outputTokens: int, p: Price)
    requires ValidPrice(p) && inputTokens >= 0 && outputTokens >= 0
    ensures RawReserve(inputTokens, outputTokens, p).Some? && RawReserve(inputTokens, outputTokens, p).value >= 0
  {
    var worst := Max(p.input, OrZero(p.cacheRead)) + OrZero(p.cacheWrite);
    TokenCostIsCeil(inputTokens, worst);
    TokenCostIsCeil(outputTokens, p.output);
  }

  /** Two cache ceilings cost two microRUB more than the unmargined reserve. */
  lemma CacheTokensCanExceedReservation(safetyBps: int)
    requires 0 <= safetyBps <= 10_000
    ensures var u, p := Usage(2, 0, 0, 1, 1), Price(1, 0, Some(1), Some(1));
            && WithinCaps(u, p, 2, 0) && ProviderCostFromUsage(u, p) == Some(3)
            && EstimateReservation(2, 0, p, safetyBps).Some? && EstimateReservation(2, 0, p, safetyBps).value <= 2
  {
    assert RawReserve(2, 0, Price(1, 0, Some(1), Some(1))) == Some(1);
  }

  /** A larger output cap never costs less. */
  lemma ReservationGrows(inputTokens: int, fewer: int, more: int, p: Price, safetyBps: int)
    requires ValidPrice(p) && safetyBps >= 0 && inputTokens >= 0 && 0 <= fewer <= more
    ensures EstimateReservation(inputTokens, fewer, p, safetyBps).Some? && EstimateReservation(inputTokens, more, p, safetyBps).Some?
    ensures 1 <= EstimateReservation(inputTokens, fewer, p, safetyBps).value <= EstimateReservation(inputTokens, more, p, safetyBps).value
  {
    RawIsNatural(inputTokens, fewer, p);
    RawIsNatural(inputTokens, more, p);
    TokenCostIsCeil(fewer, p.output);
    TokenCostIsCeil(more, p.output);
    MulMonotone(fewer, more, p.output, p.output);
    CeilMonotone(fewer * p.output, more * p.output, TOKENS_PER_MILLION);
    var x, y := RawReserve(inputTokens, fewer, p).value, RawReserve(inputTokens, more, p).value;
    MulMonotone(x, y, 10_000 + safetyBps, 10_000 + safetyBps);
    MarginIsCeil(x, safetyBps);
    MarginIsCeil(y, safetyBps);
    CeilMonotone(x * (10_000 + safetyBps), y * (10_000 + safetyBps), 10_000);
  }

  lemma MarginIsCeil(cost: int, safetyBps: int)
    requires cost >= 0 && safetyBps >= 0
    ensures cost * (10_000 + safetyBps) >= 0
    ensures ApplySafetyMargin(cost, safetyBps) == Some(CeilDiv(cost * (10_000 + safetyBps), 10_000))
  {}

  // ---- Every token is charged, and rounding is all that is added ----

  function Charged(tokens: int, price: int): int { if tokens > 0 && price > 0 then 1 else 0 }

  /** What an answer is worth before any rounding, in millionths of a microRUB. */
  function ExactCost(u: Usage, p: Price): int {
    (u.input - u.cacheRead) * p.input + u.output * p.output + u.cacheRead * OrZero(p.cacheRead) + u.cacheWrite * OrZero(p.cacheWrite)
  }

  /** How many kinds of tokens an answer pays for. */
  function ChargedKinds(u: Usage, p: Price): int {
    Charged(u.input - u.cacheRead, p.input) + Charged(u.output, p.output)
    + Charged(u.cacheRead, OrZero(p.cacheRead)) + Charged(u.cacheWrite, OrZero(p.cacheWrite))
  }

  lemma TokenCostIsExact(tokens: int, price: int)
    requires tokens >= 0 && price >= 0
    ensures TokenCost(tokens, price).Some?
    ensures tokens * price <= TokenCost(tokens, price).value * TOKENS_PER_MILLION
            <= tokens * price + Charged(tokens, price) * (TOKENS_PER_MILLION - 1)
  {
    TokenCostIsCeil(tokens, price);
    CeilBounds(tokens * price, TOKENS_PER_MILLION);
  }

  /** Provider cost never counts an answer under its exact worth, and over it by less than one microRUB for each kind of tokens it pays for. */
  lemma CostIsExact(u: Usage, p: Price)
    requires Normalized(u) && ValidPrice(p)
    ensures ProviderCostFromUsage(u, p).Some?
    ensures ExactCost(u, p) <= ProviderCostFromUsage(u, p).value * TOKENS_PER_MILLION
            <= ExactCost(u, p) + ChargedKinds(u, p) * (TOKENS_PER_MILLION - 1)
  {
    TokenCostIsExact(u.input - u.cacheRead, p.input);
    TokenCostIsExact(u.output, p.output);
    TokenCostIsExact(u.cacheRead, OrZero(p.cacheRead));
    TokenCostIsExact(u.cacheWrite, OrZero(p.cacheWrite));
    var a, b := TokenCost(u.input - u.cacheRead, p.input).value, TokenCost(u.output, p.output).value;
    var c, d := TokenCost(u.cacheRead, OrZero(p.cacheRead)).value, TokenCost(u.cacheWrite, OrZero(p.cacheWrite)).value;
    assert ProviderCostFromUsage(u, p) == Some(a + b + c + d);
  }

  /** Negative usage and prices are refused where they would be charged; so are more cached than input tokens. */
  lemma CostIsRefusedIff(u: Usage, p: Price)
    ensures ProviderCostFromUsage(u, p).None? <==>
              || u.cacheRead > u.input || p.input < 0 || u.output < 0 || p.output < 0
              || (u.cacheRead > 0 && OrZero(p.cacheRead) < 0) || (u.cacheWrite > 0 && OrZero(p.cacheWrite) < 0)
  {}

  /** The most that answers within the caps can be worth: every input token at the dearer of both input prices and written to the cache. */
  function WorstCase(inputTokens: int, outputTokens: int, p: Price): int {
    inputTokens * (Max(p.input, OrZero(p.cacheRead)) + OrZero(p.cacheWrite)) + outputTokens * p.output
  }

  /** Some answer within the caps is worth exactly that. */
  lemma WorstCaseIsReached(inputTokens: nat, outputTokens: nat, p: Price)
    requires ValidPrice(p)
    ensures var u := Usage(inputTokens, outputTokens, 0, if p.input >= OrZero(p.cacheRead) then 0 else inputTokens, inputTokens);
            WithinCaps(u, p, inputTokens, outputTokens) && ExactCost(u, p) == WorstCase(inputTokens, outputTokens, p)
  {
    var base, write := Max(p.input, OrZero(p.cacheRead)), OrZero(p.cacheWrite);
    assert inputTokens * base + inputTokens * write == inputTokens * (base + write);
    assert (inputTokens - inputTokens) * p.input == 0 && 0 * OrZero(p.cacheRead) == 0;
  }

  /** A reservation is the worst case, over by less than two microRUB, with its margin, over by less than one more, and never nothing. */
  lemma ReservationIsExact(inputTokens: nat, outputTokens: nat, p: Price, safetyBps: int)
    requires ValidPrice(p) && safetyBps >= 0
    ensures var raw, r := RawReserve(inputTokens, outputTokens, p), EstimateReservation(inputTokens, outputTokens, p, safetyBps);
            && raw.Some? && r.Some? && r.value >= 1
            && WorstCase(inputTokens, outputTokens, p) <= raw.value * TOKENS_PER_MILLION
               <= WorstCase(inputTokens, outputTokens, p) + 2 * (TOKENS_PER_MILLION - 1)
            && raw.value * (10_000 + safetyBps) <= r.value * 10_000
            && (r.value == 1 || r.value * 10_000 < raw.value * (10_000 + safetyBps) + 10_000)
  {
    TokenCostIsExact(inputTokens, Max(p.input, OrZero(p.cacheRead)) + OrZero(p.cacheWrite));
    TokenCostIsExact(outputTokens, p.output);
    RawIsNatural(inputTokens, outputTokens, p);
    var raw := RawReserve(inputTokens, outputTokens, p).value;
    MarginIsCeil(raw, safetyBps);
    CeilBounds(raw * (10_000 + safetyBps), 10_000);
  }
}
