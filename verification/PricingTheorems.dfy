/** Slices are exact, the ceiling is the worst case, quotes cover settlement, free tokens are conserved. */
module PricingTheorems {
  import opened Numbers
  import opened Wrappers
  import opened Pricing

  // ---------- Proportional slices ----------

  lemma MulLe(a: int, b: int, c: int)
    requires a <= b && 0 <= c
    ensures c * a <= c * b && a * c <= b * c
  {
  }

  lemma MulStep(k: int, q: int, t: nat)
    requires k < q
    ensures k * t + t <= q * t
  {
    MulLe(k + 1, q, t);
  }

  /** The two facts that pin an integer quotient down. */
  lemma QuotientFacts(n: nat, t: nat)
    requires 0 < t
    ensures n / t * t <= n < n / t * t + t
  {
  }

  lemma QuotientAtMost(n: nat, k: int, t: nat)
    requires 0 < t && n < k * t + t
    ensures n / t <= k
  {
    QuotientFacts(n, t);
    if k < n / t {
      MulStep(k, n / t, t);
    }
  }

  lemma ShareBounds(x: nat, b: nat, t: nat)
    requires 0 < t && b <= t
    ensures 0 <= x * b && 0 <= x * b / t <= x && x * b / t * t <= x * b < x * b / t * t + t
  {
    MulLe(b, t, x);
    QuotientFacts(x * b, t);
    QuotientAtMost(x * b, x, t);
  }

  lemma ShareMonotone(x: nat, y: nat, b: nat, t: nat)
    requires 0 < t && x <= y
    ensures x * b / t <= y * b / t
  {
    MulLe(x, y, b);
    QuotientFacts(y * b, t);
    QuotientAtMost(x * b, y * b / t, t);
  }

  /** The floors of two shares lose at most one token together when the parts make up the whole, and never gain. */
  lemma TwoShares(i: nat, o: nat, b: nat, t: nat)
    requires 0 < t && b <= t && i + o <= t
    ensures i * b / t + o * b / t <= b
    ensures i + o == t ==> b <= i * b / t + o * b / t + 1
  {
    var p, q := i * b / t, o * b / t;
    ShareBounds(i, b, t);
    ShareBounds(o, b, t);
    assert i * b + o * b == (i + o) * b;
    MulLe(i + o, t, b);
    assert (p + q) * t == p * t + q * t;
    assert b * t == t * b;
    if b < p + q {
      MulStep(b, p + q, t);
    }
    if i + o == t && p + q + 1 < b {
      assert (p + q + 1) * t == p * t + q * t + t;
      MulStep(p + q + 1, b, t);
    }
  }

  /** A token is only missing when the share of the output was itself cut. */
  lemma MissingTokenFits(i: nat, o: nat, b: nat, t: nat)
    requires 0 < t && b <= t && i + o == t && i * b / t + o * b / t < b
    ensures o * b / t < o
  {
    ShareBounds(o, b, t);
    ShareBounds(i, b, t);
    if o * b / t == o {
      // Then all of the output is billed, so everything is, and nothing is missing.
      MulLe(b, t, o);
      assert i * b == t * b - o * b;
      assert (b - o) * t == b * t - o * t;
      MulStep(i * b / t, b - o, t);
    }
  }

  /** A usage cut down to fewer tokens: all of them are allotted, and no part outgrows what it is a part of. */
  lemma SliceAllotsEverything(u: Usage, b: nat)
    requires WellFormed(u) && b < u.total
    ensures var s := BillableSlice(u, Some(b));
            && s.total == b && s.input + s.output == b && WellFormed(s)
            && s.input <= u.input && s.cachedInput <= u.cachedInput
            && FloorShare(u.output, b, u.total) <= s.output
  {
    FloorShareIsQuotient(u.input, b, u.total);
    FloorShareIsQuotient(u.output, b, u.total);
    FloorShareIsQuotient(u.cachedInput, b, u.total);
    TwoShares(u.input, u.output, b, u.total);
    ShareBounds(u.input, b, u.total);
    ShareBounds(u.cachedInput, b, u.total);
  }

  lemma WholeShare(x: nat, t: nat)
    requires 0 < t
    ensures x * t / t == x
  {
    QuotientFacts(x * t, t);
    QuotientAtMost(x * t, x, t);
    if x * t / t < x {
      MulStep(x * t / t, x, t);
    }
  }

  /** When some tokens are neither input nor output, what the shares do not fill goes to the output. */
  lemma OverheadGoesToTheOutput(u: Usage, b: nat)
    requires WellFormed(u) && b < u.total
    ensures var s := BillableSlice(u, Some(b));
            && s.total == b && s.input == u.input * b / u.total && s.output == b - u.input * b / u.total
            && s.cachedInput == u.cachedInput * b / u.total && s.reasoning == u.reasoning * b / u.total
  {
    SliceAllotsEverything(u, b);
    FloorShareIsQuotient(u.input, b, u.total);
    FloorShareIsQuotient(u.output, b, u.total);
    FloorShareIsQuotient(u.cachedInput, b, u.total);
    FloorShareIsQuotient(u.reasoning, b, u.total);
    ShareMonotone(u.cachedInput, u.input, b, u.total);
    ShareMonotone(u.reasoning, u.output, b, u.total);
  }

  /** A detail that was reported larger than what it is a part of is cut to its share. */
  lemma SliceCapsDetails(u: Usage, b: nat)
    requires b < u.total
    ensures var s := BillableSlice(u, Some(b));
            && s.cachedInput == Min(u.cachedInput * b / u.total, s.input)
            && s.reasoning == Min(u.reasoning * b / u.total, s.output)
  {
    FloorShareIsQuotient(u.cachedInput, b, u.total);
    FloorShareIsQuotient(u.reasoning, b, u.total);
  }

  lemma OutputIsNotExceeded(i: nat, o: nat, b: nat, t: nat)
    requires 0 < t && b < t && i + o == t
    ensures o * b / t <= b - i * b / t <= o && b - i * b / t <= o * b / t + 1
  {
    TwoShares(i, o, b, t);
    ShareBounds(o, b, t);
    if i * b / t + o * b / t < b {
      MissingTokenFits(i, o, b, t);
    }
  }

  /**
   When input and output make up the total, slicing is exact up to one token, which goes to the output; the
   caps that keep the details within their parts never bind.
   */
  lemma SliceIsExact(u: Usage, b: nat)
    requires WellFormed(u) && u.input + u.output == u.total && b <= u.total
    ensures var s := BillableSlice(u, Some(b));
            && s.total == b && s.input + s.output == b
            && s.input <= u.input && s.output <= u.output
            && s.cachedInput <= s.input && s.reasoning <= s.output
            && s.cachedInput <= u.cachedInput && s.reasoning <= u.reasoning
            && (0 < u.total ==> s.input == u.input * b / u.total
                                && u.output * b / u.total <= s.output <= u.output * b / u.total + 1
                                && s.cachedInput == u.cachedInput * b / u.total
                                && s.reasoning == u.reasoning * b / u.total)
  {
    if b < u.total {
      SliceAllotsEverything(u, b);
      OverheadGoesToTheOutput(u, b);
      hide BillableSlice;
      OutputIsNotExceeded(u.input, u.output, b, u.total);
      ShareBounds(u.reasoning, b, u.total);
    } else if 0 < b {
      WholeShare(u.input, b);
      WholeShare(u.output, b);
      WholeShare(u.cachedInput, b);
      WholeShare(u.reasoning, b);
    }
  }

  // ---------- What a charge is made of ----------

  lemma OneMore(n: int, rate: real)
    ensures (n + 1) as real * rate == n as real * rate + rate
  {
  }

  lemma OneMoreInput(w: Rates, u: Usage)
    requires u.cachedInput <= u.input
    ensures WeightedTokens(w, u.(input := u.input + 1)) == WeightedTokens(w, u) + w.input
  {
    OneMore(u.input - u.cachedInput, w.input);
  }

  lemma OneMoreOutput(w: Rates, u: Usage)
    requires u.reasoning <= u.output
    ensures WeightedTokens(w, u.(output := u.output + 1)) == WeightedTokens(w, u) + w.output
  {
    OneMore(u.output - u.reasoning, w.output);
  }

  lemma OneMoreCached(w: Rates, u: Usage)
    requires u.cachedInput < u.input
    ensures WeightedTokens(w, u.(cachedInput := u.cachedInput + 1)) == WeightedTokens(w, u) + w.cachedInput - w.input
  {
    OneMore(u.input - u.cachedInput - 1, w.input);
    OneMore(u.cachedInput, w.cachedInput);
  }

  lemma OneMoreReasoning(w: Rates, u: Usage)
    requires u.reasoning < u.output
    ensures WeightedTokens(w, u.(reasoning := u.reasoning + 1)) == WeightedTokens(w, u) + w.reasoning - w.output
  {
    OneMore(u.output - u.reasoning - 1, w.output);
    OneMore(u.reasoning, w.reasoning);
  }

  /**
   Each kind of token has its own rate: one more uncached input or visible output token, or one token told to
   be cached or reasoning, changes the weighted tokens by exactly that; no token weighs nothing.
   */
  lemma MarginalPrices(w: Rates, u: Usage)
    requires u.cachedInput <= u.input && u.reasoning <= u.output
    ensures WeightedTokens(w, u.(input := u.input + 1)) == WeightedTokens(w, u) + w.input
    ensures WeightedTokens(w, u.(output := u.output + 1)) == WeightedTokens(w, u) + w.output
    ensures u.cachedInput < u.input ==>
              WeightedTokens(w, u.(cachedInput := u.cachedInput + 1)) == WeightedTokens(w, u) + w.cachedInput - w.input
    ensures u.reasoning < u.output ==>
              WeightedTokens(w, u.(reasoning := u.reasoning + 1)) == WeightedTokens(w, u) + w.reasoning - w.output
    ensures WeightedTokens(w, Usage(0, 0, 0, 0, u.total)) == 0.0
  {
    assert WeightedTokens(w, Usage(0, 0, 0, 0, u.total)) == 0.0;
    hide WeightedTokens;
    OneMoreInput(w, u);
    OneMoreOutput(w, u);
    if u.cachedInput < u.input { OneMoreCached(w, u); }
    if u.reasoning < u.output { OneMoreReasoning(w, u); }
  }

  /** Details beyond the part they belong to are priced as if they filled it. */
  lemma ExcessDetailsAreCapped(w: Rates, u: Usage)
    ensures WeightedTokens(w, u)
         == WeightedTokens(w, u.(cachedInput := Min(u.cachedInput, u.input), reasoning := Min(u.reasoning, u.output)))
  {
  }

  /** A bill for at least all tokens is the bill without a slice, in every field. */
  lemma FullBillIsUnsliced(p: ModelPolicy, g: GlobalPolicy, usage: RawUsage, surface: Surface, billable: int)
    requires billable >= NormalizeUsage(usage).total
    ensures ChargeUsage(p, g, usage, surface, Some(billable)) == ChargeUsage(p, g, usage, surface, None)
  {
  }

  lemma RealMulLe(a: real, b: real, c: real)
    requires a <= b && 0.0 <= c
    ensures c * a <= c * b && a * c <= b * c
  {
  }

  lemma PerMillion(x: real, rate: real)
    ensures x / 1000000.0 * rate == x * rate / 1000000.0
  {
  }

  lemma RawCostIsWeighted(usd: Rates, u: Usage)
    ensures RawCostUsd(usd, u) == WeightedTokens(usd, u) / 1000000.0
  {
    var p := PartitionUsage(u);
    PerMillion(p.uncachedInput as real, usd.input);
    PerMillion(p.cachedInput as real, usd.cachedInput);
    PerMillion(p.visibleOutput as real, usd.output);
    PerMillion(p.reasoning as real, usd.reasoning);
  }

  // ---------- Charges in the numbers of the policy ----------

  /** A policy value as the documentation of the policies reads: absent is the default, negative is zero. */
  function Nominal(given: Option<real>, default: real): real {
    match given
    case None => default
    case Some(x) => if x < 0.0 then 0.0 else x
  }

  function Count(given: Option<int>, default: nat): nat {
    match given
    case None => default
    case Some(n) => if n < 0 then 0 else n
  }

  /** Counts that are absent or negative are zero; an absent total is input and output together. */
  lemma UsageIsNormalized(u: RawUsage)
    ensures var n := NormalizeUsage(u);
            && n.input == Count(u.input, 0) && n.cachedInput == Count(u.cachedInput, 0)
            && n.output == Count(u.output, 0) && n.reasoning == Count(u.reasoning, 0)
            && n.total == if Count(u.total, 0) > 0 then Count(u.total, 0) else Count(u.input, 0) + Count(u.output, 0)
  {
  }

  function PricedAt(u: Usage, input: real, cachedInput: real, output: real, reasoning: real): real {
    var cached, reasoned := if u.cachedInput < u.input then u.cachedInput else u.input,
                            if u.reasoning < u.output then u.reasoning else u.output;
    (u.input - cached) as real * input + cached as real * cachedInput
    + (u.output - reasoned) as real * output + reasoned as real * reasoning
  }

  /** The thousandth part of a credit that weighted tokens cost. */
  function MilliCredits(p: ModelPolicy, u: Usage): real {
    PricedAt(u, Nominal(p.weights.input, 0.3), Nominal(p.weights.cachedInput, 0.05),
             Nominal(p.weights.output, 1.0), Nominal(p.weights.reasoning, 1.0))
    * Nominal(p.creditsPer1kWeightedTokens, 6.0)
  }

  function MicroUsd(p: ModelPolicy, u: Usage): real {
    PricedAt(u, Nominal(p.usdPer1m.input, 0.0), Nominal(p.usdPer1m.cachedInput, 0.0),
             Nominal(p.usdPer1m.output, 0.0), Nominal(p.usdPer1m.reasoning, 0.0))
  }

  function GuardPerUsd(p: ModelPolicy, g: GlobalPolicy): real {
    Nominal(g.usdToCny, 7.3) * Nominal(g.creditsPerCny, 10.0) * Nominal(p.costGuardMultiplier, 20.0)
  }

  /** The guarded cost, in millionths of a credit. */
  function MicroGuard(p: ModelPolicy, g: GlobalPolicy, u: Usage): real {
    MicroUsd(p, u) * GuardPerUsd(p, g)
  }

  function LeastCredits(p: ModelPolicy, surface: Surface): nat {
    match surface
    case Mission => Count(p.minMissionModelCredits, 10)
    case Chat => Count(p.minChatCredits, 3)
  }

  lemma CeilCovers(x: real, c: int)
    ensures Ceiling(x) <= c <==> x <= c as real
  {
  }

  lemma ProductIsPositive(a: real, b: real)
    requires a > 0.0 && b > 0.0
    ensures a * b > 0.0
  {
  }

  lemma ScaledDifference(x: real, c: real, scale: real)
    ensures (x - c) * scale == x * scale - c * scale
  {
  }

  lemma ScaledAtMost(x: real, y: real, c: real, scale: real)
    requires scale > 0.0 && x * scale == y
    ensures x <= c <==> y <= c * scale
    ensures c < x <==> c * scale < y
  {
    ScaledDifference(x, c, scale);
    if x <= c {
      RealMulLe(x, c, scale);
    } else {
      ProductIsPositive(x - c, scale);
    }
  }

  lemma BetweenCredits(x: real, y: real, scale: real)
    requires scale > 0.0 && x * scale == y
    ensures (Ceiling(x) - 1) as real * scale < y <= Ceiling(x) as real * scale
  {
    ScaledAtMost(x, y, Ceiling(x) as real, scale);
    ScaledAtMost(x, y, (Ceiling(x) - 1) as real, scale);
  }

  lemma PerThousand(x: real, rate: real)
    ensures x / 1000.0 * rate == x * rate / 1000.0
  {
  }

  lemma Regrouped(x: real, a: real, b: real, c: real)
    ensures x * a * b * c == x * (a * b * c)
  {
    assert x * (a * b) == x * a * b;
    assert x * (a * b * c) == x * (a * b) * c;
  }

  lemma WeighsAsPriced(w: Rates, u: Usage)
    ensures WeightedTokens(w, u) == PricedAt(u, w.input, w.cachedInput, w.output, w.reasoning)
  {
  }

  lemma WeightedInNumbers(p: ModelPolicy, u: Usage)
    ensures WeightedTokens(Weights(p), u) * Nominal(p.creditsPer1kWeightedTokens, 6.0) == MilliCredits(p, u)
    ensures WeightedPrice(p, WeightedTokens(Weights(p), u)) == MilliCredits(p, u) / 1000.0
  {
    WeighsAsPriced(Weights(p), u);
    hide PricedAt, WeightedTokens;
    PerThousand(WeightedTokens(Weights(p), u), Nominal(p.creditsPer1kWeightedTokens, 6.0));
  }

  lemma CostInNumbers(p: ModelPolicy, u: Usage)
    ensures RawCostUsd(UsdRates(p), u) == MicroUsd(p, u) / 1000000.0
  {
    RawCostIsWeighted(UsdRates(p), u);
    WeighsAsPriced(UsdRates(p), u);
    hide PricedAt, WeightedTokens, RawCostUsd;
  }

  lemma GuardedPrice(usd: real, micro: real, a: real, b: real, c: real)
    requires usd == micro / 1000000.0
    ensures usd * a * b * c == micro * (a * b * c) / 1000000.0
  {
    Regrouped(usd, a, b, c);
    PerMillion(micro, a * b * c);
  }

  lemma GuardedInNumbers(p: ModelPolicy, g: GlobalPolicy, u: Usage)
    ensures RawCostUsd(UsdRates(p), u) == MicroUsd(p, u) / 1000000.0
    ensures GuardedCost(p, g, RawCostUsd(UsdRates(p), u)) == MicroGuard(p, g, u) / 1000000.0
  {
    hide UsdRates, RawCostUsd, MicroUsd;
    CostInNumbers(p, u);
    GuardedPrice(RawCostUsd(UsdRates(p), u), MicroUsd(p, u),
                 Nominal(g.usdToCny, 7.3), Nominal(g.creditsPerCny, 10.0), Nominal(p.costGuardMultiplier, 20.0));
  }

  lemma MinimumInNumbers(p: ModelPolicy, surface: Surface)
    ensures SurfaceMinimum(p, surface) == LeastCredits(p, surface)
  {
  }

  lemma CreditsCover(p: ModelPolicy, g: GlobalPolicy, surface: Surface, weighted: real, usd: real, c: int)
    ensures Credits(p, g, surface, weighted, usd) <= c <==>
              LeastCredits(p, surface) <= c && WeightedPrice(p, weighted) <= c as real && GuardedCost(p, g, usd) <= c as real
  {
    hide WeightedPrice, GuardedCost, Ceiling;
    CeilCovers(WeightedPrice(p, weighted), c);
    CeilCovers(GuardedCost(p, g, usd), c);
  }

  /**
   The credits charged are the least number that covers the minimum of the surface, the price of the weighted
   tokens and the guarded cost, in the numbers of the policy and its defaults; nothing billable and a disabled
   policy cost nothing.
   */
  lemma ChargeIsTheLeastCover(p: ModelPolicy, g: GlobalPolicy, usage: RawUsage, surface: Surface, billable: Option<int>, c: int)
    ensures var slice := BillableSlice(NormalizeUsage(usage), billable);
            var credits := ChargeUsage(p, g, usage, surface, billable).credits;
            if p.enabled && slice.total > 0 then
              credits <= c <==>
                && LeastCredits(p, surface) <= c
                && MilliCredits(p, slice) <= c as real * 1000.0
                && MicroGuard(p, g, slice) <= c as real * 1000000.0
            else credits == 0
  {
    hide BillableSlice, NormalizeUsage, WeightedTokens, RawCostUsd, WeightedPrice, GuardedCost, MilliCredits, MicroUsd,
         GuardPerUsd, Weights, UsdRates, Credits, LeastCredits, SurfaceMinimum, WeightedCredits, GuardCredits;
    var slice := BillableSlice(NormalizeUsage(usage), billable);
    var weighted, usd := WeightedTokens(Weights(p), slice), RawCostUsd(UsdRates(p), slice);
    CreditsCover(p, g, surface, weighted, usd, c);
    WeightedInNumbers(p, slice);
    GuardedInNumbers(p, g, slice);
    hide MicroGuard;
    ScaledAtMost(WeightedPrice(p, weighted), MilliCredits(p, slice), c as real, 1000.0);
    ScaledAtMost(GuardedCost(p, g, usd), MicroGuard(p, g, slice), c as real, 1000000.0);
  }

  lemma BoundsInNumbers(p: ModelPolicy, g: GlobalPolicy, u: Usage)
    ensures var weighted := WeightedCredits(p, WeightedTokens(Weights(p), u));
            (weighted - 1) as real * 1000.0 < MilliCredits(p, u) <= weighted as real * 1000.0
    ensures var guarded := GuardCredits(p, g, RawCostUsd(UsdRates(p), u));
            (guarded - 1) as real * 1000000.0 < MicroGuard(p, g, u) <= guarded as real * 1000000.0
  {
    hide WeightedTokens, RawCostUsd, WeightedPrice, GuardedCost, MilliCredits, MicroGuard, Weights, UsdRates, Ceiling;
    WeightedInNumbers(p, u);
    GuardedInNumbers(p, g, u);
    BetweenCredits(WeightedPrice(p, WeightedTokens(Weights(p), u)), MilliCredits(p, u), 1000.0);
    BetweenCredits(GuardedCost(p, g, RawCostUsd(UsdRates(p), u)), MicroGuard(p, g, u), 1000000.0);
  }

  /** The other fields of a charge: what was billed and measured, and the three bounds it is the greatest of. */
  lemma ChargeShowsItsBounds(p: ModelPolicy, g: GlobalPolicy, usage: RawUsage, surface: Surface, billable: Option<int>)
    ensures var slice := BillableSlice(NormalizeUsage(usage), billable);
            var charge := ChargeUsage(p, g, usage, surface, billable);
            && charge.billableTokens == slice.total
            && if p.enabled && slice.total > 0 then
                 && charge.minimumCredits == LeastCredits(p, surface)
                 && (charge.weightedCredits - 1) as real * 1000.0 < MilliCredits(p, slice)
                                                      <= charge.weightedCredits as real * 1000.0
                 && (charge.guardCredits - 1) as real * 1000000.0 < MicroGuard(p, g, slice)
                                                      <= charge.guardCredits as real * 1000000.0
                 && charge.weightedTokens * Nominal(p.creditsPer1kWeightedTokens, 6.0) == MilliCredits(p, slice)
                 && charge.rawCostUsd == MicroUsd(p, slice) / 1000000.0
               else charge == Charge(slice.total, 0.0, 0, 0.0, 0, 0, 0)
  {
    hide BillableSlice, NormalizeUsage, WeightedTokens, RawCostUsd, WeightedPrice, GuardedCost, MilliCredits, MicroUsd,
         MicroGuard, GuardPerUsd, Weights, UsdRates, Credits, WeightedCredits, GuardCredits, Nominal;
    var slice := BillableSlice(NormalizeUsage(usage), billable);
    WeightedInNumbers(p, slice);
    GuardedInNumbers(p, g, slice);
    BoundsInNumbers(p, g, slice);
    MinimumInNumbers(p, surface);
  }

  /** Every token of an event is either free or billable, and all of them join the history. */
  lemma EveryTokenIsFreeOrBillable(a: FreeTokenAllowance, total: int, history: int)
    ensures var u := ApplyFreeTokens(a, total, history);
            && u.applied + u.billable == Max(total, 0) && u.historyAfter == Max(history, 0) + Max(total, 0)
            && (!a.enabled ==> u.applied == 0)
  {
  }

  // ---------- The ceiling is the worst case ----------

  function Spent(u: Usage): nat {
    u.input + u.output
  }

  function MaxReal(a: real, b: real): real { if a >= b then a else b }

  function Top(r: Rates): real {
    MaxReal(MaxReal(r.input, r.cachedInput), MaxReal(r.output, r.reasoning))
  }

  lemma Distribute(a: real, b: real, c: real, d: real, t: real)
    ensures a * t + b * t + c * t + d * t == (a + b + c + d) * t
  {
  }

  lemma SumLe(a: real, b: real, c: real, d: real, e: real, f: real, g: real, h: real)
    requires a <= e && b <= f && c <= g && d <= h
    ensures a + b + c + d <= e + f + g + h
  {
  }

  lemma BlendAtMost(a: real, b: real, c: real, d: real, w: Rates, t: real)
    requires a >= 0.0 && b >= 0.0 && c >= 0.0 && d >= 0.0
    requires w.input <= t && w.cachedInput <= t && w.output <= t && w.reasoning <= t
    ensures a * w.input + b * w.cachedInput + c * w.output + d * w.reasoning <= (a + b + c + d) * t
  {
    RealMulLe(w.input, t, a);
    RealMulLe(w.cachedInput, t, b);
    RealMulLe(w.output, t, c);
    RealMulLe(w.reasoning, t, d);
    Distribute(a, b, c, d, t);
    SumLe(a * w.input, b * w.cachedInput, c * w.output, d * w.reasoning, a * t, b * t, c * t, d * t);
  }

  /** However the tokens are split, none of them costs more than the dearest rate. */
  lemma WeightedAtMostTop(w: NonNegative, u: Usage)
    ensures WeightedTokens(w, u) <= Spent(u) as real * Top(w)
  {
    var p := PartitionUsage(u);
    BlendAtMost(p.uncachedInput as real, p.cachedInput as real, p.visibleOutput as real, p.reasoning as real, w, Top(w));
    assert Spent(u) as real == p.uncachedInput as real + p.cachedInput as real + p.visibleOutput as real + p.reasoning as real;
  }

  /** Which scenario spends everything at the dearest rate. */
  function Dearest(w: Rates): (k: nat)
    ensures k < 4
  {
    if w.input == Top(w) then 0 else if w.cachedInput == Top(w) then 1 else if w.output == Top(w) then 2 else 3
  }

  lemma DearestScenario(w: NonNegative, limit: nat)
    requires limit > 0
    ensures WeightedTokens(w, NormalizeUsage(Scenarios(limit)[Dearest(w)])) == limit as real * Top(w)
  {
  }

  lemma WeightedCreditsMonotone(p: ModelPolicy, a: real, b: real)
    requires a <= b
    ensures WeightedCredits(p, a) <= WeightedCredits(p, b)
  {
  }

  lemma GuardCreditsMonotone(p: ModelPolicy, g: GlobalPolicy, a: real, b: real)
    requires a <= b
    ensures GuardCredits(p, g, a) <= GuardCredits(p, g, b)
  {
  }

  lemma CreditsMonotone(p: ModelPolicy, g: GlobalPolicy, surface: Surface, w: real, c: real, w': real, c': real)
    requires w <= w' && c <= c'
    ensures Credits(p, g, surface, w, c) <= Credits(p, g, surface, w', c')
  {
    hide WeightedCredits, GuardCredits;
    WeightedCreditsMonotone(p, w, w');
    GuardCreditsMonotone(p, g, c, c');
  }

  function TopWeight(p: ModelPolicy, n: nat): real {
    n as real * Top(Weights(p))
  }

  function TopUsd(p: ModelPolicy, n: nat): real {
    n as real * Top(UsdRates(p)) / 1000000.0
  }

  /** The credits for a number of tokens all spent at the dearest weight and the dearest cost. */
  function WorstCredits(p: ModelPolicy, g: GlobalPolicy, n: nat, surface: Surface): int {
    Credits(p, g, surface, TopWeight(p, n), TopUsd(p, n))
  }

  lemma TopsMonotone(p: ModelPolicy, m: nat, n: nat)
    requires m <= n
    ensures TopWeight(p, m) <= TopWeight(p, n) && TopUsd(p, m) <= TopUsd(p, n)
  {
    hide Weights, UsdRates;
    RealMulLe(m as real, n as real, Top(Weights(p)));
    RealMulLe(m as real, n as real, Top(UsdRates(p)));
  }

  lemma WorstCreditsMonotone(p: ModelPolicy, g: GlobalPolicy, m: nat, n: nat, surface: Surface)
    requires m <= n
    ensures WorstCredits(p, g, m, surface) <= WorstCredits(p, g, n, surface)
  {
    hide Credits, TopWeight, TopUsd;
    TopsMonotone(p, m, n);
    CreditsMonotone(p, g, surface, TopWeight(p, m), TopUsd(p, m), TopWeight(p, n), TopUsd(p, n));
  }

  lemma UsageAtMostTops(p: ModelPolicy, u: Usage)
    ensures WeightedTokens(Weights(p), u) <= TopWeight(p, Spent(u))
    ensures RawCostUsd(UsdRates(p), u) <= TopUsd(p, Spent(u))
  {
    hide Weights, UsdRates, WeightedTokens, RawCostUsd;
    WeightedAtMostTop(Weights(p), u);
    WeightedAtMostTop(UsdRates(p), u);
    RawCostIsWeighted(UsdRates(p), u);
  }

  lemma WorstIsNotNegative(p: ModelPolicy, g: GlobalPolicy, n: nat, surface: Surface)
    ensures 0 <= WorstCredits(p, g, n, surface)
  {
  }

  /** Any usage, whatever its cached, reasoning and total counts, is charged at most the worst credits for what it spent. */
  lemma ChargeAtMostWorst(p: ModelPolicy, g: GlobalPolicy, usage: RawUsage, surface: Surface, billable: Option<int>, n: nat)
    requires Spent(BillableSlice(NormalizeUsage(usage), billable)) <= n
    ensures ChargeUsage(p, g, usage, surface, billable).credits <= WorstCredits(p, g, n, surface)
  {
    hide Credits, WeightedTokens, RawCostUsd, Weights, UsdRates, TopWeight, TopUsd, BillableSlice, NormalizeUsage;
    var u := BillableSlice(NormalizeUsage(usage), billable);
    UsageAtMostTops(p, u);
    CreditsMonotone(p, g, surface, WeightedTokens(Weights(p), u), RawCostUsd(UsdRates(p), u),
                    TopWeight(p, Spent(u)), TopUsd(p, Spent(u)));
    WorstCreditsMonotone(p, g, Spent(u), n, surface);
    WorstIsNotNegative(p, g, n, surface);
  }

  lemma ScenarioCharge(p: ModelPolicy, g: GlobalPolicy, limit: nat, surface: Surface, k: nat)
    requires limit > 0 && k < 4 && p.enabled
    ensures var u := NormalizeUsage(Scenarios(limit)[k]);
            var credits := Credits(p, g, surface, WeightedTokens(Weights(p), u), RawCostUsd(UsdRates(p), u));
            && ChargeUsage(p, g, Scenarios(limit)[k], surface, None).credits == credits
            && credits <= CreditCeiling(p, g, limit, surface)
  {
    hide Credits, WeightedTokens, RawCostUsd, Weights, UsdRates, WeightedCredits, GuardCredits, SurfaceMinimum;
  }

  /** The scenario spending everything at the dearest weight reaches the weighted part, and likewise the guard. */
  lemma CeilingReachesParts(p: ModelPolicy, g: GlobalPolicy, limit: nat, surface: Surface)
    requires limit > 0 && p.enabled
    ensures SurfaceMinimum(p, surface) <= CreditCeiling(p, g, limit, surface)
    ensures WeightedCredits(p, TopWeight(p, limit)) <= CreditCeiling(p, g, limit, surface)
    ensures GuardCredits(p, g, TopUsd(p, limit)) <= CreditCeiling(p, g, limit, surface)
  {
    hide WeightedTokens, RawCostUsd, Weights, UsdRates, WeightedCredits, GuardCredits, CreditCeiling, ChargeUsage, NormalizeUsage;
    var i, j := Dearest(Weights(p)), Dearest(UsdRates(p));
    DearestScenario(Weights(p), limit);
    DearestScenario(UsdRates(p), limit);
    RawCostIsWeighted(UsdRates(p), NormalizeUsage(Scenarios(limit)[j]));
    ScenarioCharge(p, g, limit, surface, i);
    ScenarioCharge(p, g, limit, surface, j);
    var u, v := NormalizeUsage(Scenarios(limit)[i]), NormalizeUsage(Scenarios(limit)[j]);
    assert TopWeight(p, limit) == WeightedTokens(Weights(p), u);
    assert TopUsd(p, limit) == RawCostUsd(UsdRates(p), v);
    var a := Credits(p, g, surface, WeightedTokens(Weights(p), u), RawCostUsd(UsdRates(p), u));
    var b := Credits(p, g, surface, WeightedTokens(Weights(p), v), RawCostUsd(UsdRates(p), v));
    assert WeightedCredits(p, TopWeight(p, limit)) <= a;
    assert GuardCredits(p, g, TopUsd(p, limit)) <= b;
  }

  lemma CeilingAtMostWorst(p: ModelPolicy, g: GlobalPolicy, limit: nat, surface: Surface)
    requires limit > 0
    ensures CreditCeiling(p, g, limit, surface) <= WorstCredits(p, g, limit, surface)
  {
    hide ChargeUsage, WorstCredits;
    forall k | 0 <= k < 4
      ensures ChargeUsage(p, g, Scenarios(limit)[k], surface, None).credits <= WorstCredits(p, g, limit, surface)
    {
      ChargeAtMostWorst(p, g, Scenarios(limit)[k], surface, None, limit);
    }
  }

  /** The maximum over the four scenarios has a closed form. */
  lemma CeilingIsWorst(p: ModelPolicy, g: GlobalPolicy, limit: nat, surface: Surface)
    requires limit > 0 && p.enabled
    ensures CreditCeiling(p, g, limit, surface) == WorstCredits(p, g, limit, surface)
  {
    hide TopWeight, TopUsd, WeightedCredits, GuardCredits, CreditCeiling;
    CeilingAtMostWorst(p, g, limit, surface);
    CeilingReachesParts(p, g, limit, surface);
  }

  /** For a limit of at least one token, no usage that spends at most the limit is charged more than the ceiling. */
  lemma CeilingCoversEveryUsage(p: ModelPolicy, g: GlobalPolicy, limit: int, surface: Surface, usage: RawUsage)
    requires limit >= 1 && Spent(NormalizeUsage(usage)) <= limit
    ensures ChargeUsage(p, g, usage, surface, None).credits <= CreditCeiling(p, g, limit, surface)
  {
    if p.enabled {
      ChargeAtMostWorst(p, g, usage, surface, None, limit);
      CeilingIsWorst(p, g, limit, surface);
    }
  }

  /** Some well-formed usage of exactly the limit is charged the ceiling. */
  lemma CeilingIsAttained(p: ModelPolicy, g: GlobalPolicy, limit: int, surface: Surface) returns (usage: RawUsage)
    requires limit >= 1
    ensures WellFormed(NormalizeUsage(usage)) && NormalizeUsage(usage).total == limit == Spent(NormalizeUsage(usage))
    ensures ChargeUsage(p, g, usage, surface, None).credits == CreditCeiling(p, g, limit, surface)
  {
    var s := Scenarios(limit);
    var k :| 0 <= k < 4 && ChargeUsage(p, g, s[k], surface, None).credits == CreditCeiling(p, g, limit, surface);
    usage := s[k];
  }

  lemma NothingCostsNothing(p: ModelPolicy, g: GlobalPolicy, limit: int, surface: Surface)
    ensures limit <= 0 || !p.enabled ==> CreditCeiling(p, g, limit, surface) == 0
  {
  }

  lemma CeilingIsMonotone(p: ModelPolicy, g: GlobalPolicy, m: int, n: int, surface: Surface)
    requires m <= n
    ensures 0 <= CreditCeiling(p, g, m, surface) <= CreditCeiling(p, g, n, surface)
  {
    if p.enabled && n > 0 {
      CeilingIsWorst(p, g, n, surface);
      if m > 0 {
        CeilingIsWorst(p, g, m, surface);
        WorstCreditsMonotone(p, g, m, n, surface);
      }
    }
  }

  /** With more history or more reserved free tokens, the hold on credits never falls. */
  lemma HoldNeverFalls(p: ModelPolicy, g: GlobalPolicy, history: int, reserved: int, moreHistory: int, moreReserved: int)
    requires history <= moreHistory && reserved <= moreReserved
    ensures AuthorizeChatTurn(p, g, history, reserved).creditHold <= AuthorizeChatTurn(p, g, moreHistory, moreReserved).creditHold
    ensures AuthorizeChatTurn(p, g, history, reserved).freeTokenHold >= AuthorizeChatTurn(p, g, moreHistory, moreReserved).freeTokenHold
  {
    hide CreditCeiling;
    var a, b := AuthorizeChatTurn(p, g, history, reserved), AuthorizeChatTurn(p, g, moreHistory, moreReserved);
    CeilingIsMonotone(p, g, a.billableTokenEnvelope, b.billableTokenEnvelope, Chat);
  }

  /**
   What a quote says: the free and the billable tokens make up the envelope; the ceiling is what the dearest usage of
   the billable ones costs, nothing if there are none or the policy is disabled; the hold is capped at the limit.
   */
  lemma QuoteIsTheDearestTurn(p: ModelPolicy, g: GlobalPolicy, history: int, reserved: int)
    ensures var q := AuthorizeChatTurn(p, g, history, reserved);
            var left := Count(p.freeTokens, 0) - (if history > 0 then history else 0) - (if reserved > 0 then reserved else 0);
            && q.tokenEnvelope == Count(p.chatTurnTokenReserve, 65536) == q.freeTokenHold + q.billableTokenEnvelope
            && (if left <= 0 then q.freeTokenHold == 0 else q.freeTokenHold <= left)
            && (q.billableTokenEnvelope > 0 && left > 0 ==> q.freeTokenHold == left)
            && (q.billableTokenEnvelope == 0 || !p.enabled ==> q.uncappedCreditCeiling == 0 == q.creditHold)
            && (q.billableTokenEnvelope > 0 ==>
                  exists usage: RawUsage ::
                    && WellFormed(NormalizeUsage(usage)) && NormalizeUsage(usage).total == q.billableTokenEnvelope
                    && ChargeUsage(p, g, usage, Chat, None).credits == q.uncappedCreditCeiling)
            && q.creditLimit == Count(p.chatTurnMaxCredits, 100)
            && (if q.uncappedCreditCeiling <= q.creditLimit then q.creditHold == q.uncappedCreditCeiling
                else q.creditHold == q.creditLimit)
  {
    hide ChargeUsage, CreditCeiling;
    var q := AuthorizeChatTurn(p, g, history, reserved);
    NothingCostsNothing(p, g, q.billableTokenEnvelope, Chat);
    if q.billableTokenEnvelope > 0 {
      var usage := CeilingIsAttained(p, g, q.billableTokenEnvelope, Chat);
    }
  }

  // ---------- The quote covers settlement ----------

  /** Billing at most the billable envelope of a quote stays under its ceiling. */
  lemma QuoteCovers(p: ModelPolicy, g: GlobalPolicy, quote: Quote, usage: RawUsage, billable: nat)
    requires WellFormed(NormalizeUsage(usage)) && billable <= quote.billableTokenEnvelope
    requires quote.uncappedCreditCeiling == CreditCeiling(p, g, quote.billableTokenEnvelope, Chat)
    requires billable <= NormalizeUsage(usage).total
    ensures ChargeUsage(p, g, usage, Chat, Some(billable)).credits <= quote.uncappedCreditCeiling
  {
    var u := NormalizeUsage(usage);
    var s := BillableSlice(u, Some(billable));
    var n := quote.billableTokenEnvelope;
    if billable < u.total {
      SliceAllotsEverything(u, billable);
    }
    assert s.total == billable && Spent(s) <= billable;
    if p.enabled && s.total > 0 {
      ChargeAtMostWorst(p, g, usage, Chat, Some(billable), n);
      CeilingIsWorst(p, g, n, Chat);
    } else {
      CeilingIsMonotone(p, g, 0, n, Chat);
    }
  }

  /**
   The authorization ceiling covers settlement: a well-formed usage within the envelope, settled while the
   allowance still has the held free tokens left, is charged at most the quoted ceiling.
   */
  lemma AuthorizationCoversSettlement(p: ModelPolicy, g: GlobalPolicy, history: int, reserved: int,
                                      allowance: FreeTokenAllowance, historyAtSettlement: int, usage: RawUsage)
    requires allowance.enabled && allowance.freeTokens == IntValue(p.freeTokens, 0)
    requires WellFormed(NormalizeUsage(usage))
    requires NormalizeUsage(usage).total <= AuthorizeChatTurn(p, g, history, reserved).tokenEnvelope
    requires Max(allowance.freeTokens - Max(historyAtSettlement, 0), 0) >= AuthorizeChatTurn(p, g, history, reserved).freeTokenHold
    ensures var free := ApplyFreeTokens(allowance, NormalizeUsage(usage).total, historyAtSettlement);
            ChargeUsage(p, g, usage, Chat, Some(free.billable)).credits
              <= AuthorizeChatTurn(p, g, history, reserved).uncappedCreditCeiling
  {
    var free := ApplyFreeTokens(allowance, NormalizeUsage(usage).total, historyAtSettlement);
    QuoteCovers(p, g, AuthorizeChatTurn(p, g, history, reserved), usage, free.billable);
  }

  /** The turn service bills what its own hold does not cover; that too stays under the quoted ceiling. */
  lemma HeldSettlementIsCovered(p: ModelPolicy, g: GlobalPolicy, history: int, reserved: int, usage: RawUsage)
    requires WellFormed(NormalizeUsage(usage))
    requires NormalizeUsage(usage).total <= AuthorizeChatTurn(p, g, history, reserved).tokenEnvelope
    ensures var quote := AuthorizeChatTurn(p, g, history, reserved);
            var total := NormalizeUsage(usage).total;
            var charge := ChargeUsage(p, g, usage, Chat, Some(Max(total - Min(total, quote.freeTokenHold), 0))).credits;
            charge <= quote.uncappedCreditCeiling
            && (quote.uncappedCreditCeiling <= quote.creditLimit ==> charge <= quote.creditHold)
  {
    hide CreditCeiling, ChargeUsage, NormalizeUsage;
    var quote := AuthorizeChatTurn(p, g, history, reserved);
    var total := NormalizeUsage(usage).total;
    QuoteCovers(p, g, quote, usage, total - Min(total, quote.freeTokenHold));
  }

  // ---------- Free tokens are conserved ----------

  function TotalTokens(events: seq<int>): nat {
    if events == [] then 0 else Max(events[0], 0) + TotalTokens(events[1..])
  }

  /** The free tokens granted over a run of events, threading the history through. */
  function TotalFree(a: FreeTokenAllowance, history: int, events: seq<int>): nat
    decreases |events|
  {
    if events == [] then 0
    else
      var u := ApplyFreeTokens(a, events[0], history);
      u.applied + TotalFree(a, u.historyAfter, events[1..])
  }

  /** A run of events is granted exactly what is left of the allowance, or all its tokens if they are fewer. */
  lemma {:induction false} FreeTokensAreConserved(a: FreeTokenAllowance, history: int, events: seq<int>)
    requires a.enabled
    ensures TotalFree(a, history, events) == Min(TotalTokens(events), Max(a.freeTokens - Max(history, 0), 0))
    decreases |events|
  {
    if events != [] {
      FreeTokensAreConserved(a, ApplyFreeTokens(a, events[0], history).historyAfter, events[1..]);
    }
  }

  lemma {:induction false} NothingFreeWhenDisabled(a: FreeTokenAllowance, history: int, events: seq<int>)
    requires !a.enabled
    ensures TotalFree(a, history, events) == 0
    decreases |events|
  {
    if events != [] {
      NothingFreeWhenDisabled(a, ApplyFreeTokens(a, events[0], history).historyAfter, events[1..]);
    }
  }

  /** However the same number of tokens is split into events, the same number is free. */
  lemma SplittingChangesNothing(a: FreeTokenAllowance, history: int, one: seq<int>, other: seq<int>)
    requires TotalTokens(one) == TotalTokens(other)
    ensures TotalFree(a, history, one) == TotalFree(a, history, other)
  {
    if a.enabled {
      FreeTokensAreConserved(a, history, one);
      FreeTokensAreConserved(a, history, other);
    } else {
      NothingFreeWhenDisabled(a, history, one);
      NothingFreeWhenDisabled(a, history, other);
    }
  }

  /** The free tokens promised by `turns` successive quotes, each adding its hold to the reserved count. */
  function TotalHeld(p: ModelPolicy, g: GlobalPolicy, history: int, reserved: nat, turns: nat): nat
    decreases turns
  {
    if turns == 0 then 0
    else
      var hold := AuthorizeChatTurn(p, g, history, reserved).freeTokenHold;
      hold + TotalHeld(p, g, history, reserved + hold, turns - 1)
  }

  /** Successive quotes promise one envelope each until the remaining allowance is spent, and never more than it. */
  lemma {:induction false} QuotesNeverOverpromise(p: ModelPolicy, g: GlobalPolicy, history: int, reserved: nat, turns: nat)
    ensures TotalHeld(p, g, history, reserved, turns) ==
              Min(turns * IntValue(p.chatTurnTokenReserve, 65536),
                  Max(IntValue(p.freeTokens, 0) - Max(history, 0) - reserved, 0))
    decreases turns
  {
    hide CreditCeiling;
    if turns > 0 {
      var envelope := IntValue(p.chatTurnTokenReserve, 65536);
      var hold := AuthorizeChatTurn(p, g, history, reserved).freeTokenHold;
      QuotesNeverOverpromise(p, g, history, reserved + hold, turns - 1);
      assert turns * envelope == (turns - 1) * envelope + envelope;
      assert (turns - 1) * envelope >= 0;
    }
  }
}
