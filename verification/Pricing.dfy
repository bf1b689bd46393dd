/**
 Credit pricing in exact arithmetic: weights, costs and ratios are reals, floors and ceilings are
 those of the code. Policy values are looked up, coerced and defaulted as the code does.
 */
module Pricing {
  import opened Numbers
  import opened Wrappers

  function Max(a: int, b: int): int { if a >= b then a else b }

  function Min(a: int, b: int): int { if a <= b then a else b }

  // ---------- Policies ----------

  /** A missing value takes its default; a negative one counts as zero. */
  function RealValue(v: Option<real>, default: real): (r: real)
    ensures r >= 0.0
  {
    var x := if v.Some? then v.value else default;
    if x >= 0.0 then x else 0.0
  }

  function IntValue(v: Option<int>, default: int): (r: nat) {
    Max(if v.Some? then v.value else default, 0)
  }

  datatype RawRates = RawRates(input: Option<real>, cachedInput: Option<real>, output: Option<real>, reasoning: Option<real>)

  datatype ModelPolicy = ModelPolicy(
    enabled: bool,
    weights: RawRates,
    creditsPer1kWeightedTokens: Option<real>,
    usdPer1m: RawRates,
    costGuardMultiplier: Option<real>,
    minChatCredits: Option<int>,
    minMissionModelCredits: Option<int>,
    freeTokens: Option<int>,
    chatTurnTokenReserve: Option<int>,
    chatTurnMaxCredits: Option<int>)

  datatype GlobalPolicy = GlobalPolicy(creditsPerCny: Option<real>, usdToCny: Option<real>)

  datatype Surface = Mission | Chat

  /** Rates of the four parts of a usage. */
  datatype Rates = Rates(input: real, cachedInput: real, output: real, reasoning: real)

  type NonNegative = r: Rates | r.input >= 0.0 && r.cachedInput >= 0.0 && r.output >= 0.0 && r.reasoning >= 0.0
    witness Rates(0.0, 0.0, 0.0, 0.0)

  function Weights(p: ModelPolicy): NonNegative {
    Rates(RealValue(p.weights.input, 0.3), RealValue(p.weights.cachedInput, 0.05),
          RealValue(p.weights.output, 1.0), RealValue(p.weights.reasoning, 1.0))
  }

  function UsdRates(p: ModelPolicy): NonNegative {
    Rates(RealValue(p.usdPer1m.input, 0.0), RealValue(p.usdPer1m.cachedInput, 0.0),
          RealValue(p.usdPer1m.output, 0.0), RealValue(p.usdPer1m.reasoning, 0.0))
  }

  function SurfaceMinimum(p: ModelPolicy, surface: Surface): nat {
    if surface.Mission? then IntValue(p.minMissionModelCredits, 10) else IntValue(p.minChatCredits, 3)
  }

  // ---------- Usage ----------

  datatype RawUsage = RawUsage(input: Option<int>, cachedInput: Option<int>, output: Option<int>,
                               reasoning: Option<int>, total: Option<int>)

  datatype Usage = Usage(input: nat, cachedInput: nat, output: nat, reasoning: nat, total: nat)

  function NormalizeUsage(u: RawUsage): Usage {
    var input, output, total := IntValue(u.input, 0), IntValue(u.output, 0), IntValue(u.total, 0);
    Usage(input, IntValue(u.cachedInput, 0), output, IntValue(u.reasoning, 0), if total <= 0 then input + output else total)
  }

  /** The shape the accounting table enforces. */
  predicate WellFormed(u: Usage) {
    u.cachedInput <= u.input && u.reasoning <= u.output && u.input + u.output <= u.total
  }

  datatype Partition = Partition(uncachedInput: nat, cachedInput: nat, visibleOutput: nat, reasoning: nat)

  function PartitionUsage(u: Usage): Partition {
    var cached, reasoning := Min(u.cachedInput, u.input), Min(u.reasoning, u.output);
    Partition(u.input - cached, cached, u.output - reasoning, reasoning)
  }

  /** `floor(x * ratio)` where the ratio is `billable / total`. */
  function FloorShare(x: nat, billable: nat, total: nat): int
    requires total > 0
  {
    (x as real * (billable as real / total as real)).Floor
  }

  lemma Quotient(d: real, t: real, r: real)
    requires t > 0.0 && d * t == r && 0.0 <= r < t
    ensures 0.0 <= d < 1.0
  {
    assert d < 0.0 ==> d * t < 0.0;
    assert d * t == (d - 1.0) * t + t;
    assert d >= 1.0 ==> (d - 1.0) * t >= 0.0;
  }

  /** The share is the integer quotient, so it is a natural number. */
  lemma FloorShareIsQuotient(x: nat, billable: nat, total: nat)
    requires total > 0
    ensures FloorShare(x, billable, total) == x * billable / total
  {
    var q, r := x * billable / total, x * billable % total;
    var t := total as real;
    var v := x as real * (billable as real / t);
    assert v * t == x as real * billable as real;
    assert x * billable == q * total + r;
    assert (x * billable) as real == x as real * billable as real;
    assert (q * total + r) as real == q as real * t + r as real;
    assert v * t == q as real * t + r as real;
    assert (v - q as real) * t == r as real;
    Quotient(v - q as real, t, r as real);
  }

  lemma FloorShareIsNat(x: nat, billable: nat, total: nat)
    requires total > 0
    ensures FloorShare(x, billable, total) >= 0
  {
  }

  function BillableSlice(u: Usage, billable: Option<int>): Usage {
    if billable.None? then u
    else
      var b := Max(billable.value, 0);
      if u.total <= 0 || b >= u.total then u
      else
        FloorShareIsNat(u.input, b, u.total);
        FloorShareIsNat(u.output, b, u.total);
        FloorShareIsNat(u.cachedInput, b, u.total);
        FloorShareIsNat(u.reasoning, b, u.total);
        var input, output := FloorShare(u.input, b, u.total), FloorShare(u.output, b, u.total);
        var remainder := Max(b - (input + output), 0);
        var fullOutput := if remainder > 0 then output + remainder else output;
        Usage(input, Min(FloorShare(u.cachedInput, b, u.total), input),
              fullOutput, Min(FloorShare(u.reasoning, b, u.total), fullOutput), b)
  }

  // ---------- Charges ----------

  function WeightedTokens(w: Rates, u: Usage): real {
    var p := PartitionUsage(u);
    p.uncachedInput as real * w.input + p.cachedInput as real * w.cachedInput
    + p.visibleOutput as real * w.output + p.reasoning as real * w.reasoning
  }

  function RawCostUsd(usd: Rates, u: Usage): real {
    var p := PartitionUsage(u);
    p.uncachedInput as real / 1000000.0 * usd.input + p.cachedInput as real / 1000000.0 * usd.cachedInput
    + p.visibleOutput as real / 1000000.0 * usd.output + p.reasoning as real / 1000000.0 * usd.reasoning
  }

  datatype Charge = Charge(billableTokens: nat, weightedTokens: real, weightedCredits: int, rawCostUsd: real,
                           guardCredits: int, minimumCredits: nat, credits: int)

  /** The exact price of weighted tokens, in credits. */
  function WeightedPrice(p: ModelPolicy, weighted: real): real {
    weighted / 1000.0 * RealValue(p.creditsPer1kWeightedTokens, 6.0)
  }

  /** The exact cost in credits, times the guard. */
  function GuardedCost(p: ModelPolicy, g: GlobalPolicy, usd: real): real {
    usd * RealValue(g.usdToCny, 7.3) * RealValue(g.creditsPerCny, 10.0) * RealValue(p.costGuardMultiplier, 20.0)
  }

  function WeightedCredits(p: ModelPolicy, weighted: real): int {
    Ceiling(WeightedPrice(p, weighted))
  }

  function GuardCredits(p: ModelPolicy, g: GlobalPolicy, usd: real): int {
    Ceiling(GuardedCost(p, g, usd))
  }

  /** The dearest of the minimum, the weighted tokens and the cost guard. */
  function Credits(p: ModelPolicy, g: GlobalPolicy, surface: Surface, weighted: real, usd: real): int {
    Max(Max(SurfaceMinimum(p, surface), WeightedCredits(p, weighted)), GuardCredits(p, g, usd))
  }

  function ChargeUsage(p: ModelPolicy, g: GlobalPolicy, usage: RawUsage, surface: Surface, billable: Option<int>): Charge {
    var slice := BillableSlice(NormalizeUsage(usage), billable);
    if slice.total <= 0 || !p.enabled then Charge(slice.total, 0.0, 0, 0.0, 0, 0, 0)
    else
      var weighted, usd := WeightedTokens(Weights(p), slice), RawCostUsd(UsdRates(p), slice);
      Charge(slice.total, weighted, WeightedCredits(p, weighted), usd, GuardCredits(p, g, usd),
             SurfaceMinimum(p, surface), Credits(p, g, surface, weighted, usd))
  }

  /** The four extreme ways to spend a number of tokens. */
  function Scenarios(limit: nat): (s: seq<RawUsage>)
    ensures |s| == 4
  {
    [RawUsage(Some(limit), Some(0), Some(0), Some(0), Some(limit)),
     RawUsage(Some(limit), Some(limit), Some(0), Some(0), Some(limit)),
     RawUsage(Some(0), Some(0), Some(limit), Some(0), Some(limit)),
     RawUsage(Some(0), Some(0), Some(limit), Some(limit), Some(limit))]
  }

  function CreditCeiling(p: ModelPolicy, g: GlobalPolicy, tokenLimit: int, surface: Surface): int {
    var limit := Max(tokenLimit, 0);
    if limit <= 0 then 0
    else
      var s := Scenarios(limit);
      Max(Max(ChargeUsage(p, g, s[0], surface, None).credits, ChargeUsage(p, g, s[1], surface, None).credits),
          Max(ChargeUsage(p, g, s[2], surface, None).credits, ChargeUsage(p, g, s[3], surface, None).credits))
  }

  // ---------- Free tokens and authorization ----------

  datatype FreeTokenAllowance = FreeTokenAllowance(enabled: bool, freeTokens: int)

  datatype FreeTokenUsage = FreeTokenUsage(applied: nat, billable: nat, historyAfter: nat)

  function ApplyFreeTokens(a: FreeTokenAllowance, totalTokens: int, historyBefore: int): FreeTokenUsage {
    var total, before := Max(totalTokens, 0), Max(historyBefore, 0);
    var after := before + total;
    if total <= 0 then FreeTokenUsage(0, 0, after)
    else if !a.enabled then FreeTokenUsage(0, total, after)
    else
      var billable := Max(Max(after - a.freeTokens, 0) - Max(before - a.freeTokens, 0), 0);
      FreeTokenUsage(Max(total - billable, 0), billable, after)
  }

  datatype Quote = Quote(tokenEnvelope: nat, freeTokenHold: nat, billableTokenEnvelope: nat,
                         uncappedCreditCeiling: int, creditLimit: nat, creditHold: int)

  function AuthorizeChatTurn(p: ModelPolicy, g: GlobalPolicy, historicalTokens: int, reservedFreeTokens: int): Quote {
    var envelope := IntValue(p.chatTurnTokenReserve, 65536);
    var remaining := Max(IntValue(p.freeTokens, 0) - Max(historicalTokens, 0) - Max(reservedFreeTokens, 0), 0);
    var hold := Min(remaining, envelope);
    var billable := Max(envelope - hold, 0);
    var ceiling := CreditCeiling(p, g, billable, Chat);
    var limit := IntValue(p.chatTurnMaxCredits, 100);
    Quote(envelope, hold, billable, ceiling, limit, Min(ceiling, limit))
  }
}
