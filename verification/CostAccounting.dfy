// Recording what a model call cost: estimate, canonical record, and the
// movement of the budget.
module CostAccounting {
  import opened Wrappers
  import opened Money

  /** Per-thousand rates as the registry knows them. */
  datatype Listing = Listing(input: Option<real>, output: Option<real>, cached: Option<real>)

  datatype Pricing = Pricing(input: real, output: real, cached: real, fromRegistry: bool)

  const DEFAULTS := Pricing(0.001, 0.003, 0.0002, false)

  function Or(o: Option<real>, d: real): real {
    if o.Some? then o.value else d
  }

  /** The registry's rates when it has any, with defaults for what is missing. */
  function Resolve(listing: Option<Listing>): Pricing {
    if listing.None? || (listing.value.input.None? && listing.value.output.None?) then DEFAULTS
    else Pricing(Or(listing.value.input, DEFAULTS.input), Or(listing.value.output, DEFAULTS.output),
                 Or(listing.value.cached, DEFAULTS.cached), true)
  }

  datatype Estimate = Estimate(input: real, cached: real, output: real, reasoning: real)

  function Total(e: Estimate): real {
    e.input + e.cached + e.output + e.reasoning
  }

  /** Token counts as the provider reported them; None is unknown, and a
      negative count is not believed. */
  datatype Usage = Usage(input: Option<real>, output: Option<real>, cached: Option<real>, reasoning: Option<real>)

  /** The provider's charge; a null charge counts as a charge of zero. */
  datatype Charge = NoCharge | NullCharge | Charged(usd: real)

  datatype Call = Call(listing: Option<Listing>, usage: Usage, promptTokens: real, charge: Charge)

  function EstimateCost(p: Pricing, input: real, output: real, cached: real, reasoning: real): Estimate {
    var uncached := if input > cached then input - cached else 0.0;
    Estimate(uncached / 1000.0 * p.input, cached / 1000.0 * p.cached, output / 1000.0 * p.output,
             if reasoning > 0.0 then reasoning / 1000.0 * p.output else 0.0)
  }

  function Seen(tokens: Option<real>): Option<real> {
    if tokens.Some? && tokens.value < 0.0 then None else tokens
  }

  function EstimateOf(c: Call): Estimate {
    EstimateCost(Resolve(c.listing), Or(Seen(c.usage.input), c.promptTokens), Or(Seen(c.usage.output), 0.0),
                 Or(Seen(c.usage.cached), 0.0), Or(Seen(c.usage.reasoning), 0.0))
  }

  /** The charge, if there is one that is not negative. */
  function ProviderCharge(c: Call): Option<real> {
    match c.charge
    case NoCharge => None
    case NullCharge => Some(0.0)
    case Charged(x) => if x >= 0.0 then Some(x) else None
  }

  predicate Observed(c: Call) {
    Seen(c.usage.input).Some? && Seen(c.usage.output).Some?
  }

  /** A calculated cost needs observed usage and registry pricing; unknown and
      negative figures stay unknown. */
  function Calculated(c: Call): Option<real> {
    if Observed(c) && Resolve(c.listing).fromRegistry && Total(EstimateOf(c)) >= 0.0 then Some(Round6(Total(EstimateOf(c)))) else None
  }

  /** The canonical cost of the call: what the provider charged, else the
      calculated cost. */
  function Canonical(c: Call): Option<real> {
    if ProviderCharge(c).Some? then Some(Round6(ProviderCharge(c).value)) else Calculated(c)
  }

  // ---------- what an estimate amounts to ----------

  predicate Counted(tokens: Option<real>) {
    tokens.Some? && tokens.value >= 0.0
  }

  lemma PerThousand(tokens: real, rate: real)
    ensures 1000.0 * (tokens / 1000.0 * rate) == tokens * rate
  {
  }

  /** For a listed model and counts that the provider reported, a thousand times
      the cost is every token at its own rate: cached input at the cached rate,
      the rest of the input at the input rate, output and reasoning at the output
      rate. */
  lemma EveryTokenAtItsRate(c: Call)
    requires c.listing.Some? && c.listing.value.input.Some? && c.listing.value.output.Some? && c.listing.value.cached.Some?
    requires Counted(c.usage.input) && Counted(c.usage.output) && Counted(c.usage.cached) && Counted(c.usage.reasoning)
    ensures var l, u := c.listing.value, c.usage;
            var uncached := if u.input.value >= u.cached.value then u.input.value - u.cached.value else 0.0;
            && 1000.0 * Total(EstimateOf(c))
               == uncached * l.input.value + u.cached.value * l.cached.value + (u.output.value + u.reasoning.value) * l.output.value
            && 1000.0 * EstimateOf(c).input == uncached * l.input.value && 1000.0 * EstimateOf(c).cached == u.cached.value * l.cached.value
            && 1000.0 * EstimateOf(c).output == u.output.value * l.output.value
  {
    var l, u := c.listing.value, c.usage;
    var e := EstimateOf(c);
    var uncached := if u.input.value >= u.cached.value then u.input.value - u.cached.value else 0.0;
    assert e.input == uncached / 1000.0 * l.input.value && e.cached == u.cached.value / 1000.0 * l.cached.value;
    assert e.output == u.output.value / 1000.0 * l.output.value && e.reasoning == u.reasoning.value / 1000.0 * l.output.value;
    PerThousand(uncached, l.input.value);
    PerThousand(u.cached.value, l.cached.value);
    PerThousand(u.output.value, l.output.value);
    PerThousand(u.reasoning.value, l.output.value);
  }

  /** What the registry does not list is priced at the defaults, and a model that
      lists neither an input nor an output rate is not priced by it at all. */
  lemma DefaultsFillTheGaps(l: Listing)
    ensures Resolve(Some(l)).fromRegistry <==> l.input.Some? || l.output.Some?
    ensures !Resolve(None).fromRegistry
    ensures l.input.Some? ==> Resolve(Some(l)).input == l.input.value && (l.output.None? ==> Resolve(Some(l)).output == 0.003)
    ensures l.output.Some? ==> Resolve(Some(l)).output == l.output.value && (l.input.None? ==> Resolve(Some(l)).input == 0.001)
    ensures l.cached.Some? && (l.input.Some? || l.output.Some?) ==> Resolve(Some(l)).cached == l.cached.value
    ensures l.cached.None? || (l.input.None? && l.output.None?) ==> Resolve(Some(l)).cached == 0.0002
  {
  }

  /** Input that was not reported is taken from the prompt, anything else that was
      not reported, or is negative, counts as nothing. */
  lemma MissingCountsAreFilled(c: Call)
    ensures !Counted(c.usage.input) ==> EstimateOf(c) == EstimateOf(c.(usage := c.usage.(input := None)))
    ensures c.usage.input.None? && c.promptTokens >= 0.0 ==>
              EstimateOf(c) == EstimateOf(c.(usage := c.usage.(input := Some(c.promptTokens))))
    ensures !Counted(c.usage.output) ==> EstimateOf(c) == EstimateOf(c.(usage := c.usage.(output := Some(0.0))))
    ensures !Counted(c.usage.cached) ==> EstimateOf(c) == EstimateOf(c.(usage := c.usage.(cached := Some(0.0))))
    ensures !Counted(c.usage.reasoning) ==> EstimateOf(c) == EstimateOf(c.(usage := c.usage.(reasoning := Some(0.0))))
  {
  }

  /** The canonical cost is the charge where there is one that is not negative,
      else the estimate where usage and pricing are known, within half a
      millionth, and otherwise unknown. */
  lemma CanonicalIsChargeOrEstimate(c: Call)
    ensures Canonical(c).Some? <==>
              c.charge.NullCharge? || (c.charge.Charged? && c.charge.usd >= 0.0)
              || (Counted(c.usage.input) && Counted(c.usage.output) && Resolve(c.listing).fromRegistry && Total(EstimateOf(c)) >= 0.0)
    ensures c.charge.Charged? && c.charge.usd >= 0.0 ==> -HALF <= c.charge.usd - Canonical(c).value <= HALF
    ensures Canonical(c).Some? && (c.charge.NoCharge? || (c.charge.Charged? && c.charge.usd < 0.0)) ==>
              -HALF <= Total(EstimateOf(c)) - Canonical(c).value <= HALF
  {
    if c.charge.Charged? {
      RoundingIsClose(c.charge.usd);
    }
    RoundingIsClose(Total(EstimateOf(c)));
  }

  // ---------- the budget ----------

  function Reconciliation(c: Call): real {
    if ProviderCharge(c).None? then 0.0
    else
      var difference := Canonical(c).value - Or(Calculated(c), 0.0);
      if difference > HALF || -difference > HALF then difference else 0.0
  }

  function Movement(c: Call): real {
    Total(EstimateOf(c)) + Reconciliation(c)
  }

  /** The canonical cost of a charge that could be calculated is met within half
      a millionth; without a charge, so is the calculated cost. */
  lemma CallMovesByCanonicalCost(c: Call)
    requires Calculated(c).Some?
    ensures Canonical(c).Some? && -HALF <= Movement(c) - Canonical(c).value <= HALF
  {
    var total := Total(EstimateOf(c));
    RoundingIsClose(total);
    if ProviderCharge(c).Some? && Reconciliation(c) == 0.0 {
      RoundedAmountsAreApart(ProviderCharge(c).value, total);
    }
  }

  /** Exactly when a charged call stays within the bound: its cost could be
      calculated, or its estimate is itself within the bound. */
  lemma BoundHoldsIff(c: Call)
    requires ProviderCharge(c).Some?
    ensures -HALF <= Movement(c) - Canonical(c).value <= HALF <==>
              Calculated(c).Some? || -HALF <= Total(EstimateOf(c)) <= HALF
  {
    RoundingKeepsSign(ProviderCharge(c).value);
    if Canonical(c).value <= HALF {
      RoundedAmountsAreApart(ProviderCharge(c).value, 0.0);
    }
    if Calculated(c).Some? {
      CallMovesByCanonicalCost(c);
    }
  }

  /** A null charge, which is unknown, is booked as a charge of zero: the call is
      free exactly where its cost could be calculated or is nothing anyway. */
  lemma NullChargeIsFree(c: Call)
    requires c.charge.NullCharge?
    ensures Canonical(c) == Some(0.0)
    ensures -HALF <= Movement(c) <= HALF <==> Calculated(c).Some? || -HALF <= Total(EstimateOf(c)) <= HALF
  {
    RoundingKeepsSign(0.0);
    RoundingIsClose(0.0);
    assert Round6(0.0) == 0.0;
    BoundHoldsIff(c);
  }

  /** A call of a model the registry does not price pays its default-priced
      estimate on top of the provider's charge. */
  lemma UnpricedCallPaysTwice(c: Call)
    requires !Resolve(c.listing).fromRegistry && ProviderCharge(c).Some? && Canonical(c).value > HALF
    ensures Movement(c) == Canonical(c).value + Total(EstimateOf(c))
  {
  }

  function Sum(calls: seq<Call>, f: Call -> real): real {
    if calls == [] then 0.0 else Sum(calls[..|calls| - 1], f) + f(calls[|calls| - 1])
  }

  /** N calls drift by at most N times half a millionth. */
  lemma {:induction false} DriftGrowsLinearly(calls: seq<Call>)
    requires forall i :: 0 <= i < |calls| ==> Calculated(calls[i]).Some?
    ensures var drift := Sum(calls, Movement) - Sum(calls, (c: Call) => Or(Canonical(c), 0.0));
            -HALF * |calls| as real <= drift <= HALF * |calls| as real
  {
    if calls != [] {
      DriftGrowsLinearly(calls[..|calls| - 1]);
      CallMovesByCanonicalCost(calls[|calls| - 1]);
    }
  }

  /** The running budget with its categories. */
  class Budget {
    var spend: real
    var input: real
    var output: real
    var cached: real
    var reasoning: real
    var reconciliation: real

    ghost predicate Valid()
      reads this
    {
      spend == input + output + cached + reasoning + reconciliation
    }

    constructor ()
      ensures Valid() && spend == 0.0
    {
      spend, input, output, cached, reasoning, reconciliation := 0.0, 0.0, 0.0, 0.0, 0.0, 0.0;
    }

    /** Books a call. The categories always add up to the spend, and the spend
        moves by the canonical cost within half a millionth whenever the cost
        could be calculated. */
    method RecordCall(c: Call) returns (canonical: Option<real>)
      requires Valid()
      modifies this
      ensures Valid() && canonical == Canonical(c)
      ensures spend == old(spend) + Movement(c)
      ensures input == old(input) + EstimateOf(c).input && output == old(output) + EstimateOf(c).output
      ensures cached == old(cached) + EstimateOf(c).cached && reasoning == old(reasoning) + EstimateOf(c).reasoning
      ensures reconciliation == old(reconciliation) + Reconciliation(c)
      ensures Calculated(c).Some? ==> -HALF <= spend - old(spend) - canonical.value <= HALF
    {
      if Calculated(c).Some? {
        CallMovesByCanonicalCost(c);
      }
      var e := EstimateOf(c);
      canonical := Canonical(c);
      input, spend := input + e.input, spend + e.input;
      output, spend := output + e.output, spend + e.output;
      if e.cached != 0.0 {
        cached, spend := cached + e.cached, spend + e.cached;
      }
      if e.reasoning != 0.0 {
        reasoning, spend := reasoning + e.reasoning, spend + e.reasoning;
      }
      if ProviderCharge(c).Some? {
        var difference := canonical.value - Or(Calculated(c), 0.0);
        if difference > HALF || -difference > HALF {
          reconciliation, spend := reconciliation + difference, spend + difference;
        }
      }
    }
  }
}
