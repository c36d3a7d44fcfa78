// The routing objective: the expected cost of a candidate model, and the choice
// of the cheapest.
module Routing {
  import opened Wrappers
  import opened Money

  const SUCCESS_FLOOR: real := 0.05

  function Max(a: real, b: real): real {
    if a >= b then a else b
  }

  function Min(a: real, b: real): real {
    if a <= b then a else b
  }

  /** A number as the runtime reads it; null coerces to zero. */
  datatype Price = Absent | Null | Known(usd: real)

  function AsNumber(p: Price): Option<real> {
    match p
    case Absent => None
    case Null => Some(0.0)
    case Known(x) => Some(x)
  }

  // ---------- provider cost ----------

  datatype Rates = Rates(input: Option<real>, output: Option<real>, cached: Option<real>)

  predicate KnownRate(r: Option<real>) {
    r.Some? && r.value >= 0.0
  }

  /** Nothing when the pricing is incomplete for the tokens at hand. */
  function ProviderCost(m: Rates, inputTokens: real, outputTokens: real, cachedTokens: real): Option<real> {
    var cached := Max(0.0, Min(inputTokens, cachedTokens));
    if !KnownRate(m.input) || !KnownRate(m.output) || (cached > 0.0 && !KnownRate(m.cached)) then None
    else
      var uncached := Max(0.0, inputTokens - cached);
      var rate := if KnownRate(m.cached) then m.cached.value else 0.0;
      Some(Max(0.0, Round6(uncached / 1000.0 * m.input.value + cached / 1000.0 * rate + Max(0.0, outputTokens) / 1000.0 * m.output.value)))
  }

  lemma ProductKeepsSign(a: real, b: real)
    requires a >= 0.0 && b >= 0.0
    ensures a * b >= 0.0
  {
  }

  /** Unknown pricing never becomes a price: a cost is given exactly when every
      rate it needs is known, and it is never negative. */
  lemma ProviderCostKnownIffPriced(m: Rates, i: real, o: real, c: real)
    ensures ProviderCost(m, i, o, c).Some? <==>
              && m.input.Some? && m.input.value >= 0.0 && m.output.Some? && m.output.value >= 0.0
              && (i <= 0.0 || c <= 0.0 || (m.cached.Some? && m.cached.value >= 0.0))
    ensures ProviderCost(m, i, o, c).Some? ==> ProviderCost(m, i, o, c).value >= 0.0
  {
  }

  /** What a provider cost amounts to: within half a millionth, every thousand
      tokens at its own rate, where no more than the input can have been cached
      and negative counts are nothing. */
  lemma EveryTokenAtItsRate(m: Rates, i: real, o: real, c: real)
    requires ProviderCost(m, i, o, c).Some?
    ensures var input, output, cached := Max(0.0, i), Max(0.0, o), Max(0.0, Min(i, c));
            var rate := if cached > 0.0 then m.cached.value else 0.0;
            var exact := ((input - cached) * m.input.value + cached * rate + output * m.output.value) / 1000.0;
            -HALF <= ProviderCost(m, i, o, c).value - exact <= HALF
  {
    var input, output, cached := Max(0.0, i), Max(0.0, o), Max(0.0, Min(i, c));
    var rate := if KnownRate(m.cached) then m.cached.value else 0.0;
    var exact := ((input - cached) * m.input.value + cached * rate + output * m.output.value) / 1000.0;
    var total := (input - cached) / 1000.0 * m.input.value + cached / 1000.0 * rate + output / 1000.0 * m.output.value;
    assert Max(0.0, i - cached) == input - cached;
    assert total == exact;
    ProductKeepsSign(input - cached, m.input.value);
    ProductKeepsSign(cached, rate);
    ProductKeepsSign(output, m.output.value);
    RoundingKeepsSign(total);
    RoundingIsClose(total);
  }

  // ---------- retries ----------

  function Pow(x: real, k: nat): real {
    if k == 0 then 1.0 else x * Pow(x, k - 1)
  }

  /** The expected number of attempts with up to n retries. */
  function Attempts(r: real, n: nat): real {
    Pow(1.0 - r, n) + if n == 0 then 0.0 else Attempts(r, n - 1)
  }

  lemma {:induction false} PowBounds(x: real, k: nat)
    requires 0.0 <= x <= 1.0
    ensures 0.0 <= Pow(x, k) <= 1.0
  {
    if k > 0 {
      PowBounds(x, k - 1);
      ProductKeepsSign(x, Pow(x, k - 1));
      ProductKeepsSign(1.0 - x, Pow(x, k - 1));
      assert Pow(x, k) == Pow(x, k - 1) - (1.0 - x) * Pow(x, k - 1);
    }
  }

  lemma {:induction false} PowMonotone(x: real, y: real, k: nat)
    requires 0.0 <= x <= y <= 1.0
    ensures Pow(x, k) <= Pow(y, k)
  {
    if k > 0 {
      PowMonotone(x, y, k - 1);
      PowBounds(x, k - 1);
      ProductKeepsSign(y - x, Pow(x, k - 1));
      ProductKeepsSign(y, Pow(y, k - 1) - Pow(x, k - 1));
      assert Pow(y, k) - Pow(x, k) == y * (Pow(y, k - 1) - Pow(x, k - 1)) + (y - x) * Pow(x, k - 1);
    }
  }

  /** Between one and n + 1 attempts are expected. */
  lemma {:induction false} AttemptsBounded(r: real, n: nat)
    requires 0.0 <= r <= 1.0
    ensures 1.0 <= Attempts(r, n) <= n as real + 1.0
  {
    PowBounds(1.0 - r, n);
    if n > 0 {
      AttemptsBounded(r, n - 1);
    }
  }

  /** The more reliable, the fewer attempts. */
  lemma {:induction false} AttemptsAntitone(r: real, s: real, n: nat)
    requires 0.0 <= r <= s <= 1.0
    ensures Attempts(s, n) <= Attempts(r, n)
  {
    PowMonotone(1.0 - s, 1.0 - r, n);
    if n > 0 {
      AttemptsAntitone(r, s, n - 1);
    }
  }

  /** The closed form of the sum. */
  lemma {:induction false} AttemptsAreGeometric(r: real, n: nat)
    ensures r * Attempts(r, n) == 1.0 - Pow(1.0 - r, n + 1)
  {
    var p := Pow(1.0 - r, n);
    assert Pow(1.0 - r, n + 1) == p - r * p;
    if n == 0 {
      assert p == 1.0;
    } else {
      AttemptsAreGeometric(r, n - 1);
      assert r * Attempts(r, n) == r * p + r * Attempts(r, n - 1);
    }
  }

  function RetryBound(maxRetries: int): nat {
    if maxRetries < 0 then 0 else if maxRetries > 5 then 5 else maxRetries
  }

  /** What the attempts after the first cost. */
  function RetrySpend(provider: real, attempts: real): real {
    Round6(Max(0.0, provider * (attempts - 1.0)))
  }

  lemma RetrySpendMonotone(provider: real, a: real, b: real)
    requires provider >= 0.0 && a <= b
    ensures 0.0 <= RetrySpend(provider, a) <= RetrySpend(provider, b)
  {
    ProductKeepsSign(provider, b - a);
    var x, y := provider * (a - 1.0), provider * (b - 1.0);
    assert y - x == provider * (b - a);
    RoundingIsMonotone(Max(0.0, x), Max(0.0, y));
    RoundingKeepsSign(Max(0.0, x));
  }

  /** Nothing for an unknown provider cost or a reliability outside 0..1; a null
      reliability counts as zero. */
  function RetryCost(provider: Option<real>, reliability: Price, maxRetries: int): Option<real> {
    var r := AsNumber(reliability);
    if provider.None? || r.None? || r.value < 0.0 || r.value > 1.0 then None
    else Some(RetrySpend(provider.value, Attempts(r.value, RetryBound(maxRetries))))
  }

  /** A retry cost is given exactly when the provider cost is known and the
      reliability is null or lies in 0..1. */
  lemma RetryCostKnownIff(provider: Option<real>, reliability: Price, maxRetries: int)
    ensures RetryCost(provider, reliability, maxRetries).Some? <==>
              provider.Some? && (reliability.Null? || (reliability.Known? && 0.0 <= reliability.usd <= 1.0))
  {
  }

  lemma {:induction false} CertainFailure(n: nat)
    ensures Pow(1.0, n) == 1.0 && Attempts(0.0, n) == n as real + 1.0
  {
    if n > 0 {
      CertainFailure(n - 1);
    }
  }

  /** A null reliability, which is unknown, is priced like certain failure: every
      allowed retry is paid for. */
  lemma NullReliabilityIsCertainFailure(provider: real, maxRetries: int)
    ensures RetryCost(Some(provider), Null, maxRetries) == RetryCost(Some(provider), Known(0.0), maxRetries)
    ensures RetryCost(Some(provider), Null, maxRetries) == Some(Round6(Max(0.0, provider * RetryBound(maxRetries) as real)))
  {
    CertainFailure(RetryBound(maxRetries));
  }

  /** More than five retries are never priced, and fewer than none are none. */
  lemma RetriesAreCapped(provider: real, reliability: real, n: int)
    requires 0.0 <= reliability <= 1.0
    ensures n > 5 ==> RetryCost(Some(provider), Known(reliability), n) == RetryCost(Some(provider), Known(reliability), 5)
    ensures n <= 0 ==> RetryCost(Some(provider), Known(reliability), n) == Some(0.0)
    ensures 0 < n <= 5 && provider >= 0.0 ==>
              var cost := RetryCost(Some(provider), Known(reliability), n);
              cost.Some? && -HALF <= cost.value - provider * (Attempts(reliability, n) - 1.0) <= HALF
  {
    if 0 < n <= 5 && provider >= 0.0 {
      assert RetryBound(n) == n;
      AttemptsBounded(reliability, n);
      ProductKeepsSign(provider, Attempts(reliability, n) - 1.0);
      RoundingIsClose(provider * (Attempts(reliability, n) - 1.0));
    }
    assert Attempts(reliability, 0) == 1.0;
    assert provider * 0.0 == 0.0 && Round6(0.0) == 0.0;
  }

  method EstimateRetryCost(provider: Option<real>, reliability: Price, maxRetries: int) returns (cost: Option<real>)
    ensures cost == RetryCost(provider, reliability, maxRetries)
  {
    var number := AsNumber(reliability);
    if provider.None? || number.None? || number.value < 0.0 || number.value > 1.0 {
      return None;
    }
    var r, n := number.value, RetryBound(maxRetries);
    var expected, power := 1.0, 1.0;
    for k := 1 to n + 1
      invariant power == Pow(1.0 - r, k - 1)
      invariant expected == Attempts(r, k - 1)
    {
      power := (1.0 - r) * power;
      expected := expected + power;
    }
    cost := Some(RetrySpend(provider.value, expected));
  }

  lemma ProductMonotone(a: real, x: real, y: real)
    requires a >= 0.0 && x <= y
    ensures a * x <= a * y
  {
    ProductKeepsSign(a, y - x);
  }

  lemma RetryCostAntitone(provider: real, r: real, s: real, maxRetries: int)
    requires provider >= 0.0 && 0.0 <= r <= s <= 1.0
    ensures 0.0 <= RetryCost(Some(provider), Known(s), maxRetries).value <= RetryCost(Some(provider), Known(r), maxRetries).value
  {
    var n := RetryBound(maxRetries);
    AttemptsAntitone(r, s, n);
    RetrySpendMonotone(provider, Attempts(s, n), Attempts(r, n));
  }

  // ---------- the objective ----------

  datatype Candidate = Candidate(id: Name, rank: int, excluded: bool, score: real, provider: Price, retry: Price,
                                 switching: real, continuation: real, latency: real,
                                 predicted: Option<real>, taskFit: Option<real>, quality: Option<real>)

  function Clamp(x: real): real {
    Max(SUCCESS_FLOOR, Min(1.0, x))
  }

  /** The first of the three signals that is known. */
  function Success(c: Candidate): Option<real> {
    if c.predicted.Some? then Some(Clamp(c.predicted.value))
    else if c.taskFit.Some? then Some(Clamp(c.taskFit.value))
    else if c.quality.Some? then Some(Clamp(c.quality.value))
    else None
  }

  function RetryTerm(c: Candidate): Option<real> {
    if c.retry.Known? then Some(c.retry.usd) else None
  }

  function ExpectedTotal(c: Candidate): Option<real> {
    if AsNumber(c.provider).None? || RetryTerm(c).None? then None
    else Some(Round6(AsNumber(c.provider).value + RetryTerm(c).value + Max(0.0, c.switching) + c.continuation + c.latency))
  }

  function Objective(c: Candidate): Option<real> {
    match (ExpectedTotal(c), Success(c))
    case (None, _) => None
    case (Some(t), None) => Some(t)
    case (Some(t), Some(p)) => Some(Round6(t / p))
  }

  /** What a candidate is expected to cost in all: within half a millionth, the sum
      of the provider's price, its retries, a switch, what follows and the
      latency; a negative switching cost is none. */
  lemma TotalIsTheSum(c: Candidate)
    requires c.provider.Known? && c.retry.Known?
    ensures ExpectedTotal(c).Some?
    ensures var switching := if c.switching > 0.0 then c.switching else 0.0;
            -HALF <= ExpectedTotal(c).value - (c.provider.usd + c.retry.usd + switching + c.continuation + c.latency) <= HALF
  {
    RoundingIsClose(c.provider.usd + c.retry.usd + Max(0.0, c.switching) + c.continuation + c.latency);
  }

  /** The success a candidate is judged by: the predicted one if known, else the
      task fit, else the quality, cut to between a twentieth and one. */
  lemma SuccessIsBestKnown(c: Candidate)
    ensures Success(c).None? <==> c.predicted.None? && c.taskFit.None? && c.quality.None?
    ensures Success(c).Some? ==>
              var signal := if c.predicted.Some? then c.predicted.value else if c.taskFit.Some? then c.taskFit.value else c.quality.value;
              && 0.05 <= Success(c).value <= 1.0
              && (0.05 <= signal <= 1.0 ==> Success(c).value == signal)
              && (signal < 0.05 ==> Success(c).value == 0.05) && (signal > 1.0 ==> Success(c).value == 1.0)
  {
  }

  /** The objective is the total, per success where that is known. */
  lemma ObjectiveIsPerSuccess(c: Candidate)
    requires ExpectedTotal(c).Some?
    ensures Objective(c).Some?
    ensures Success(c).None? ==> Objective(c) == ExpectedTotal(c)
    ensures Success(c).Some? ==> -HALF <= Objective(c).value - ExpectedTotal(c).value / Success(c).value <= HALF
  {
    SuccessIsBestKnown(c);
    if Success(c).Some? {
      RoundingIsClose(ExpectedTotal(c).value / Success(c).value);
    }
  }

  /** A null provider price is unknown, yet with a known retry cost it competes
      as free of charge: exactly these candidates are priced without a price. */
  lemma NullProviderIsFree(c: Candidate)
    ensures Objective(c).Some? && !c.provider.Known? <==> c.provider.Null? && c.retry.Known?
  {
  }

  // ---------- the choice ----------

  /** Lower objective first, unpriced last, then higher score, then model id.
      `rank` is the place of the id in collation order. */
  predicate Before(a: Candidate, b: Candidate) {
    var x, y := Objective(a), Objective(b);
    if x.Some? && (y.None? || x.value < y.value) then true
    else if y.Some? && (x.None? || y.value < x.value) then false
    else if a.score != b.score then a.score > b.score
    else a.rank < b.rank
  }

  function First(pool: seq<Candidate>): Candidate
    requires pool != []
  {
    if |pool| == 1 then pool[0]
    else
      var rest := First(pool[1..]);
      if Before(rest, pool[0]) then rest else pool[0]
  }

  function Eligible(cs: seq<Candidate>): seq<Candidate> {
    if cs == [] then [] else if cs[0].excluded then Eligible(cs[1..]) else [cs[0]] + Eligible(cs[1..])
  }

  function Pool(cs: seq<Candidate>): seq<Candidate> {
    if Eligible(cs) != [] then Eligible(cs) else cs
  }

  function Select(cs: seq<Candidate>): Option<Candidate> {
    if cs == [] then None else Some(First(Pool(cs)))
  }

  ghost predicate DistinctIds(cs: seq<Candidate>) {
    forall a, b :: a in cs && b in cs && a.rank == b.rank ==> a == b
  }

  lemma {:induction false} EligibleFilters(cs: seq<Candidate>)
    ensures forall c :: c in Eligible(cs) <==> c in cs && !c.excluded
  {
    if cs != [] {
      EligibleFilters(cs[1..]);
      assert cs == [cs[0]] + cs[1..];
    }
  }

  lemma {:induction false} FirstIsLeast(pool: seq<Candidate>)
    requires pool != []
    ensures First(pool) in pool
    ensures forall c :: c in pool ==> !Before(c, First(pool))
  {
    if |pool| > 1 {
      FirstIsLeast(pool[1..]);
      assert pool == [pool[0]] + pool[1..];
    }
  }

  ghost predicate Permutation(cs: seq<Candidate>, ds: seq<Candidate>) {
    forall c :: c in cs <==> c in ds
  }

  ghost predicate Wins(w: Candidate, cs: seq<Candidate>) {
    && w in cs
    && (w.excluded ==> forall c :: c in cs ==> c.excluded)
    && (forall c :: c in cs && c.excluded == w.excluded && c != w ==> Before(w, c))
  }

  /** With distinct ids the selection is the one strict winner: an excluded
      model wins only when all are excluded, and the winner comes strictly
      before everybody it competes with. */
  lemma SelectionWins(cs: seq<Candidate>)
    requires cs != [] && DistinctIds(cs)
    ensures Wins(Select(cs).value, cs)
    ensures forall w :: Wins(w, cs) ==> w == Select(cs).value
  {
    EligibleFilters(cs);
    var pool := Pool(cs);
    FirstIsLeast(pool);
    var f := First(pool);
    assert forall c :: c in pool <==> c in cs && (c.excluded == f.excluded) by {
      assert Eligible(cs) != [] ==> Eligible(cs)[0] in Eligible(cs);
      assert Eligible(cs) == [] ==> forall c :: c in cs ==> c.excluded;
    }
    forall w | Wins(w, cs)
      ensures w == f
    {
      assert w.excluded == f.excluded;
      assert w != f ==> Before(w, f);
    }
  }

  /** Among those that are not excluded, if any, the selected one has the lowest
      objective, unpriced ones coming last; of equals the highest score, and of
      those the first id. */
  lemma SelectionIsCheapest(cs: seq<Candidate>, c: Candidate)
    requires DistinctIds(cs) && c in cs && (c.excluded ==> forall d :: d in cs ==> d.excluded)
    ensures Select(cs).Some? && Select(cs).value in cs && (Select(cs).value.excluded ==> c.excluded)
    ensures var w := Select(cs).value;
            && (Objective(c).Some? ==> Objective(w).Some? && Objective(w).value <= Objective(c).value)
            && (Objective(c) == Objective(w) ==> w.score >= c.score)
            && (Objective(c) == Objective(w) && w.score == c.score ==> w.rank <= c.rank)
  {
    SelectionWins(cs);
    var w := Select(cs).value;
    assert w.excluded ==> c.excluded;
    if c != w {
      assert c.excluded == w.excluded;
      assert Before(w, c);
    }
  }

  /** The order in which candidates are listed does not matter. */
  lemma SelectionIgnoresOrder(cs: seq<Candidate>, ds: seq<Candidate>)
    requires cs != [] && DistinctIds(cs) && Permutation(cs, ds)
    ensures Select(cs) == Select(ds)
  {
    assert cs[0] in ds;
    SelectionWins(cs);
    SelectionWins(ds);
    assert Wins(Select(cs).value, ds);
  }

  /** Replacing the winner by a candidate with the same id and score and a no
      worse objective leaves it the winner. */
  lemma ImprovedWinnerStays(cs: seq<Candidate>, i: nat, better: Candidate)
    requires i < |cs| && DistinctIds(cs) && Select(cs) == Some(cs[i])
    requires forall j :: 0 <= j < |cs| && j != i ==> cs[j] != cs[i]
    requires better.rank == cs[i].rank && better.score == cs[i].score && better.excluded == cs[i].excluded
    requires Objective(cs[i]).Some? && Objective(better).Some? && Objective(better).value <= Objective(cs[i]).value
    ensures Select(cs[i := better]) == Some(better)
  {
    SelectionWins(cs);
    var ds := cs[i := better];
    forall c | c in ds
      ensures c == better || (c in cs && c != cs[i])
    {
    }
    forall a, b | a in ds && b in ds && a.rank == b.rank
      ensures a == b
    {
      assert cs[i] in cs;
    }
    forall c | c in ds && c.excluded == better.excluded && c != better
      ensures Before(better, c)
    {
      assert Before(cs[i], c);
    }
    assert ds[i] == better;
    if better.excluded {
      forall c | c in ds
        ensures c.excluded
      {
        assert cs[i] in cs;
      }
    }
    assert Wins(better, ds);
    SelectionWins(ds);
  }

  // ---------- raising the winner ----------

  lemma QuotientAntitone(t: real, p: real, q: real)
    requires t >= 0.0 && 0.0 < p <= q
    ensures t / q <= t / p
  {
    var x, y := t / q, t / p;
    assert x * q == t && y * p == t;
    ProductMonotone(x, p, q);
    CancelFactor(x, y, p);
  }

  lemma CancelFactor(x: real, y: real, p: real)
    requires p > 0.0 && x * p <= y * p
    ensures x <= y
  {
  }

  /** Costs that are not negative. */
  predicate Priced(c: Candidate) {
    c.provider.Known? && c.provider.usd >= 0.0 && c.retry.Known? && c.retry.usd >= 0.0 && c.continuation >= 0.0 && c.latency >= 0.0
  }

  lemma LowerRetryLowersTotal(c: Candidate, retry: real)
    requires Priced(c) && 0.0 <= retry <= c.retry.usd
    ensures ExpectedTotal(c.(retry := Known(retry))).value <= ExpectedTotal(c).value
    ensures ExpectedTotal(c.(retry := Known(retry))).value >= 0.0
  {
    var rest := Max(0.0, c.switching) + c.continuation + c.latency;
    RoundingIsMonotone(c.provider.usd + retry + Max(0.0, c.switching) + c.continuation + c.latency,
                       c.provider.usd + c.retry.usd + Max(0.0, c.switching) + c.continuation + c.latency);
    RoundingKeepsSign(c.provider.usd + retry + Max(0.0, c.switching) + c.continuation + c.latency);
  }

  /** With a lower retry cost or a higher predicted success the objective does
      not rise. */
  lemma ObjectiveAntitone(c: Candidate, retry: real, predicted: real)
    requires Priced(c) && 0.0 <= retry <= c.retry.usd && c.predicted.Some? && predicted >= c.predicted.value
    ensures Objective(c.(retry := Known(retry), predicted := Some(predicted))).value <= Objective(c).value
  {
    LowerRetryLowersTotal(c, retry);
    LowerRetryLowersTotal(c, c.retry.usd);
    assert c.(retry := Known(c.retry.usd)) == c;
    var d := c.(retry := Known(retry), predicted := Some(predicted));
    assert ExpectedTotal(d) == ExpectedTotal(c.(retry := Known(retry)));
    var t, u, p, q := ExpectedTotal(d).value, ExpectedTotal(c).value, Clamp(c.predicted.value), Clamp(predicted);
    QuotientAntitone(t, p, q);
    QuotientMonotone(t, u, p);
    RoundingIsMonotone(t / q, u / p);
  }

  lemma QuotientMonotone(t: real, u: real, p: real)
    requires t <= u && p > 0.0
    ensures t / p <= u / p
  {
  }

  /** Raising the winner's reliability or predicted success, with its score
      fixed, keeps it the winner. Its retries are priced from its reliability. */
  lemma RaisedWinnerStays(cs: seq<Candidate>, i: nat, r: real, s: real, maxRetries: int, predicted: real)
    requires i < |cs| && DistinctIds(cs) && Select(cs) == Some(cs[i])
    requires forall j :: 0 <= j < |cs| && j != i ==> cs[j] != cs[i]
    requires Priced(cs[i]) && 0.0 <= r <= s <= 1.0
    requires cs[i].retry.usd == RetryCost(Some(cs[i].provider.usd), Known(r), maxRetries).value
    requires cs[i].predicted.Some? && predicted >= cs[i].predicted.value
    ensures var retry := RetryCost(Some(cs[i].provider.usd), Known(s), maxRetries).value;
            var better := cs[i].(retry := Known(retry), predicted := Some(predicted));
            Select(cs[i := better]) == Some(better)
  {
    var c := cs[i];
    var retry := RetryCost(Some(c.provider.usd), Known(s), maxRetries).value;
    RetryCostAntitone(c.provider.usd, r, s, maxRetries);
    ObjectiveAntitone(c, retry, predicted);
    ImprovedWinnerStays(cs, i, c.(retry := Known(retry), predicted := Some(predicted)));
  }
}
