/** Pricing of a simulated transfer, in integers throughout. */
module Quote {
  import opened Core
  import S = Sandbox

  datatype Currency = Usd | Eur | Ngn | Kes

  datatype SandboxError = SameCurrency | BadAmount

  datatype QuoteCalc = QuoteCalc(target: nat, ratePpm: nat, btcMsat: nat)

  const BTC_USD: nat := 60_000
  const FEE_BPS: nat := 100
  const MSAT_PER_BTC: nat := 100_000_000_000
  const MAX_MSAT: nat := MAX_SATS * 1_000
  const U128_MAX: int := 0xffff_ffff_ffff_ffff_ffff_ffff_ffff_ffff

  /** Minor units of a currency per US dollar. */
  function MinorPerUsd(c: Currency): nat {
    match c
    case Usd => 100
    case Eur => 92
    case Ngn => 150_000
    case Kes => 12_900
  }

  function Gross(source: Currency, target: Currency, amount: nat): nat {
    amount * MinorPerUsd(target) / MinorPerUsd(source)
  }

  function TargetMinor(source: Currency, target: Currency, amount: nat): nat {
    Gross(source, target, amount) * (10_000 - FEE_BPS) / 10_000
  }

  function RatePpm(source: Currency, target: Currency): nat {
    MinorPerUsd(target) * 1_000_000 / MinorPerUsd(source)
  }

  function BtcMsat(source: Currency, amount: nat): nat {
    amount * MSAT_PER_BTC / (MinorPerUsd(source) * BTC_USD)
  }

  function Quote(source: Currency, target: Currency, amount: nat): Result<QuoteCalc, SandboxError> {
    if source == target then Err(SameCurrency)
    else if amount == 0 then Err(BadAmount)
    else
      var minor := TargetMinor(source, target, amount);
      var rate := RatePpm(source, target);
      var btc := BtcMsat(source, amount);
      if btc > U64_MAX || minor > U64_MAX then Err(BadAmount)
      else if minor == 0 || btc == 0 || btc > MAX_MSAT then Err(BadAmount)
      else if rate > U64_MAX then Err(BadAmount)
      else Ok(QuoteCalc(minor, rate, btc))
  }

  // ----------------------------------------------------------- exactness

  lemma Floor(x: nat, y: nat)
    requires y > 0
    ensures x / y * y <= x < (x / y + 1) * y
  {
  }

  lemma FloorAtLeast(x: nat, y: nat, q: nat)
    requires y > 0
    ensures q <= x / y <==> q * y <= x
  {
    Floor(x, y);
    if q <= x / y {
      assert q * y <= x / y * y;
    } else {
      assert (x / y + 1) * y <= q * y;
    }
  }

  /** No intermediate product leaves the unsigned 128-bit range, for any unsigned 64-bit amount. */
  lemma ProductsFit(source: Currency, target: Currency, amount: nat)
    requires amount <= U64_MAX
    ensures amount * MinorPerUsd(target) <= U128_MAX
    ensures Gross(source, target, amount) * (10_000 - FEE_BPS) <= U128_MAX
    ensures amount * MSAT_PER_BTC <= U128_MAX
    ensures MinorPerUsd(target) * 1_000_000 <= U128_MAX && MinorPerUsd(source) * BTC_USD <= U128_MAX
  {
    var product := amount * MinorPerUsd(target);
    assert product <= U64_MAX * 150_000;
    Floor(product, MinorPerUsd(source));
    assert Gross(source, target, amount) <= product;
  }

  /** The largest amount whose Bitcoin leg stays within the supply. */
  predicate WithinSupply(source: Currency, amount: nat) {
    amount * MSAT_PER_BTC < (MAX_MSAT + 1) * (MinorPerUsd(source) * BTC_USD)
  }

  lemma SupplyBoundsAmount(source: Currency, amount: nat)
    requires WithinSupply(source, amount)
    ensures amount <= 1_260_000_000_001 * MinorPerUsd(source)
  {
    match source
    case Usd =>
    case Eur =>
    case Ngn =>
    case Kes =>
  }

  lemma GrossIsBounded(source: Currency, target: Currency, amount: nat)
    requires WithinSupply(source, amount)
    ensures Gross(source, target, amount) <= 1_260_000_000_001 * MinorPerUsd(target)
  {
    SupplyBoundsAmount(source, amount);
    var ms, mt := MinorPerUsd(source), MinorPerUsd(target);
    var cap := 1_260_000_000_001;
    Floor(amount * mt, ms);
    Scale(amount, cap * ms, mt);
    assert cap * ms * mt == cap * mt * ms;
    Cancel(Gross(source, target, amount), cap * mt, ms);
  }

  /**
   A quote is given exactly for two different currencies, an amount worth at least two
   target units before the fee, and a Bitcoin leg within the supply; nothing else is refused.
   */
  lemma QuotedExactlyWhen(source: Currency, target: Currency, amount: nat)
    ensures Quote(source, target, amount).Ok? <==>
      && source != target
      && amount * MinorPerUsd(target) >= 2 * MinorPerUsd(source)
      && WithinSupply(source, amount)
    ensures Quote(source, target, amount).Err? ==>
      (Quote(source, target, amount).error == SameCurrency <==> source == target)
  {
    var ms, mt := MinorPerUsd(source), MinorPerUsd(target);
    FloorAtLeast(amount * mt, ms, 2);
    var btcUnit := ms * BTC_USD;
    FloorAtLeast(amount * MSAT_PER_BTC, btcUnit, MAX_MSAT + 1);
    FloorAtLeast(amount * MSAT_PER_BTC, btcUnit, 1);
    if WithinSupply(source, amount) {
      GrossIsBounded(source, target, amount);
    }
  }

  /** Every field of a quote, and the amount it prices, fits a signed 64-bit column. */
  lemma QuoteFitsItsColumns(source: Currency, target: Currency, amount: nat)
    requires Quote(source, target, amount).Ok?
    ensures var q := Quote(source, target, amount).value;
            0 < amount <= I64_MAX && 0 < q.target <= I64_MAX && q.ratePpm <= I64_MAX && 0 < q.btcMsat <= I64_MAX
  {
    QuotedExactlyWhen(source, target, amount);
    SupplyBoundsAmount(source, amount);
    GrossIsBounded(source, target, amount);
  }

  /** So the storage layer never turns a priced quote away. */
  lemma QuoteIsStored(
    source: Currency, target: Currency, amount: nat, books: S.Books, project: string, from: string, to: string, expires: int)
    requires Quote(source, target, amount).Ok?
    ensures var q := Quote(source, target, amount).value;
            S.InsertQuote(books, S.Quote(project, from, to, amount, q.target, q.btcMsat, S.QuoteOpen, expires)).1
            == Ok(|books.quotes|)
  {
    QuoteFitsItsColumns(source, target, amount);
  }

  /**
   What the recipient gets, without division: the most units whose value, at the two rates and
   after one percent, the whole gross units of the source amount cover.
   */
  lemma TargetIsTheMostCovered(source: Currency, target: Currency, amount: nat, units: nat)
    ensures units <= TargetMinor(source, target, amount) <==>
      exists gross: nat ::
        gross * MinorPerUsd(source) <= amount * MinorPerUsd(target) && 100 * units <= 99 * gross
  {
    var ms, mt := MinorPerUsd(source), MinorPerUsd(target);
    var g := Gross(source, target, amount);
    Floor(amount * mt, ms);
    if units <= TargetMinor(source, target, amount) {
      assert g * ms <= amount * mt && 100 * units <= 99 * g;
    }
    if gross: nat :| gross * ms <= amount * mt && 100 * units <= 99 * gross {
      FloorAtLeast(amount * mt, ms, gross);
    }
  }

  /** The Bitcoin leg and the rate are likewise the most their exact values cover. */
  lemma LegAndRateAreTheMostCovered(source: Currency, target: Currency, amount: nat, units: nat)
    ensures units <= BtcMsat(source, amount) <==>
      units * (MinorPerUsd(source) * BTC_USD) <= amount * MSAT_PER_BTC
    ensures units <= RatePpm(source, target) <==>
      units * MinorPerUsd(source) <= MinorPerUsd(target) * 1_000_000
  {
    FloorAtLeast(amount * MSAT_PER_BTC, MinorPerUsd(source) * BTC_USD, units);
    FloorAtLeast(MinorPerUsd(target) * 1_000_000, MinorPerUsd(source), units);
  }

  /** A dollar in each currency, a thousandth of a bitcoin for sixty of them, and one whole quote. */
  lemma PricesAre()
    ensures Gross(Usd, Eur, 100) == 92 && Gross(Usd, Ngn, 100) == 150_000 && Gross(Usd, Kes, 100) == 12_900
    ensures BtcMsat(Usd, 6_000) == 100_000_000
    ensures Quote(Ngn, Kes, 500_000) == Ok(QuoteCalc(42_570, 86_000, 5_555_555))
  {
  }

  // ----------------------------------------------- splitting never gains

  /** Two quotients under their numerators add up to at most the quotient of any larger sum. */
  lemma QuotientsAdd(p: nat, q: nat, a: nat, b: nat, y: nat, sum: nat)
    requires y > 0 && p * y <= a && q * y <= b && a + b <= sum
    ensures p + q <= sum / y
  {
    assert (p + q) * y == p * y + q * y;
    FloorAtLeast(sum, y, p + q);
  }

  lemma GrossAdds(source: Currency, target: Currency, a: nat, b: nat)
    ensures Gross(source, target, a) + Gross(source, target, b) <= Gross(source, target, a + b)
  {
    var ms, mt := MinorPerUsd(source), MinorPerUsd(target);
    Floor(a * mt, ms);
    Floor(b * mt, ms);
    assert (a + b) * mt == a * mt + b * mt;
    QuotientsAdd(Gross(source, target, a), Gross(source, target, b), a * mt, b * mt, ms, (a + b) * mt);
  }

  lemma BtcAdds(source: Currency, a: nat, b: nat)
    ensures BtcMsat(source, a) + BtcMsat(source, b) <= BtcMsat(source, a + b)
  {
    var unit := MinorPerUsd(source) * BTC_USD;
    Floor(a * MSAT_PER_BTC, unit);
    Floor(b * MSAT_PER_BTC, unit);
    QuotientsAdd(BtcMsat(source, a), BtcMsat(source, b), a * MSAT_PER_BTC, b * MSAT_PER_BTC, unit, (a + b) * MSAT_PER_BTC);
  }

  lemma TwoPartsNeverGain(source: Currency, target: Currency, a: nat, b: nat)
    ensures TargetMinor(source, target, a) + TargetMinor(source, target, b) <= TargetMinor(source, target, a + b)
    ensures BtcMsat(source, a) + BtcMsat(source, b) <= BtcMsat(source, a + b)
  {
    GrossAdds(source, target, a, b);
    BtcAdds(source, a, b);
    var ga, gb, g := Gross(source, target, a), Gross(source, target, b), Gross(source, target, a + b);
    Floor(ga * 9_900, 10_000);
    Floor(gb * 9_900, 10_000);
    QuotientsAdd(TargetMinor(source, target, a), TargetMinor(source, target, b), ga * 9_900, gb * 9_900, 10_000, g * 9_900);
  }

  function Total(parts: seq<nat>): nat {
    if |parts| == 0 then 0 else Total(parts[..|parts| - 1]) + parts[|parts| - 1]
  }

  /** What a transfer yields: nothing if it is refused. */
  function Yield(source: Currency, target: Currency, amount: nat): nat {
    var q := Quote(source, target, amount);
    if q.Ok? then q.value.target else 0
  }

  lemma YieldIsPriced(source: Currency, target: Currency, amount: nat)
    ensures Yield(source, target, amount) <= TargetMinor(source, target, amount)
    ensures Quote(source, target, amount).Ok? ==> Yield(source, target, amount) == TargetMinor(source, target, amount)
  {
  }

  function TotalYield(parts: seq<nat>, gain: nat -> nat): nat {
    if |parts| == 0 then 0
    else TotalYield(parts[..|parts| - 1], gain) + gain(parts[|parts| - 1])
  }

  function Yields(source: Currency, target: Currency): nat -> nat {
    (amount: nat) => Yield(source, target, amount)
  }

  function Targets(source: Currency, target: Currency): nat -> nat {
    (amount: nat) => TargetMinor(source, target, amount)
  }

  /** A yield that one transfer of two parts never loses is never gained by splitting. */
  lemma {:induction false} PartsNeverGain(parts: seq<nat>, gain: nat -> nat, whole: nat -> nat)
    requires forall a: nat :: gain(a) <= whole(a)
    requires forall a: nat, b: nat :: whole(a) + whole(b) <= whole(a + b)
    ensures TotalYield(parts, gain) <= whole(Total(parts))
  {
    if |parts| > 0 {
      PartsNeverGain(parts[..|parts| - 1], gain, whole);
    }
  }

  /** However an amount is split, its parts together yield at most what one transfer is priced at. */
  lemma SplittingNeverGains(source: Currency, target: Currency, parts: seq<nat>)
    ensures TotalYield(parts, Yields(source, target)) <= TargetMinor(source, target, Total(parts))
    ensures Quote(source, target, Total(parts)).Ok? ==>
      TotalYield(parts, Yields(source, target)) <= Yield(source, target, Total(parts))
  {
    var gain, whole := Yields(source, target), Targets(source, target);
    forall a: nat ensures gain(a) <= whole(a) {
      YieldIsPriced(source, target, a);
    }
    forall a: nat, b: nat ensures whole(a) + whole(b) <= whole(a + b) {
      TwoPartsNeverGain(source, target, a, b);
    }
    PartsNeverGain(parts, gain, whole);
    YieldIsPriced(source, target, Total(parts));
  }

  // ------------------------------------------------- chains of transfers

  /** What is left of `start` after transferring it along a route of currencies; none if a hop is refused. */
  function Along(route: seq<Currency>, start: nat): Option<nat>
    requires |route| > 0
  {
    if |route| == 1 then Some(start)
    else
      var n := |route| - 1;
      var before := Along(route[..n], start);
      if before.None? then None
      else
        var q := Quote(route[n - 1], route[n], before.value);
        if q.Ok? then Some(q.value.target) else None
  }

  function Pow(base: nat, n: nat): nat {
    if n == 0 then 1 else base * Pow(base, n - 1)
  }

  /** One hop loses at least the fee, in value. */
  lemma HopLosesTheFee(source: Currency, target: Currency, amount: nat)
    ensures TargetMinor(source, target, amount) * 100 * MinorPerUsd(source) <= amount * 99 * MinorPerUsd(target)
  {
    var ms, mt := MinorPerUsd(source), MinorPerUsd(target);
    var g, t := Gross(source, target, amount), TargetMinor(source, target, amount);
    Floor(amount * mt, ms);
    assert 100 * t <= 99 * g;
    assert 100 * t * ms <= 99 * g * ms;
    assert 99 * (g * ms) <= 99 * (amount * mt);
  }

  lemma Scale(a: nat, b: nat, k: nat)
    requires a <= b
    ensures a * k <= b * k
  {
  }

  lemma Cancel(a: nat, b: nat, k: nat)
    requires k > 0 && a * k <= b * k
    ensures a <= b
  {
    if b < a {
      Scale(b + 1, a, k);
    }
  }

  lemma LessThanWhole(out: nat, start: nat, whole: nat, part: nat)
    requires 0 < part < whole && out * whole <= start * part
    ensures start > 0 ==> out < start
  {
    if start <= out {
      Scale(start, out, whole);
      assert start * whole == start * part + start * (whole - part);
    }
  }

  lemma SameUnit(out: nat, start: nat, whole: nat, part: nat, unit: nat)
    requires unit > 0 && 0 < part < whole && out * whole * unit <= start * part * unit
    ensures out * whole <= start * part && (start > 0 ==> out < start)
  {
    Cancel(out * whole, start * part, unit);
    LessThanWhole(out, start, whole, part);
  }

  /** The two inequalities of a longer route multiplied through. */
  lemma Compose(out: nat, mid: nat, start: nat, hundreds: nat, nineties: nat, m0: nat, m1: nat, m2: nat)
    requires m1 > 0
    requires mid * hundreds * m0 <= start * nineties * m1
    requires out * 100 * m1 <= mid * 99 * m2
    ensures out * (100 * hundreds) * m0 <= start * (99 * nineties) * m2
  {
    Scale(out * 100 * m1, mid * 99 * m2, hundreds * m0);
    Scale(mid * hundreds * m0, start * nineties * m1, 99 * m2);
    var left, right := out * (100 * hundreds) * m0, start * (99 * nineties) * m2;
    assert left * m1 == out * 100 * m1 * (hundreds * m0);
    assert mid * 99 * m2 * (hundreds * m0) == mid * hundreds * m0 * (99 * m2);
    assert start * nineties * m1 * (99 * m2) == right * m1;
    Cancel(left, right, m1);
  }

  /** After n hops the value left is at most (99/100)^n of the start, whatever the currencies between. */
  lemma {:induction false} RouteLosesTheFees(route: seq<Currency>, start: nat)
    requires |route| > 0 && Along(route, start).Some?
    ensures var n := |route| - 1;
            Along(route, start).value * Pow(100, n) * MinorPerUsd(route[0])
            <= start * Pow(99, n) * MinorPerUsd(route[n])
  {
    var n := |route| - 1;
    if n > 0 {
      RouteLosesTheFees(route[..n], start);
      var mid := Along(route[..n], start).value;
      HopLosesTheFee(route[n - 1], route[n], mid);
      Compose(Along(route, start).value, mid, start, Pow(100, n - 1), Pow(99, n - 1),
              MinorPerUsd(route[0]), MinorPerUsd(route[n - 1]), MinorPerUsd(route[n]));
    }
  }

  lemma {:induction false} FeesShrink(n: nat)
    requires n > 0
    ensures 0 < Pow(99, n) < Pow(100, n)
  {
    if n > 1 {
      FeesShrink(n - 1);
    } else {
      assert Pow(99, 1) == 99 && Pow(100, 1) == 100;
    }
  }

  /** A route back to its starting currency returns at most (99/100)^n of the start, and so less than it. */
  lemma RoundTripLoses(route: seq<Currency>, start: nat)
    requires |route| > 1 && route[|route| - 1] == route[0] && Along(route, start).Some?
    ensures Along(route, start).value * Pow(100, |route| - 1) <= start * Pow(99, |route| - 1)
    ensures start > 0 ==> Along(route, start).value < start
  {
    var n, out, m := |route| - 1, Along(route, start).value, MinorPerUsd(route[0]);
    RouteLosesTheFees(route, start);
    FeesShrink(n);
    SameUnit(out, start, Pow(100, n), Pow(99, n), m);
  }
}
