/**
  Backtests over observed history: the lump-sum "what if" of the
  `whatif` endpoint and the scheduled purchases of the `dca` endpoint, with
  the running-peak maximum drawdown they report.
*/
module Backtest {
  import opened Wrappers
  import opened Series

  // ---------------------------------------------------------------------------
  // Lump sum
  // ---------------------------------------------------------------------------

  datatype LumpSum = LumpSum(invested: real, shares: real, currentValue: real, roiPct: real)

  /**
    `shares = amount / start_price`, `current_value = shares * current_price`,
    `roi_pct = (current_value - amount) / amount * 100`.
  */
  function LumpSumMetrics(amount: real, startPrice: real, currentPrice: real): (m: LumpSum)
    requires amount > 0.0 && startPrice > 0.0
    ensures m.invested == amount
    ensures m.shares * startPrice == amount
    ensures m.currentValue == amount * currentPrice / startPrice
    ensures m.roiPct == (currentPrice / startPrice - 1.0) * 100.0
  {
    var shares := amount / startPrice;
    var value := shares * currentPrice;
    assert value == amount * (currentPrice / startPrice);
    assert (value - amount) / amount == value / amount - 1.0 by {
      assert amount / amount == 1.0;
      assert (value - amount) / amount == value / amount - amount / amount;
    }
    assert value / amount == currentPrice / startPrice;
    LumpSum(amount, shares, value, (value - amount) / amount * 100.0)
  }

  /** `[[ts, float(px) * shares] for ts, px in chart_series]`. */
  function ScaleSeries(series: seq<Sample>, shares: real): (r: seq<Sample>)
    ensures |r| == |series|
    ensures forall i :: 0 <= i < |r| ==> r[i].ts == series[i].ts && r[i].px == series[i].px * shares
  {
    seq(|series|, i requires 0 <= i < |series| => Sample(series[i].ts, series[i].px * shares))
  }

  /**
    Holding the lump-sum shares, every chart point is worth
    `amount * px / start_price`; at the current price it is the current value.
  */
  lemma LumpValueSeries(amount: real, startPrice: real, currentPrice: real, chart: seq<Sample>)
    requires amount > 0.0 && startPrice > 0.0
    ensures var m := LumpSumMetrics(amount, startPrice, currentPrice);
      forall i :: 0 <= i < |chart| ==>
        && ScaleSeries(chart, m.shares)[i].px == amount * chart[i].px / startPrice
        && (chart[i].px == currentPrice ==> ScaleSeries(chart, m.shares)[i].px == m.currentValue)
  {
    var m := LumpSumMetrics(amount, startPrice, currentPrice);
    forall i | 0 <= i < |chart|
      ensures chart[i].px * m.shares == amount * chart[i].px / startPrice
    {
      assert m.shares == amount / startPrice;
    }
  }

  // ---------------------------------------------------------------------------
  // Maximum drawdown
  // ---------------------------------------------------------------------------

  /** `peak` once the drawdown loop has seen `vs[..i + 1]`: the running maximum. */
  function RunningPeak(vs: seq<Sample>, i: nat): (p: real)
    requires i < |vs|
    ensures forall j :: 0 <= j <= i ==> vs[j].px <= p
    ensures exists j :: 0 <= j <= i && vs[j].px == p
  {
    if i == 0 then vs[0].px else Max(RunningPeak(vs, i - 1), vs[i].px)
  }

  /** The percentage decline of sample `i` below the running peak (0 when the peak is not positive). */
  function DrawdownAt(vs: seq<Sample>, i: nat): real
    requires i < |vs|
  {
    var peak := RunningPeak(vs, i);
    if peak > 0.0 then (peak - vs[i].px) / peak * 100.0 else 0.0
  }

  /** The largest decline among the first `n` samples, never below 0. */
  function MaxDrawdownUpTo(vs: seq<Sample>, n: nat): real
    requires n <= |vs|
  {
    if n == 0 then 0.0 else Max(MaxDrawdownUpTo(vs, n - 1), DrawdownAt(vs, n - 1))
  }

  function MaxDrawdown(vs: seq<Sample>): real {
    MaxDrawdownUpTo(vs, |vs|)
  }

  /**
    The drawdown loop of the `whatif` endpoint: `peak` tracks the running
    maximum and `max_dd_pct` the worst `(peak - v) / peak * 100` seen,
    starting from 0.
  */
  method MaxDrawdownPct(series: seq<Sample>) returns (maxDd: real)
    ensures maxDd == MaxDrawdown(series)
    ensures maxDd >= 0.0
  {
    maxDd := 0.0;
    if |series| > 0 {
      var peak := series[0].px;
      for i := 0 to |series|
        invariant peak == RunningPeak(series, if i == 0 then 0 else i - 1)
        invariant maxDd == MaxDrawdownUpTo(series, i)
        invariant maxDd >= 0.0
      {
        peak := Max(peak, series[i].px);
        if peak > 0.0 {
          var dd := (peak - series[i].px) / peak * 100.0;
          if dd > maxDd {
            maxDd := dd;
          }
        }
      }
    }
  }

  /** A decline from a positive peak to a non-negative value is at most 100%. */
  lemma DeclineAtMost100(peak: real, v: real)
    requires peak > 0.0 && v >= 0.0 && v <= peak
    ensures 0.0 <= (peak - v) / peak * 100.0 <= 100.0
  {
  }

  /**
    The reported drawdown is a percentage: never negative, and at most 100
    when no value is negative.
  */
  lemma {:induction false} DrawdownBounds(vs: seq<Sample>, n: nat)
    requires n <= |vs|
    ensures MaxDrawdownUpTo(vs, n) >= 0.0
    ensures (forall i :: 0 <= i < |vs| ==> vs[i].px >= 0.0) ==> MaxDrawdownUpTo(vs, n) <= 100.0
  {
    if n > 0 {
      DrawdownBounds(vs, n - 1);
      var peak := RunningPeak(vs, n - 1);
      if (forall i :: 0 <= i < |vs| ==> vs[i].px >= 0.0) && peak > 0.0 {
        DeclineAtMost100(peak, vs[n - 1].px);
      }
    }
  }

  /** The reported drawdown is the worst decline: no sample falls further, and it is attained unless 0. */
  lemma {:induction false} DrawdownIsWorst(vs: seq<Sample>, n: nat)
    requires n <= |vs|
    ensures forall i :: 0 <= i < n ==> DrawdownAt(vs, i) <= MaxDrawdownUpTo(vs, n)
    ensures MaxDrawdownUpTo(vs, n) == 0.0 || exists i :: 0 <= i < n && DrawdownAt(vs, i) == MaxDrawdownUpTo(vs, n)
  {
    if n > 0 {
      DrawdownIsWorst(vs, n - 1);
    }
  }

  /** A value curve that never falls has no drawdown. */
  lemma {:induction false} NoDrawdownWhenRising(vs: seq<Sample>, n: nat)
    requires n <= |vs|
    requires forall i, j :: 0 <= i < j < |vs| ==> vs[i].px <= vs[j].px
    ensures MaxDrawdownUpTo(vs, n) == 0.0
  {
    if n > 0 {
      NoDrawdownWhenRising(vs, n - 1);
      var peak := RunningPeak(vs, n - 1);
      assert peak == vs[n - 1].px;
    }
  }

  /** Values 100, 150, 120: the peak 150 falls to 120, a 20% drawdown. */
  lemma DrawdownExample()
    ensures MaxDrawdown([Sample(0, 100.0), Sample(1, 150.0), Sample(2, 120.0)]) == 20.0
  {
    var vs := [Sample(0, 100.0), Sample(1, 150.0), Sample(2, 120.0)];
    assert RunningPeak(vs, 0) == 100.0;
    assert RunningPeak(vs, 1) == 150.0;
    assert RunningPeak(vs, 2) == 150.0;
    assert DrawdownAt(vs, 0) == 0.0;
    assert DrawdownAt(vs, 1) == 0.0;
    assert DrawdownAt(vs, 2) == 20.0;
    assert MaxDrawdownUpTo(vs, 1) == 0.0;
    assert MaxDrawdownUpTo(vs, 2) == 0.0;
    assert MaxDrawdownUpTo(vs, 3) == 20.0;
  }

  // ---------------------------------------------------------------------------
  // The whatif endpoint
  // ---------------------------------------------------------------------------

  /** A start price together with the series that will be charted. */
  datatype StartQuote = StartQuote(price: real, chart: seq<Sample>)

  /**
    The start price: the first window sample at or after the start date when
    that is positive (charting the window series), otherwise the outcome of
    the fallback fetches, when positive.
  */
  function ResolveStart(prices: seq<Sample>, targetMs: int, fallback: Option<StartQuote>): (q: Option<StartQuote>)
    ensures q.Some? ==> q.value.price > 0.0
    ensures
      var w := FirstAtOrAfter(prices, targetMs);
      w.Some? && w.value > 0.0 ==> q == Some(StartQuote(w.value, prices))
    ensures
      var w := FirstAtOrAfter(prices, targetMs);
      !(w.Some? && w.value > 0.0) ==> q == (if fallback.Some? && fallback.value.price > 0.0 then fallback else None)
  {
    var w := if prices != [] then FirstAtOrAfter(prices, targetMs) else None;
    if w.Some? && w.value > 0.0 then Some(StartQuote(w.value, prices))
    else if fallback.Some? && fallback.value.price > 0.0 then fallback
    else None
  }

  /** The current price: last window price, else last charted price, else the spot quote. */
  function CurrentPrice(prices: seq<Sample>, chart: seq<Sample>, spotPrice: real): real {
    if prices != [] then prices[|prices| - 1].px
    else if chart != [] then chart[|chart| - 1].px
    else spotPrice
  }

  datatype WhatIfReport = WhatIfReport(
    startPrice: real,
    currentPrice: real,
    metrics: LumpSum,
    maxDrawdownPct: real,
    series: seq<Sample>)

  /**
    The computational body of the `whatif` endpoint: the guards, the start
    and current prices, the lump-sum metrics, the charted value series and
    its maximum drawdown.
  */
  method WhatIf(amount: real, fromTs: int, toTs: int, prices: seq<Sample>,
                fallback: Option<StartQuote>, spotPrice: real)
    returns (r: Result<WhatIfReport>)
    ensures amount <= 0.0 ==> r == Err("Amount must be > 0")
    ensures amount > 0.0 && fromTs >= toTs ==> r == Err("Date must be in the past.")
    ensures amount > 0.0 && fromTs < toTs && ResolveStart(prices, fromTs * 1000, fallback).None? ==>
      r == Err("Could not determine start price for that coin/date.")
    ensures r.Ok? ==> amount > 0.0 && fromTs < toTs && ResolveStart(prices, fromTs * 1000, fallback).Some?
    ensures r.Ok? ==>
      var q := ResolveStart(prices, fromTs * 1000, fallback).value;
      && r.value.startPrice == q.price
      && r.value.currentPrice == CurrentPrice(prices, q.chart, spotPrice) > 0.0
      && r.value.metrics == LumpSumMetrics(amount, q.price, r.value.currentPrice)
      && r.value.series == ScaleSeries(q.chart, r.value.metrics.shares)
      && r.value.maxDrawdownPct == MaxDrawdown(r.value.series)
    ensures amount > 0.0 && fromTs < toTs && ResolveStart(prices, fromTs * 1000, fallback).Some?
              && CurrentPrice(prices, ResolveStart(prices, fromTs * 1000, fallback).value.chart, spotPrice) <= 0.0 ==>
      r == Err("Could not determine current price.")
    ensures amount > 0.0 && fromTs < toTs && ResolveStart(prices, fromTs * 1000, fallback).Some?
              && CurrentPrice(prices, ResolveStart(prices, fromTs * 1000, fallback).value.chart, spotPrice) > 0.0 ==>
      r.Ok?
  {
    if amount <= 0.0 {
      return Err("Amount must be > 0");
    }
    if fromTs >= toTs {
      return Err("Date must be in the past.");
    }
    var start := ResolveStart(prices, fromTs * 1000, fallback);
    if start.None? {
      return Err("Could not determine start price for that coin/date.");
    }
    var chart := start.value.chart;
    var current := CurrentPrice(prices, chart, spotPrice);
    if current <= 0.0 {
      return Err("Could not determine current price.");
    }
    var metrics := LumpSumMetrics(amount, start.value.price, current);
    var series := ScaleSeries(chart, metrics.shares);
    var dd := MaxDrawdownPct(series);
    r := Ok(WhatIfReport(start.value.price, current, metrics, dd, series));
  }

  // ---------------------------------------------------------------------------
  // Scheduled purchases
  // ---------------------------------------------------------------------------

  /** A looked-up price buys when it exists and is positive (`if price and price > 0`). */
  predicate Bought(q: Option<real>) {
    q.Some? && q.value > 0.0
  }

  /** The number of scheduled dates whose looked-up price buys. */
  function BuyCount(qs: seq<Option<real>>): (n: nat)
    ensures n <= |qs|
  {
    if qs == [] then 0
    else BuyCount(qs[..|qs| - 1]) + (if Bought(qs[|qs| - 1]) then 1 else 0)
  }

  /** The shares accumulated by buying `amt` at every buying price: `shares += amt_per / price`. */
  function SharesFor(qs: seq<Option<real>>, amt: real): real {
    if qs == [] then 0.0
    else SharesFor(qs[..|qs| - 1], amt) + SharesBought(qs[|qs| - 1], amt)
  }

  /** The shares one looked-up price buys: `amt_per / price`, or none. */
  function SharesBought(q: Option<real>, amt: real): real {
    if Bought(q) then amt / q.value else 0.0
  }

  /** The cash spent: `amt` for every buying price (`invested += amt_per`). */
  function InvestedFor(qs: seq<Option<real>>, amt: real): real {
    if qs == [] then 0.0
    else InvestedFor(qs[..|qs| - 1], amt) + (if Bought(qs[|qs| - 1]) then amt else 0.0)
  }

  /** The cash spent is the amount per purchase times the number of purchases. */
  lemma {:induction false} InvestedIsCountTimesAmount(qs: seq<Option<real>>, amt: real)
    ensures InvestedFor(qs, amt) == BuyCount(qs) as real * amt
  {
    if qs != [] {
      InvestedIsCountTimesAmount(qs[..|qs| - 1], amt);
    }
  }

  /** One more scheduled date adds its purchase, if any, to the shares and to the cash spent. */
  lemma PurchaseStep(qs: seq<Option<real>>, q: Option<real>, amt: real)
    ensures SharesFor(qs + [q], amt) == SharesFor(qs, amt) + SharesBought(q, amt)
    ensures InvestedFor(qs + [q], amt) == InvestedFor(qs, amt) + (if Bought(q) then amt else 0.0)
    ensures BuyCount(qs + [q]) == BuyCount(qs) + (if Bought(q) then 1 else 0)
  {
    assert (qs + [q])[..|qs|] == qs;
  }

  /** With a positive amount, shares are positive exactly when something was bought. */
  lemma {:induction false} SharesSign(qs: seq<Option<real>>, amt: real)
    requires amt > 0.0
    ensures SharesFor(qs, amt) >= 0.0
    ensures SharesFor(qs, amt) > 0.0 <==> BuyCount(qs) > 0
  {
    if qs != [] {
      SharesSign(qs[..|qs| - 1], amt);
      var last := qs[|qs| - 1];
      if Bought(last) {
        assert amt / last.value > 0.0;
      }
    }
  }

  /** When every buying price is `p`, the shares are `count * (amt / p)`. */
  lemma SharesAtFlatPrice(qs: seq<Option<real>>, amt: real, p: real)
    requires p > 0.0
    requires forall i :: 0 <= i < |qs| && Bought(qs[i]) ==> qs[i].value == p
    ensures SharesFor(qs, amt) == BuyCount(qs) as real * (amt / p)
  {
    forall i | 0 <= i < |qs| && Bought(qs[i])
      ensures SharesBought(qs[i], amt) == amt / p
    {
      assert qs[i].value == p;
    }
    SharesAtFlatRate(qs, amt, amt / p);
    RepeatIsProduct(BuyCount(qs), amt / p);
  }

  /** `c` added `n` times. */
  function Repeat(n: nat, c: real): real {
    if n == 0 then 0.0 else Repeat(n - 1, c) + c
  }

  lemma {:induction false} RepeatIsProduct(n: nat, c: real)
    ensures Repeat(n, c) == n as real * c
  {
    if n > 0 {
      RepeatIsProduct(n - 1, c);
      OneMorePurchase((n - 1) as real, c);
    }
  }

  /** When every purchase buys `c` shares, the shares are `c` once per purchase. */
  lemma {:induction false} SharesAtFlatRate(qs: seq<Option<real>>, amt: real, c: real)
    requires forall i :: 0 <= i < |qs| && Bought(qs[i]) ==> SharesBought(qs[i], amt) == c
    ensures SharesFor(qs, amt) == Repeat(BuyCount(qs), c)
  {
    if qs != [] {
      var init, last := qs[..|qs| - 1], qs[|qs| - 1];
      forall i | 0 <= i < |init| && Bought(init[i])
        ensures SharesBought(init[i], amt) == c
      {
        assert init[i] == qs[i];
      }
      SharesAtFlatRate(init, amt, c);
    }
  }

  lemma OneMorePurchase(k: real, c: real)
    ensures k * c + c == (k + 1.0) * c
    ensures (k + 1.0) * c == k * c + c
  {
  }

  /** `(to_ts - from_ts) // (step_days * 24 * 3600) + 1`, the reported number of contributions. */
  function Contributions(fromTs: int, toTs: int, stepDays: int): int
    requires stepDays > 0
  {
    (toTs - fromTs) / (stepDays * ONE_DAY) + 1
  }

  /**
    The purchase loop walks `from_ts, from_ts + step, ...` while the date is
    at most `to_ts`: date number `i` is visited exactly when `i` is below the
    reported contribution count.
  */
  lemma ScheduleLength(fromTs: int, toTs: int, stepDays: int, i: nat)
    requires stepDays > 0 && fromTs <= toTs
    ensures Advance(fromTs, stepDays * ONE_DAY, i) <= toTs <==> i < Contributions(fromTs, toTs, stepDays)
  {
    var step := stepDays * ONE_DAY;
    AdvanceIs(fromTs, step, i);
    var span := toTs - fromTs;
    var q := span / step;
    assert q * step <= span < q * step + step;
    if i <= q {
      MulLe(i, q, step);
    } else {
      MulLe(q + 1, i, step);
    }
  }

  /** The prices looked up for the first `n` scheduled dates, in schedule order. */
  function DcaQuotes(series: seq<Sample>, fromTs: int, stepSec: int, n: nat): (qs: seq<Option<real>>)
    ensures |qs| == n
  {
    if n == 0 then []
    else DcaQuotes(series, fromTs, stepSec, n - 1) + [FirstAtOrAfter(series, Advance(fromTs, stepSec, n - 1) * 1000)]
  }

  /**
    Scheduled date number `k` is looked up as
    `_first_at_or_after(series, d * 1000)` with `d` the `k`-th scheduled date,
    which is `from_ts + k * step` (Series.AdvanceIs).
  */
  lemma {:induction false} DcaQuotesAt(series: seq<Sample>, fromTs: int, stepSec: int, n: nat, k: nat)
    requires k < n
    ensures DcaQuotes(series, fromTs, stepSec, n)[k] == FirstAtOrAfter(series, Advance(fromTs, stepSec, k) * 1000)
  {
    var prev := DcaQuotes(series, fromTs, stepSec, n - 1);
    var last := FirstAtOrAfter(series, Advance(fromTs, stepSec, n - 1) * 1000);
    assert DcaQuotes(series, fromTs, stepSec, n) == prev + [last];
    if k < n - 1 {
      DcaQuotesAt(series, fromTs, stepSec, n - 1, k);
      assert (prev + [last])[k] == prev[k];
    } else {
      assert k == n - 1;
      assert Advance(fromTs, stepSec, k) * 1000 == Advance(fromTs, stepSec, n - 1) * 1000;
      assert (prev + [last])[k] == last;
    }
  }

  /** The charted series: the window clip, or the whole series when the clip is empty. */
  function DcaChart(series: seq<Sample>, fromTs: int, toTs: int): (c: seq<Sample>)
    ensures series != [] ==> c != []
  {
    var clipped := ClipWindow(series, fromTs * 1000, toTs * 1000);
    if clipped != [] then clipped else series
  }

  /** The lump-sum comparison: the same total invested at the first price at or after the start, when positive. */
  function LumpComparison(invested: real, start: Option<real>, currentPrice: real): (r: Option<LumpSum>)
    requires invested > 0.0
    ensures r.Some? <==> start.Some? && start.value > 0.0
  {
    var sp := if start.Some? then start.value else 0.0;
    if sp > 0.0 then Some(LumpSumMetrics(invested, sp, currentPrice)) else None
  }

  lemma MulDivAssoc(n: real, amt: real, p: real)
    requires p > 0.0
    ensures n * (amt / p) == (n * amt) / p
  {
  }

  /** Buying at one flat price `p` throughout buys `invested / p` shares. */
  lemma FlatDcaShares(qs: seq<Option<real>>, amt: real, p: real)
    requires amt > 0.0 && p > 0.0 && BuyCount(qs) > 0
    requires forall i :: 0 <= i < |qs| && Bought(qs[i]) ==> qs[i].value == p
    ensures InvestedFor(qs, amt) > 0.0
    ensures SharesFor(qs, amt) == InvestedFor(qs, amt) / p
  {
    SharesAtFlatPrice(qs, amt, p);
    InvestedIsCountTimesAmount(qs, amt);
    var n := BuyCount(qs) as real;
    PositiveProduct(n, amt);
    MulDivAssoc(n, amt, p);
  }

  /**
    Buying at one flat price `p` throughout gives the same shares, and the
    same value, as investing the whole total at once at `p`.
  */
  lemma FlatDcaMatchesLumpSum(qs: seq<Option<real>>, amt: real, p: real, currentPrice: real)
    requires amt > 0.0 && p > 0.0 && BuyCount(qs) > 0
    requires forall i :: 0 <= i < |qs| && Bought(qs[i]) ==> qs[i].value == p
    ensures InvestedFor(qs, amt) > 0.0
    ensures SharesFor(qs, amt) == LumpSumMetrics(InvestedFor(qs, amt), p, currentPrice).shares
    ensures SharesFor(qs, amt) * currentPrice == LumpSumMetrics(InvestedFor(qs, amt), p, currentPrice).currentValue
  {
    FlatDcaShares(qs, amt, p);
  }

  datatype DcaReport = DcaReport(
    invested: real,
    contributions: int,
    shares: real,
    currentPrice: real,
    currentValue: real,
    roiPct: real,
    series: seq<Sample>,
    lumpSum: Option<LumpSum>)

  /**
    The `dca` answer once the purchases are known: the value of the final
    shares at the last charted price, the ROI over the cash spent, the value
    series and the lump-sum comparison.
  */
  function DcaReportOf(invested: real, n: int, shares: real, chart: seq<Sample>, lookupStart: Option<real>): (r: DcaReport)
    requires invested > 0.0 && chart != []
    ensures r.invested == invested && r.contributions == n && r.shares == shares
    ensures r.currentPrice == chart[|chart| - 1].px && r.currentValue == Worth(r.currentPrice, r.shares)
    ensures r.roiPct == (r.currentValue / r.invested - 1.0) * 100.0
    ensures r.lumpSum == LumpComparison(r.invested, lookupStart, r.currentPrice)
    ensures r.series == ScaleSeries(chart, shares) && r.series[|r.series| - 1].px == r.currentValue
  {
    var cur := chart[|chart| - 1].px;
    var value := Worth(cur, shares);
    RoiAsRatio(value, invested);
    DcaReport(invested, n, shares, cur, value, (value - invested) / invested * 100.0,
              ScaleSeries(chart, shares), LumpComparison(invested, lookupStart, cur))
  }

  /**
    What the `dca` endpoint answers for a price series: buy `amt_per` at the
    first price at or after every scheduled date, then value the shares on
    the charted series.
  */
  function DcaOutcome(amtPer: real, freq: string, fromTs: int, toTs: int, series: seq<Sample>): Result<DcaReport> {
    if amtPer <= 0.0 then Err("Amount must be > 0")
    else if fromTs >= toTs then Err("Start must be in the past")
    else if series == [] then Err("No price data")
    else
      var n := Contributions(fromTs, toTs, StepDays(freq));
      var qs := DcaQuotes(series, fromTs, StepDays(freq) * ONE_DAY, n);
      var invested := InvestedFor(qs, amtPer);
      var shares := SharesFor(qs, amtPer);
      if invested <= 0.0 || shares <= 0.0 then Err("No valid contribution points")
      else Ok(DcaReportOf(invested, n, shares, DcaChart(series, fromTs, toTs), FirstAtOrAfter(series, fromTs * 1000)))
  }

  /** The guards of the `dca` answer, in the order the endpoint checks them. */
  lemma DcaOutcomeErrors(amtPer: real, freq: string, fromTs: int, toTs: int, series: seq<Sample>)
    ensures var r := DcaOutcome(amtPer, freq, fromTs, toTs, series);
      && (amtPer <= 0.0 ==> r == Err("Amount must be > 0"))
      && (amtPer > 0.0 && fromTs >= toTs ==> r == Err("Start must be in the past"))
      && (amtPer > 0.0 && fromTs < toTs && series == [] ==> r == Err("No price data"))
      && (amtPer > 0.0 && fromTs < toTs && series != [] ==> r.Err? ==> r.error == "No valid contribution points")
  {
  }

  /**
    The bookkeeping of the `dca` answer past its guards: "No valid
    contribution points" exactly when no scheduled price buys, and otherwise
    the cash spent and the shares bought at the scheduled prices, the
    reported contribution count, and the value series at the final shares,
    which ends at the reported current value; the current price is the last
    charted price, the ROI is over the cash spent, and the lump-sum
    comparison invests the same cash at the first price at or after the start.
  */
  lemma DcaOutcomeFacts(amtPer: real, freq: string, fromTs: int, toTs: int, series: seq<Sample>)
    requires amtPer > 0.0 && fromTs < toTs && series != []
    ensures var r := DcaOutcome(amtPer, freq, fromTs, toTs, series);
      var n := Contributions(fromTs, toTs, StepDays(freq));
      var qs := DcaQuotes(series, fromTs, StepDays(freq) * ONE_DAY, n);
      && n >= 1
      && (r.Err? <==> BuyCount(qs) == 0)
      && (r.Ok? ==>
            && r.value.contributions == n
            && r.value.invested == InvestedFor(qs, amtPer) > 0.0
            && r.value.shares == SharesFor(qs, amtPer) > 0.0
            && r.value.currentPrice == DcaChart(series, fromTs, toTs)[|DcaChart(series, fromTs, toTs)| - 1].px
            && r.value.currentValue == Worth(r.value.currentPrice, r.value.shares)
            && r.value.roiPct == (r.value.currentValue / r.value.invested - 1.0) * 100.0
            && r.value.lumpSum == LumpComparison(r.value.invested, FirstAtOrAfter(series, fromTs * 1000), r.value.currentPrice)
            && r.value.series == ScaleSeries(DcaChart(series, fromTs, toTs), r.value.shares)
            && r.value.series[|r.value.series| - 1].px == r.value.currentValue)
  {
    var stepDays := StepDays(freq);
    var n := Contributions(fromTs, toTs, stepDays);
    ScheduleLength(fromTs, toTs, stepDays, 0);
    var qs := DcaQuotes(series, fromTs, stepDays * ONE_DAY, n);
    SharesSign(qs, amtPer);
    InvestedBounds(qs, amtPer);
    var invested, shares := InvestedFor(qs, amtPer), SharesFor(qs, amtPer);
    var r := DcaOutcome(amtPer, freq, fromTs, toTs, series);
    if invested > 0.0 && shares > 0.0 {
      var chart := DcaChart(series, fromTs, toTs);
      var rep := DcaReportOf(invested, n, shares, chart, FirstAtOrAfter(series, fromTs * 1000));
      assert r == Ok(rep);
    } else {
      assert r == Err("No valid contribution points");
    }
  }

  /**
    The cash spent is `amt` per purchase, so it is positive exactly when
    something was bought and never exceeds `amt` per scheduled date.
  */
  lemma InvestedBounds(qs: seq<Option<real>>, amt: real)
    requires amt > 0.0
    ensures InvestedFor(qs, amt) == BuyCount(qs) as real * amt
    ensures InvestedFor(qs, amt) > 0.0 <==> BuyCount(qs) > 0
    ensures InvestedFor(qs, amt) <= |qs| as real * amt
  {
    InvestedIsCountTimesAmount(qs, amt);
    var k := BuyCount(qs);
    if k > 0 {
      PositiveProduct(k as real, amt);
    }
    ScaleAmount(k as real, |qs| as real, amt);
  }

  lemma PositiveProduct(a: real, b: real)
    requires a > 0.0 && b > 0.0
    ensures a * b > 0.0
  {
  }

  lemma ScaleAmount(k: real, n: real, amt: real)
    requires k <= n && amt > 0.0
    ensures k * amt <= n * amt
  {
  }

  /** `(value - invested) / invested * 100 == (value / invested - 1) * 100`. */
  lemma RoiAsRatio(value: real, invested: real)
    requires invested > 0.0
    ensures (value - invested) / invested * 100.0 == (value / invested - 1.0) * 100.0
  {
    assert invested / invested == 1.0;
    assert (value - invested) / invested == value / invested - invested / invested;
  }

  /** One more scheduled date appends its looked-up price and moves the date on by one step. */
  lemma QuotesStep(series: seq<Sample>, fromTs: int, stepSec: int, i: nat, d: int)
    requires d == Advance(fromTs, stepSec, i)
    ensures DcaQuotes(series, fromTs, stepSec, i + 1)
         == DcaQuotes(series, fromTs, stepSec, i) + [FirstAtOrAfter(series, d * 1000)]
    ensures Advance(fromTs, stepSec, i + 1) == d + stepSec
  {
  }

  /** The first date past `toTs` is date number `Contributions`. */
  lemma ScheduleEnd(fromTs: int, toTs: int, stepDays: int, i: nat)
    requires stepDays > 0 && fromTs <= toTs
    requires toTs < Advance(fromTs, stepDays * ONE_DAY, i)
    requires i > 0 ==> Advance(fromTs, stepDays * ONE_DAY, i - 1) <= toTs
    ensures i == Contributions(fromTs, toTs, stepDays)
  {
    ScheduleLength(fromTs, toTs, stepDays, i);
    if i > 0 {
      ScheduleLength(fromTs, toTs, stepDays, i - 1);
    }
  }

  /**
    The purchase loop of the `dca` endpoint: from `fromTs`, every `stepDays`
    days up to `toTs`, buy `amtPer` at the first price at or after the date.
  */
  method Purchases(amtPer: real, stepDays: int, fromTs: int, toTs: int, series: seq<Sample>)
    returns (invested: real, shares: real)
    requires stepDays > 0 && fromTs <= toTs
    ensures var qs := DcaQuotes(series, fromTs, stepDays * ONE_DAY, Contributions(fromTs, toTs, stepDays));
      invested == InvestedFor(qs, amtPer) && shares == SharesFor(qs, amtPer)
  {
    var stepSec := stepDays * ONE_DAY;
    var d := fromTs;
    shares, invested := 0.0, 0.0;
    ghost var i := 0;
    ghost var qs: seq<Option<real>> := [];
    while d <= toTs
      invariant d == Advance(fromTs, stepSec, i)
      invariant i > 0 ==> Advance(fromTs, stepSec, i - 1) <= toTs
      invariant qs == DcaQuotes(series, fromTs, stepSec, i)
      invariant invested == InvestedFor(qs, amtPer) && shares == SharesFor(qs, amtPer)
      decreases toTs - d
    {
      var price := FirstAtOrAfter(series, d * 1000);
      QuotesStep(series, fromTs, stepSec, i, d);
      PurchaseStep(qs, price, amtPer);
      if Bought(price) {
        shares := shares + amtPer / price.value;
        invested := invested + amtPer;
      }
      d := d + stepSec;
      i := i + 1;
      qs := qs + [price];
    }
    ScheduleEnd(fromTs, toTs, stepDays, i);
  }

  /** The `dca` endpoint over a fetched price series, computing `DcaOutcome`. */
  method DcaBacktest(amtPer: real, freq: string, fromTs: int, toTs: int, series: seq<Sample>)
    returns (r: Result<DcaReport>)
    ensures r == DcaOutcome(amtPer, freq, fromTs, toTs, series)
  {
    if amtPer <= 0.0 {
      return Err("Amount must be > 0");
    }
    if fromTs >= toTs {
      return Err("Start must be in the past");
    }
    if series == [] {
      return Err("No price data");
    }
    var chart := DcaChart(series, fromTs, toTs);
    var stepDays := StepDays(freq);
    var invested, shares := Purchases(amtPer, stepDays, fromTs, toTs, series);
    if invested <= 0.0 || shares <= 0.0 {
      return Err("No valid contribution points");
    }
    r := Ok(DcaReportOf(invested, Contributions(fromTs, toTs, stepDays), shares, chart,
                        FirstAtOrAfter(series, fromTs * 1000)));
  }
}
