/**
  The portfolio views: the holdings' daily values summed per day
  (`api_portfolio_history`), their Holt–Winters forecasts summed per day
  (`api_portfolio_forecast`) and their simulated bands summed per step
  (`api_portfolio_scenario`). Each one fills `ts_ms -> value` dictionaries
  one series at a time and answers them sorted by timestamp.
*/
module Portfolio {
  import opened Wrappers
  import opened Series
  import opened HoltWinters
  import opened MonteCarlo
  import opened Predict

  /** `d.get(k, 0.0)`. */
  function Get(m: map<int, real>, k: int): (v: real)
    ensures k !in m ==> v == 0.0
  {
    if k in m then m[k] else 0.0
  }

  /** What one sample of `qty` coins adds: `qty * px`, or `max(0.0, qty * px)` for a band. */
  function Weighted(qty: real, px: real, clamp: bool): (v: real)
    ensures clamp ==> v >= 0.0
    ensures clamp && qty >= 0.0 && px >= 0.0 ==> v == qty * px
  {
    if clamp then Max(0.0, qty * px) else qty * px
  }

  /** The dictionary after `for ts, px in pts: agg[ts] = agg.get(ts, 0.0) + w`, one sample at a time. */
  function AddSeries(agg: map<int, real>, pts: seq<Sample>, qty: real, clamp: bool): map<int, real> {
    if pts == [] then agg
    else
      var a := AddSeries(agg, pts[..|pts| - 1], qty, clamp);
      var p := pts[|pts| - 1];
      a[p.ts := Get(a, p.ts) + Weighted(qty, p.px, clamp)]
  }

  /** The timestamps of a series. */
  function Stamps(pts: seq<Sample>): set<int> {
    if pts == [] then {} else Stamps(pts[..|pts| - 1]) + {pts[|pts| - 1].ts}
  }

  /** The weighted values of a series at one timestamp, summed: the reference for `AddSeries`. */
  function SeriesSum(pts: seq<Sample>, ts: int, qty: real, clamp: bool): real {
    if pts == [] then 0.0
    else
      var p := pts[|pts| - 1];
      SeriesSum(pts[..|pts| - 1], ts, qty, clamp) + (if p.ts == ts then Weighted(qty, p.px, clamp) else 0.0)
  }

  lemma {:induction false} StampsAre(pts: seq<Sample>, t: int)
    ensures t in Stamps(pts) <==> exists i :: 0 <= i < |pts| && pts[i].ts == t
  {
    if pts != [] {
      var init := pts[..|pts| - 1];
      StampsAre(init, t);
      if t in Stamps(init) {
        var i :| 0 <= i < |init| && init[i].ts == t;
        assert pts[i].ts == t;
      }
      if exists i :: 0 <= i < |pts| && pts[i].ts == t {
        var i :| 0 <= i < |pts| && pts[i].ts == t;
        if i < |init| {
          assert init[i].ts == t;
        }
      }
    }
  }

  /**
    Adding a series keeps every key and adds its timestamps, and each value
    grows by exactly the weighted samples at that timestamp.
  */
  lemma {:induction false} AddSeriesSums(agg: map<int, real>, pts: seq<Sample>, qty: real, clamp: bool, ts: int)
    ensures AddSeries(agg, pts, qty, clamp).Keys == agg.Keys + Stamps(pts)
    ensures Get(AddSeries(agg, pts, qty, clamp), ts) == Get(agg, ts) + SeriesSum(pts, ts, qty, clamp)
  {
    if pts != [] {
      AddSeriesSums(agg, pts[..|pts| - 1], qty, clamp, ts);
    }
  }

  /** Clamped weights never sum below zero. */
  lemma {:induction false} ClampedSumNonNegative(pts: seq<Sample>, ts: int, qty: real)
    ensures SeriesSum(pts, ts, qty, true) >= 0.0
  {
    if pts != [] {
      ClampedSumNonNegative(pts[..|pts| - 1], ts, qty);
    }
  }

  /**
    Two series stamped alike, the first pointwise no larger, sum to no more
    at every timestamp for a non-negative quantity.
  */
  lemma {:induction false} SeriesSumMono(a: seq<Sample>, b: seq<Sample>, ts: int, qty: real)
    requires |a| == |b| && qty >= 0.0
    requires forall i :: 0 <= i < |a| ==> a[i].ts == b[i].ts && a[i].px <= b[i].px
    ensures SeriesSum(a, ts, qty, false) <= SeriesSum(b, ts, qty, false)
  {
    if a != [] {
      var n := |a| - 1;
      assert forall i :: 0 <= i < n ==> a[..n][i] == a[i] && b[..n][i] == b[i];
      SeriesSumMono(a[..n], b[..n], ts, qty);
      MulLeReal(a[n].px, b[n].px, qty);
      assert Weighted(qty, a[n].px, false) <= Weighted(qty, b[n].px, false);
      assert SeriesSum(a, ts, qty, false) == SeriesSum(a[..n], ts, qty, false) + (if a[n].ts == ts then Weighted(qty, a[n].px, false) else 0.0);
      assert SeriesSum(b, ts, qty, false) == SeriesSum(b[..n], ts, qty, false) + (if b[n].ts == ts then Weighted(qty, b[n].px, false) else 0.0);
    }
  }

  lemma MulLeReal(x: real, y: real, q: real)
    requires x <= y && q >= 0.0
    ensures q * x <= q * y
  {
  }

  /** The loop `for ts, px in pts: agg[ts] = agg.get(ts, 0.0) + w` on a working copy of `agg`. */
  method AddInto(agg: map<int, real>, pts: seq<Sample>, qty: real, clamp: bool) returns (r: map<int, real>)
    ensures r == AddSeries(agg, pts, qty, clamp)
  {
    r := agg;
    for i := 0 to |pts|
      invariant r == AddSeries(agg, pts[..i], qty, clamp)
    {
      assert pts[..i + 1][..i] == pts[..i];
      var p := pts[i];
      var cur := if p.ts in r then r[p.ts] else 0.0;
      r := r[p.ts := cur + Weighted(qty, p.px, clamp)];
    }
    assert pts[..|pts|] == pts;
  }

  /**
    `sorted([[ts, v] for ts, v in d.items()], key=ts)`: every entry once,
    by ascending timestamp.
  */
  predicate SortedView(series: seq<Sample>, m: map<int, real>) {
    && StrictlyAscending(series)
    && (forall i :: 0 <= i < |series| ==> series[i].ts in m && series[i].px == m[series[i].ts])
    && (forall k :: k in m ==> exists i :: 0 <= i < |series| && series[i].ts == k)
  }

  method ToSortedSeries(m: map<int, real>) returns (series: seq<Sample>)
    ensures SortedView(series, m)
    ensures |series| == |m|
  {
    var ks := SortedKeys(m.Keys);
    forall j | 0 <= j < |ks|
      ensures ks[j] in m
    {
      assert ks[j] in ks;
    }
    series := [];
    for i := 0 to |ks|
      invariant |series| == i
      invariant forall j :: 0 <= j < i ==> series[j] == Sample(ks[j], m[ks[j]])
    {
      series := series + [Sample(ks[i], m[ks[i]])];
    }
    forall k | k in m
      ensures exists i :: 0 <= i < |series| && series[i].ts == k
    {
      var i :| 0 <= i < |ks| && ks[i] == k;
      assert series[i].ts == k;
    }
  }

  // ---------------------------------------------------------------------
  // portfolio_history

  /** A holding row with the daily closes fetched for its coin. */
  datatype Holding = Holding(qty: real, daily: seq<Sample>)

  /** The `agg` dictionary after the rows: rows with `qty <= 0` are skipped. */
  function HistoryAgg(hs: seq<Holding>): map<int, real> {
    if hs == [] then map[]
    else
      var a := HistoryAgg(hs[..|hs| - 1]);
      var h := hs[|hs| - 1];
      if h.qty <= 0.0 then a else AddSeries(a, h.daily, h.qty, false)
  }

  /** The days on which some held coin (`qty > 0`) has a close. */
  function HeldStamps(hs: seq<Holding>): set<int> {
    if hs == [] then {}
    else
      var h := hs[|hs| - 1];
      HeldStamps(hs[..|hs| - 1]) + (if h.qty <= 0.0 then {} else Stamps(h.daily))
  }

  /** The portfolio value on day `ts`: `qty * px` over the held coins' closes that day. */
  function HeldValue(hs: seq<Holding>, ts: int): real {
    if hs == [] then 0.0
    else
      var h := hs[|hs| - 1];
      HeldValue(hs[..|hs| - 1], ts) + (if h.qty <= 0.0 then 0.0 else SeriesSum(h.daily, ts, h.qty, false))
  }

  /**
    The history holds exactly the days on which a held coin has a close,
    each with the summed value of the held coins that day.
  */
  lemma {:induction false} HistoryTotals(hs: seq<Holding>, ts: int)
    ensures HistoryAgg(hs).Keys == HeldStamps(hs)
    ensures Get(HistoryAgg(hs), ts) == HeldValue(hs, ts)
  {
    if hs != [] {
      var h := hs[|hs| - 1];
      HistoryTotals(hs[..|hs| - 1], ts);
      if h.qty > 0.0 {
        AddSeriesSums(HistoryAgg(hs[..|hs| - 1]), h.daily, h.qty, false, ts);
      }
    }
  }

  /** A row with no positive quantity changes nothing, wherever it is in the list. */
  lemma {:induction false} UnheldRowIgnored(hs: seq<Holding>, h: Holding, rest: seq<Holding>)
    requires h.qty <= 0.0
    ensures HistoryAgg(hs + [h] + rest) == HistoryAgg(hs + rest)
    decreases |rest|
  {
    if rest == [] {
      assert hs + [h] + rest == hs + [h];
      assert hs + rest == hs;
      assert (hs + [h])[..|hs + [h]| - 1] == hs;
    } else {
      var last := rest[|rest| - 1];
      var init := rest[..|rest| - 1];
      UnheldRowIgnored(hs, h, init);
      assert (hs + [h] + rest)[..|hs + [h] + rest| - 1] == hs + [h] + init;
      assert (hs + rest)[..|hs + rest| - 1] == hs + init;
      assert (hs + [h] + rest)[|hs + [h] + rest| - 1] == last;
      assert (hs + rest)[|hs + rest| - 1] == last;
    }
  }

  /** `api_portfolio_history`, after the holdings and their closes have been loaded. */
  method PortfolioHistory(hs: seq<Holding>) returns (series: seq<Sample>)
    ensures SortedView(series, HistoryAgg(hs))
    ensures hs == [] ==> series == []
  {
    if hs == [] {
      return [];
    }
    var agg: map<int, real> := map[];
    for j := 0 to |hs|
      invariant agg == HistoryAgg(hs[..j])
    {
      assert hs[..j + 1][..j] == hs[..j];
      var h := hs[j];
      if h.qty > 0.0 {
        agg := AddInto(agg, h.daily, h.qty, false);
      }
    }
    assert hs[..|hs|] == hs;
    series := ToSortedSeries(agg);
  }

  // ---------------------------------------------------------------------
  // portfolio_forecast

  /** Days of history put in front of each coin's forecast. */
  const HISTORY_TAIL: nat := 60

  /** A holding row with its coin's daily closes and the residual spread Holt–Winters uses for its bands. */
  datatype ForecastHolding = ForecastHolding(qty: real, daily: seq<Sample>, sigma: real)

  datatype ForecastAggs = ForecastAggs(central: map<int, real>, low: map<int, real>, high: map<int, real>)

  /** The forecast a row contributes: none without closes, without a positive quantity or when the forecast is empty. */
  function RowForecast(fh: ForecastHolding, h: int): Option<HwForecast> {
    if fh.daily == [] || fh.qty <= 0.0 then None
    else
      match HwSpec(fh.daily, h, PLAN_SEASON, fh.sigma)
      case None => None
      case Some(fc) => if fc.out == [] then None else Some(fc)
  }

  /** One row: its history tail and forecast added to the central dictionary, its bands clamped into the band dictionaries. */
  function ForecastRow(a: ForecastAggs, fh: ForecastHolding, h: int): ForecastAggs {
    match RowForecast(fh, h)
    case None => a
    case Some(fc) =>
      ForecastAggs(AddSeries(AddSeries(a.central, TakeLast(fh.daily, HISTORY_TAIL), fh.qty, false), fc.out, fh.qty, false),
                   AddSeries(a.low, fc.low, fh.qty, true),
                   AddSeries(a.high, fc.high, fh.qty, true))
  }

  function ForecastAggsOf(hs: seq<ForecastHolding>, h: int): ForecastAggs {
    if hs == [] then ForecastAggs(map[], map[], map[])
    else ForecastRow(ForecastAggsOf(hs[..|hs| - 1], h), hs[|hs| - 1], h)
  }

  /** `[[ts, d[ts]] for ts, _ in series if ts in d]`. */
  function Restrict(series: seq<Sample>, m: map<int, real>): (r: seq<Sample>)
    ensures |r| <= |series|
  {
    if series == [] then []
    else
      var p := series[|series| - 1];
      Restrict(series[..|series| - 1], m) + (if p.ts in m then [Sample(p.ts, m[p.ts])] else [])
  }

  /** Each kept entry carries the band dictionary's value for its day. */
  lemma {:induction false} RestrictValues(series: seq<Sample>, m: map<int, real>)
    ensures forall i :: 0 <= i < |Restrict(series, m)| ==>
      Restrict(series, m)[i].ts in m && Restrict(series, m)[i].px == m[Restrict(series, m)[i].ts]
  {
    if series != [] {
      var r0 := Restrict(series[..|series| - 1], m);
      var p := series[|series| - 1];
      RestrictValues(series[..|series| - 1], m);
      if p.ts in m {
        assert Restrict(series, m) == r0 + [Sample(p.ts, m[p.ts])];
      } else {
        assert Restrict(series, m) == r0 + [];
        assert r0 + [] == r0;
      }
    }
  }

  /** The band list holds exactly the series' days that the band dictionary has. */
  lemma {:induction false} RestrictStamps(series: seq<Sample>, m: map<int, real>)
    ensures Stamps(Restrict(series, m)) == Stamps(series) * m.Keys
  {
    if series != [] {
      var r0 := Restrict(series[..|series| - 1], m);
      var p := series[|series| - 1];
      RestrictStamps(series[..|series| - 1], m);
      if p.ts in m {
        assert (r0 + [Sample(p.ts, m[p.ts])])[..|r0|] == r0;
      } else {
        assert r0 + [] == r0;
      }
    }
  }

  /** In an ascending series every earlier day is before the last one. */
  lemma BeforeLast(init: seq<Sample>, last: Sample)
    requires StrictlyAscending(init + [last])
    ensures forall t :: t in Stamps(init) ==> t < last.ts
  {
    forall t | t in Stamps(init)
      ensures t < last.ts
    {
      StampsAre(init, t);
      var j :| 0 <= j < |init| && init[j].ts == t;
      assert (init + [last])[j].ts < (init + [last])[|init|].ts;
    }
  }

  /** Filtering an ascending series keeps it ascending, so the `sorted` around it changes nothing. */
  lemma {:induction false} RestrictAscending(series: seq<Sample>, m: map<int, real>)
    requires StrictlyAscending(series)
    ensures StrictlyAscending(Restrict(series, m))
  {
    if series != [] {
      var n := |series| - 1;
      var r0 := Restrict(series[..n], m);
      RestrictAscending(series[..n], m);
      RestrictStamps(series[..n], m);
      assert series[..n] + [series[n]] == series;
      BeforeLast(series[..n], series[n]);
      forall i | 0 <= i < |r0|
        ensures r0[i].ts < series[n].ts
      {
        StampsAre(r0, r0[i].ts);
      }
      var p := series[n];
      if p.ts in m {
        assert Restrict(series, m) == r0 + [Sample(p.ts, m[p.ts])];
        AppendAscending(r0, Sample(p.ts, m[p.ts]));
      } else {
        assert Restrict(series, m) == r0 + [];
        assert r0 + [] == r0;
      }
    }
  }

  /** A point later than every point of an ascending series extends it. */
  lemma AppendAscending(s: seq<Sample>, x: Sample)
    requires StrictlyAscending(s)
    requires forall i :: 0 <= i < |s| ==> s[i].ts < x.ts
    ensures StrictlyAscending(s + [x])
  {
    var t := s + [x];
    forall i, j | 0 <= i < j < |t|
      ensures t[i].ts < t[j].ts
    {
      assert t[i] == s[i];
      if j < |s| {
        assert t[j] == s[j];
      }
    }
  }

  /** Band values are sums of clamped terms, so never negative. */
  lemma {:induction false} ForecastBandsNonNegative(hs: seq<ForecastHolding>, h: int, ts: int)
    ensures Get(ForecastAggsOf(hs, h).low, ts) >= 0.0
    ensures Get(ForecastAggsOf(hs, h).high, ts) >= 0.0
  {
    if hs != [] {
      var a := ForecastAggsOf(hs[..|hs| - 1], h);
      var fh := hs[|hs| - 1];
      ForecastBandsNonNegative(hs[..|hs| - 1], h, ts);
      if fh.daily != [] && fh.qty > 0.0 {
        var fc := HwSpec(fh.daily, h, PLAN_SEASON, fh.sigma);
        if fc.Some? && fc.value.out != [] {
          AddSeriesSums(a.low, fc.value.low, fh.qty, true, ts);
          AddSeriesSums(a.high, fc.value.high, fh.qty, true, ts);
          ClampedSumNonNegative(fc.value.low, ts, fh.qty);
          ClampedSumNonNegative(fc.value.high, ts, fh.qty);
        }
      }
    }
  }

  /**
    The answered band lists run in the central series' order over exactly
    its days that the band dictionaries hold, each with a non-negative
    summed band value.
  */
  lemma ForecastBandLists(hs: seq<ForecastHolding>, h: int, series: seq<Sample>)
    requires SortedView(series, ForecastAggsOf(hs, h).central)
    ensures var a := ForecastAggsOf(hs, h);
      && StrictlyAscending(Restrict(series, a.low))
      && StrictlyAscending(Restrict(series, a.high))
      && Stamps(Restrict(series, a.low)) == Stamps(series) * a.low.Keys
      && Stamps(Restrict(series, a.high)) == Stamps(series) * a.high.Keys
      && (forall i :: 0 <= i < |Restrict(series, a.low)| ==> Restrict(series, a.low)[i].px >= 0.0)
      && (forall i :: 0 <= i < |Restrict(series, a.high)| ==> Restrict(series, a.high)[i].px >= 0.0)
  {
    var a := ForecastAggsOf(hs, h);
    RestrictAscending(series, a.low);
    RestrictAscending(series, a.high);
    RestrictStamps(series, a.low);
    RestrictStamps(series, a.high);
    RestrictValues(series, a.low);
    RestrictValues(series, a.high);
    forall i | 0 <= i < |Restrict(series, a.low)|
      ensures Restrict(series, a.low)[i].px >= 0.0
    {
      ForecastBandsNonNegative(hs, h, Restrict(series, a.low)[i].ts);
    }
    forall i | 0 <= i < |Restrict(series, a.high)|
      ensures Restrict(series, a.high)[i].px >= 0.0
    {
      ForecastBandsNonNegative(hs, h, Restrict(series, a.high)[i].ts);
    }
  }

  /** The days a contributing row's history tail or forecast covers, over all rows. */
  function CentralStamps(hs: seq<ForecastHolding>, h: int): set<int> {
    if hs == [] then {}
    else
      var fh := hs[|hs| - 1];
      CentralStamps(hs[..|hs| - 1], h) +
        match RowForecast(fh, h)
        case None => {}
        case Some(fc) => Stamps(TakeLast(fh.daily, HISTORY_TAIL)) + Stamps(fc.out)
  }

  /** The central value at `ts`: `qty * px` over each contributing row's history tail and forecast points there. */
  function CentralValue(hs: seq<ForecastHolding>, h: int, ts: int): real {
    if hs == [] then 0.0
    else
      var fh := hs[|hs| - 1];
      CentralValue(hs[..|hs| - 1], h, ts) +
        match RowForecast(fh, h)
        case None => 0.0
        case Some(fc) => SeriesSum(TakeLast(fh.daily, HISTORY_TAIL), ts, fh.qty, false) + SeriesSum(fc.out, ts, fh.qty, false)
  }

  /** The lower band of a forecast, or its upper band. */
  function Edge(fc: HwForecast, upper: bool): seq<Sample> {
    if upper then fc.high else fc.low
  }

  /** The days a contributing row's lower (upper) band covers, over all rows. */
  function EdgeStamps(hs: seq<ForecastHolding>, h: int, upper: bool): set<int> {
    if hs == [] then {}
    else
      EdgeStamps(hs[..|hs| - 1], h, upper) +
        match RowForecast(hs[|hs| - 1], h)
        case None => {}
        case Some(fc) => Stamps(Edge(fc, upper))
  }

  /** The lower (upper) band value at `ts`: `max(0, qty * px)` over each contributing row's band points there. */
  function EdgeValue(hs: seq<ForecastHolding>, h: int, upper: bool, ts: int): real {
    if hs == [] then 0.0
    else
      var fh := hs[|hs| - 1];
      EdgeValue(hs[..|hs| - 1], h, upper, ts) +
        match RowForecast(fh, h)
        case None => 0.0
        case Some(fc) => SeriesSum(Edge(fc, upper), ts, fh.qty, true)
  }

  /**
    The central dictionary holds exactly the days of the contributing rows'
    history tails and forecasts, each with the summed `qty * px` there; the
    band dictionaries hold exactly the days of their bands, each with the
    summed clamped values there.
  */
  lemma {:induction false} ForecastTotals(hs: seq<ForecastHolding>, h: int, ts: int)
    ensures ForecastAggsOf(hs, h).central.Keys == CentralStamps(hs, h)
    ensures Get(ForecastAggsOf(hs, h).central, ts) == CentralValue(hs, h, ts)
    ensures ForecastAggsOf(hs, h).low.Keys == EdgeStamps(hs, h, false)
    ensures Get(ForecastAggsOf(hs, h).low, ts) == EdgeValue(hs, h, false, ts)
    ensures ForecastAggsOf(hs, h).high.Keys == EdgeStamps(hs, h, true)
    ensures Get(ForecastAggsOf(hs, h).high, ts) == EdgeValue(hs, h, true, ts)
  {
    if hs != [] {
      var a := ForecastAggsOf(hs[..|hs| - 1], h);
      var fh := hs[|hs| - 1];
      ForecastTotals(hs[..|hs| - 1], h, ts);
      match RowForecast(fh, h)
      case None =>
      case Some(fc) =>
        var tail := TakeLast(fh.daily, HISTORY_TAIL);
        AddSeriesSums(a.central, tail, fh.qty, false, ts);
        AddSeriesSums(AddSeries(a.central, tail, fh.qty, false), fc.out, fh.qty, false, ts);
        AddSeriesSums(a.low, fc.low, fh.qty, true, ts);
        AddSeriesSums(a.high, fc.high, fh.qty, true, ts);
    }
  }

  /**
    Every point answered by the forecast view carries the portfolio sum for
    its day: the central series the summed history and forecast values, the
    band lists the summed clamped band values.
  */
  lemma ForecastAnswerSums(hs: seq<ForecastHolding>, h: int, series: seq<Sample>)
    requires SortedView(series, ForecastAggsOf(hs, h).central)
    ensures forall i :: 0 <= i < |series| ==>
      series[i].ts in CentralStamps(hs, h) && series[i].px == CentralValue(hs, h, series[i].ts)
    ensures forall t :: t in CentralStamps(hs, h) ==> exists i :: 0 <= i < |series| && series[i].ts == t
    ensures var low := Restrict(series, ForecastAggsOf(hs, h).low);
      forall i :: 0 <= i < |low| ==> low[i].px == EdgeValue(hs, h, false, low[i].ts)
    ensures var high := Restrict(series, ForecastAggsOf(hs, h).high);
      forall i :: 0 <= i < |high| ==> high[i].px == EdgeValue(hs, h, true, high[i].ts)
  {
    var a := ForecastAggsOf(hs, h);
    forall i | 0 <= i < |series|
      ensures series[i].ts in CentralStamps(hs, h) && series[i].px == CentralValue(hs, h, series[i].ts)
    {
      ForecastTotals(hs, h, series[i].ts);
    }
    ForecastTotals(hs, h, 0);
    var low := Restrict(series, a.low);
    RestrictValues(series, a.low);
    forall i | 0 <= i < |low|
      ensures low[i].px == EdgeValue(hs, h, false, low[i].ts)
    {
      ForecastTotals(hs, h, low[i].ts);
    }
    var high := Restrict(series, a.high);
    RestrictValues(series, a.high);
    forall i | 0 <= i < |high|
      ensures high[i].px == EdgeValue(hs, h, true, high[i].ts)
    {
      ForecastTotals(hs, h, high[i].ts);
    }
  }

  /** `api_portfolio_forecast`, after the holdings and their closes have been loaded. */
  method PortfolioForecast(hs: seq<ForecastHolding>, hReq: int) returns (series: seq<Sample>, low: seq<Sample>, high: seq<Sample>)
    ensures var a := ForecastAggsOf(hs, MaxInt(1, MinInt(hReq, PREDICTION_MAX_DAYS)));
      && SortedView(series, a.central)
      && low == Restrict(series, a.low)
      && high == Restrict(series, a.high)
    ensures hs == [] ==> series == [] && low == [] && high == []
  {
    var h := MaxInt(1, MinInt(hReq, PREDICTION_MAX_DAYS));
    if hs == [] {
      return [], [], [];
    }
    var central: map<int, real> := map[];
    var lowAgg: map<int, real> := map[];
    var highAgg: map<int, real> := map[];
    for j := 0 to |hs|
      invariant ForecastAggs(central, lowAgg, highAgg) == ForecastAggsOf(hs[..j], h)
    {
      assert hs[..j + 1][..j] == hs[..j];
      var fh := hs[j];
      if fh.daily != [] && fh.qty > 0.0 {
        var fc := HoltWintersAdditive(fh.daily, h, PLAN_SEASON, fh.sigma);
        if fc.Some? && fc.value.out != [] {
          var tail := TakeLast(fh.daily, HISTORY_TAIL);
          central := AddInto(central, tail, fh.qty, false);
          central := AddInto(central, fc.value.out, fh.qty, false);
          lowAgg := AddInto(lowAgg, fc.value.low, fh.qty, true);
          highAgg := AddInto(highAgg, fc.value.high, fh.qty, true);
        }
      }
    }
    assert hs[..|hs|] == hs;
    series := ToSortedSeries(central);
    low := Restrict(series, lowAgg);
    high := Restrict(series, highAgg);
  }

  // ---------------------------------------------------------------------
  // portfolio_scenario

  /** A holding row with its coin's daily closes and the growth factors its simulation draws. */
  datatype ScenarioHolding = ScenarioHolding(qty: real, daily: seq<Sample>, factor: (nat, nat) -> real)

  /**
    The three band dictionaries after the rows, or `None` once a held coin's
    simulation fails (a non-positive step).
  */
  function ScenarioAggs(hs: seq<ScenarioHolding>, horizonDays: int, stepDays: int, n: int): Option<Bands3> {
    if hs == [] then Some(Bands3(map[], map[], map[]))
    else
      match ScenarioAggs(hs[..|hs| - 1], horizonDays, stepDays, n)
      case None => None
      case Some(a) =>
        var sh := hs[|hs| - 1];
        if sh.qty <= 0.0 then Some(a)
        else
          match GbmSpec(sh.daily, horizonDays, stepDays, n, sh.factor)
          case None => None
          case Some(b) =>
            Some(Bands3(AddSeries(a.p10, b.p10, sh.qty, false),
                        AddSeries(a.p50, b.p50, sh.qty, false),
                        AddSeries(a.p90, b.p90, sh.qty, false)))
  }

  datatype Bands3 = Bands3(p10: map<int, real>, p50: map<int, real>, p90: map<int, real>)

  /**
    Summed over the held coins the percentiles stay ordered, and all three
    dictionaries hold the same timestamps.
  */
  lemma {:induction false} ScenarioOrdered(hs: seq<ScenarioHolding>, horizonDays: int, stepDays: int, n: int, ts: int)
    requires ScenarioAggs(hs, horizonDays, stepDays, n).Some?
    ensures var a := ScenarioAggs(hs, horizonDays, stepDays, n).value;
      && a.p10.Keys == a.p50.Keys == a.p90.Keys
      && Get(a.p10, ts) <= Get(a.p50, ts) <= Get(a.p90, ts)
  {
    if hs != [] {
      var a := ScenarioAggs(hs[..|hs| - 1], horizonDays, stepDays, n).value;
      var sh := hs[|hs| - 1];
      ScenarioOrdered(hs[..|hs| - 1], horizonDays, stepDays, n, ts);
      if sh.qty > 0.0 {
        var b := GbmSpec(sh.daily, horizonDays, stepDays, n, sh.factor).value;
        GbmBandsAligned(sh.daily, horizonDays, stepDays, n, sh.factor);
        AddSeriesSums(a.p10, b.p10, sh.qty, false, ts);
        AddSeriesSums(a.p50, b.p50, sh.qty, false, ts);
        AddSeriesSums(a.p90, b.p90, sh.qty, false, ts);
        SeriesSumMono(b.p10, b.p50, ts, sh.qty);
        SeriesSumMono(b.p50, b.p90, ts, sh.qty);
        SameStamps(b.p10, b.p50);
        SameStamps(b.p50, b.p90);
      }
    }
  }

  /** The three percentiles of a scenario. */
  datatype Percentile = P10 | P50 | P90

  function BandSeries(b: Bands, q: Percentile): seq<Sample> {
    match q
    case P10 => b.p10
    case P50 => b.p50
    case P90 => b.p90
  }

  function BandMap(a: Bands3, q: Percentile): map<int, real> {
    match q
    case P10 => a.p10
    case P50 => a.p50
    case P90 => a.p90
  }

  /** The steps of the held coins' simulated `q` bands, over all rows. */
  function HeldBandStamps(hs: seq<ScenarioHolding>, horizonDays: int, stepDays: int, n: int, q: Percentile): set<int> {
    if hs == [] then {}
    else
      var sh := hs[|hs| - 1];
      HeldBandStamps(hs[..|hs| - 1], horizonDays, stepDays, n, q) +
        if sh.qty <= 0.0 then {}
        else
          match GbmSpec(sh.daily, horizonDays, stepDays, n, sh.factor)
          case None => {}
          case Some(b) => Stamps(BandSeries(b, q))
  }

  /** The `q` value at step `ts`: `qty * v` over the held coins' simulated `q` band points there. */
  function HeldBandValue(hs: seq<ScenarioHolding>, horizonDays: int, stepDays: int, n: int, q: Percentile, ts: int): real {
    if hs == [] then 0.0
    else
      var sh := hs[|hs| - 1];
      HeldBandValue(hs[..|hs| - 1], horizonDays, stepDays, n, q, ts) +
        if sh.qty <= 0.0 then 0.0
        else
          match GbmSpec(sh.daily, horizonDays, stepDays, n, sh.factor)
          case None => 0.0
          case Some(b) => SeriesSum(BandSeries(b, q), ts, sh.qty, false)
  }

  /**
    When every held coin's simulation succeeds, each percentile dictionary
    holds exactly the held coins' simulated steps, each with the summed
    `qty * v` of that percentile there.
  */
  lemma {:induction false} ScenarioTotals(hs: seq<ScenarioHolding>, horizonDays: int, stepDays: int, n: int, q: Percentile, ts: int)
    requires ScenarioAggs(hs, horizonDays, stepDays, n).Some?
    ensures BandMap(ScenarioAggs(hs, horizonDays, stepDays, n).value, q).Keys == HeldBandStamps(hs, horizonDays, stepDays, n, q)
    ensures Get(BandMap(ScenarioAggs(hs, horizonDays, stepDays, n).value, q), ts) == HeldBandValue(hs, horizonDays, stepDays, n, q, ts)
  {
    if hs != [] {
      var init := hs[..|hs| - 1];
      var a := ScenarioAggs(init, horizonDays, stepDays, n).value;
      var sh := hs[|hs| - 1];
      ScenarioTotals(init, horizonDays, stepDays, n, q, ts);
      if sh.qty > 0.0 {
        var b := GbmSpec(sh.daily, horizonDays, stepDays, n, sh.factor).value;
        AddSeriesSums(BandMap(a, q), BandSeries(b, q), sh.qty, false, ts);
        assert BandMap(ScenarioAggs(hs, horizonDays, stepDays, n).value, q) == AddSeries(BandMap(a, q), BandSeries(b, q), sh.qty, false);
      }
    }
  }

  /**
    Each answered percentile series has one point per step of the held
    coins' simulations, carrying the summed `qty * v` of that percentile.
  */
  lemma ScenarioAnswerSums(hs: seq<ScenarioHolding>, horizonDays: int, stepDays: int, n: int, q: Percentile, s: seq<Sample>)
    requires ScenarioAggs(hs, horizonDays, stepDays, n).Some?
    requires SortedView(s, BandMap(ScenarioAggs(hs, horizonDays, stepDays, n).value, q))
    ensures forall i :: 0 <= i < |s| ==>
      s[i].ts in HeldBandStamps(hs, horizonDays, stepDays, n, q) && s[i].px == HeldBandValue(hs, horizonDays, stepDays, n, q, s[i].ts)
    ensures forall t :: t in HeldBandStamps(hs, horizonDays, stepDays, n, q) ==> exists i :: 0 <= i < |s| && s[i].ts == t
  {
    ScenarioTotals(hs, horizonDays, stepDays, n, q, 0);
    forall i | 0 <= i < |s|
      ensures s[i].px == HeldBandValue(hs, horizonDays, stepDays, n, q, s[i].ts)
    {
      ScenarioTotals(hs, horizonDays, stepDays, n, q, s[i].ts);
    }
  }

  lemma {:induction false} SameStamps(a: seq<Sample>, b: seq<Sample>)
    requires |a| == |b| && forall i :: 0 <= i < |a| ==> a[i].ts == b[i].ts
    ensures Stamps(a) == Stamps(b)
  {
    if a != [] {
      SameStamps(a[..|a| - 1], b[..|b| - 1]);
    }
  }

  /** `api_portfolio_scenario`, after the holdings and their closes have been loaded. */
  method PortfolioScenario(hs: seq<ScenarioHolding>, years: real, stepDays: int, nReq: int) returns (r: Option<Bands>)
    ensures var a := ScenarioAggs(hs, HorizonDays(ClampReal(years, 0.1, SCENARIO_MAX_YEARS)), stepDays, PathCount(nReq));
      && (r.Some? <==> a.Some?)
      && (r.Some? ==>
            && SortedView(r.value.p10, a.value.p10)
            && SortedView(r.value.p50, a.value.p50)
            && SortedView(r.value.p90, a.value.p90))
    ensures hs == [] ==> r == Some(Bands([], [], []))
  {
    if hs == [] {
      return Some(Bands([], [], []));
    }
    var horizon := HorizonDays(ClampReal(years, 0.1, SCENARIO_MAX_YEARS));
    var n := PathCount(nReq);
    var p10: map<int, real> := map[];
    var p50: map<int, real> := map[];
    var p90: map<int, real> := map[];
    for j := 0 to |hs|
      invariant ScenarioAggs(hs[..j], horizon, stepDays, n) == Some(Bands3(p10, p50, p90))
    {
      ScenarioAggsStep(hs, j, horizon, stepDays, n, Bands3(p10, p50, p90));
      var sh := hs[j];
      if sh.qty > 0.0 {
        var b := GbmScenarios(sh.daily, horizon, stepDays, n, sh.factor);
        if b.None? {
          ScenarioFailureSticks(hs, j + 1, horizon, stepDays, n);
          assert hs[..|hs|] == hs;
          return None;
        }
        p10 := AddInto(p10, b.value.p10, sh.qty, false);
        p50 := AddInto(p50, b.value.p50, sh.qty, false);
        p90 := AddInto(p90, b.value.p90, sh.qty, false);
      }
    }
    assert hs[..|hs|] == hs;
    var s10 := ToSortedSeries(p10);
    var s50 := ToSortedSeries(p50);
    var s90 := ToSortedSeries(p90);
    r := Some(Bands(s10, s50, s90));
  }

  /** One more row of the fold: skipped when not held, failing when its simulation fails, added otherwise. */
  lemma ScenarioAggsStep(hs: seq<ScenarioHolding>, j: nat, horizonDays: int, stepDays: int, n: int, a: Bands3)
    requires j < |hs| && ScenarioAggs(hs[..j], horizonDays, stepDays, n) == Some(a)
    ensures var sh := hs[j];
      var g := GbmSpec(sh.daily, horizonDays, stepDays, n, sh.factor);
      var next := ScenarioAggs(hs[..j + 1], horizonDays, stepDays, n);
      && (sh.qty <= 0.0 ==> next == Some(a))
      && (sh.qty > 0.0 && g.None? ==> next.None?)
      && (sh.qty > 0.0 && g.Some? ==>
            next == Some(Bands3(AddSeries(a.p10, g.value.p10, sh.qty, false),
                                AddSeries(a.p50, g.value.p50, sh.qty, false),
                                AddSeries(a.p90, g.value.p90, sh.qty, false))))
  {
    assert hs[..j + 1][..j] == hs[..j];
  }

  /** Once a row's simulation has failed, the whole request fails. */
  lemma {:induction false} ScenarioFailureSticks(hs: seq<ScenarioHolding>, k: nat, horizonDays: int, stepDays: int, n: int)
    requires k <= |hs| && ScenarioAggs(hs[..k], horizonDays, stepDays, n).None?
    ensures ScenarioAggs(hs, horizonDays, stepDays, n).None?
    decreases |hs| - k
  {
    if k < |hs| {
      assert hs[..k + 1][..k] == hs[..k];
      ScenarioFailureSticks(hs, k + 1, horizonDays, stepDays, n);
    } else {
      assert hs[..k] == hs;
    }
  }
}
