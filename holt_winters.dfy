/**
  The additive Holt-Winters forecaster used for the price predictions: a
  level, a trend and a seasonal array updated once per daily close, then
  projected `h` days ahead with a ±1.96σ band clamped at zero.
*/
module HoltWinters {
  import opened Wrappers
  import opened Series

  /** The default smoothing factors `alpha`, `beta`, `gamma`. */
  const ALPHA: real := 0.2
  const BETA: real := 0.1
  const GAMMA: real := 0.1
  /** The half-width of the naive band in standard deviations. */
  const Z95: real := 1.96

  function Sum(xs: seq<real>): real {
    if xs == [] then 0.0 else Sum(xs[..|xs| - 1]) + xs[|xs| - 1]
  }

  /** The smoother's state: `level`, `trend` and one seasonal offset per position in the season. */
  datatype HwState = HwState(level: real, trend: real, season: seq<real>)

  /**
    The initial state: the first close as level, the average slope over the
    first season as trend, and each first-season close's deviation from the
    first-season average as seasonal offset.
  */
  function InitState(y: seq<real>, m: nat): (st: HwState)
    requires 0 < m < |y|
    ensures |st.season| == m
  {
    var avg := Sum(y[..m]) / m as real;
    HwState(y[0], (y[m] - y[0]) / m as real, seq(m, i requires 0 <= i < m => y[i] - avg))
  }

  /** One smoothing step on the close `yt` at time `t`, overwriting the seasonal slot `t % m`. */
  function Update(st: HwState, yt: real, t: nat): (r: HwState)
    requires |st.season| > 0
    ensures |r.season| == |st.season|
  {
    var m := |st.season|;
    var s := st.season[t % m];
    var newLevel := ALPHA * (yt - s) + (1.0 - ALPHA) * (st.level + st.trend);
    var newTrend := BETA * (newLevel - st.level) + (1.0 - BETA) * st.trend;
    var newS := GAMMA * (yt - newLevel) + (1.0 - GAMMA) * s;
    HwState(newLevel, newTrend, st.season[t % m := newS])
  }

  /** The state after smoothing the first `t` closes. */
  function Fit(y: seq<real>, m: nat, t: nat): (st: HwState)
    requires 0 < m < |y| && t <= |y|
    ensures |st.season| == m
  {
    if t == 0 then InitState(y, m) else Update(Fit(y, m, t - 1), y[t - 1], t - 1)
  }

  /** The forecast `k` days past the `n` fitted closes: `level + k * trend + season[(n + k - 1) % m]`. */
  function Projection(st: HwState, n: nat, k: nat): real
    requires |st.season| > 0
  {
    st.level + k as real * st.trend + st.season[(n + k - 1) % |st.season|]
  }

  datatype HwForecast = HwForecast(out: seq<Sample>, low: seq<Sample>, high: seq<Sample>)

  function ForecastPoint(st: HwState, lastTs: int, n: nat, k: nat): Sample
    requires |st.season| > 0
  {
    Sample(lastTs + k * ONE_DAY * 1000, Projection(st, n, k))
  }

  /** A point moved by `delta` and clamped at zero: `max(f ± 1.96σ, 0)`. */
  function BandPoint(p: Sample, delta: real): Sample {
    Sample(p.ts, Max(p.px + delta, 0.0))
  }

  /**
    What `holt_winters_additive` returns for `h` days and season length `m`.
    `sigmaEst` stands for the residual standard deviation, used only with at
    least five closes (otherwise σ = 0). None is the exception a
    non-positive season length raises.
  */
  function HwSpec(daily: seq<Sample>, h: int, m: int, sigmaEst: real): (r: Option<HwForecast>)
    ensures daily == [] || |daily| < m * 2 ==> r == Some(HwForecast([], [], []))
    ensures daily != [] && |daily| >= m * 2 && m <= 0 ==> r.None?
    ensures daily != [] && |daily| >= m * 2 && m > 0 ==>
      && r.Some?
      && |r.value.out| == |r.value.low| == |r.value.high| == MaxInt(h, 0)
      && forall i :: 0 <= i < |r.value.out| ==>
           && r.value.out[i].ts == r.value.low[i].ts == r.value.high[i].ts
           && r.value.out[i].ts == daily[|daily| - 1].ts + (i + 1) * DAY_MS
    ensures r.Some? && sigmaEst >= 0.0 ==>
      forall i :: 0 <= i < |r.value.out| ==>
        0.0 <= r.value.low[i].px <= Max(r.value.out[i].px, 0.0) <= r.value.high[i].px
  {
    if daily == [] || |daily| < m * 2 then Some(HwForecast([], [], []))
    else if m <= 0 then None
    else
      var y := Closes(daily);
      var n := |y|;
      Some(ForecastFrom(Fit(y, m, n), daily[n - 1].ts, n, MaxInt(h, 0), if n >= 5 then sigmaEst else 0.0))
  }

  /** The `hh` projected points from state `st` and their bands of half-width `1.96 * sigma`. */
  function ForecastFrom(st: HwState, lastTs: int, n: nat, hh: nat, sigma: real): (f: HwForecast)
    requires |st.season| > 0
    ensures |f.out| == |f.low| == |f.high| == hh
  {
    var out := seq(hh, i requires 0 <= i < hh => ForecastPoint(st, lastTs, n, i + 1));
    HwForecast(out,
               seq(hh, i requires 0 <= i < hh => BandPoint(out[i], -(Z95 * sigma))),
               seq(hh, i requires 0 <= i < hh => BandPoint(out[i], Z95 * sigma)))
  }

  /**
    `holt_winters_additive`: initialise, smooth every close updating the
    seasonal array in place, then project `h` days.
  */
  method HoltWintersAdditive(daily: seq<Sample>, h: int, seasonLen: int, sigmaEst: real)
    returns (r: Option<HwForecast>)
    ensures r == HwSpec(daily, h, seasonLen, sigmaEst)
  {
    if daily == [] || |daily| < seasonLen * 2 {
      return Some(HwForecast([], [], []));
    }
    if seasonLen <= 0 {
      return None;
    }
    var m := seasonLen;
    var y := Closes(daily);
    var n := |y|;
    var level := y[0];
    var trend := (y[m] - y[0]) / m as real;
    var season := InitSeason(y, m);
    level, trend := SmoothAll(y, m, season, level, trend);
    var sigma := if n >= 5 then sigmaEst else 0.0;
    var f := Project(level, trend, season, daily[n - 1].ts, n, MaxInt(h, 0), sigma);
    r := Some(f);
  }

  /** `S[i] = y[i] - first_season_avg` for every position of the first season, in a fresh array. */
  method InitSeason(y: seq<real>, m: nat) returns (season: array<real>)
    requires 0 < m < |y|
    ensures fresh(season)
    ensures season[..] == InitState(y, m).season
  {
    var avg := Sum(y[..m]) / m as real;
    season := new real[m];
    for i := 0 to m
      invariant forall j :: 0 <= j < i ==> season[j] == y[j] - avg
    {
      season[i] := y[i] - avg;
    }
  }

  /** The smoothing loop: one Update per close, the seasonal slot `t % m` overwritten in place. */
  method SmoothAll(y: seq<real>, m: nat, season: array<real>, level0: real, trend0: real)
    returns (level: real, trend: real)
    requires 0 < m < |y| && season.Length == m
    requires HwState(level0, trend0, season[..]) == Fit(y, m, 0)
    modifies season
    ensures HwState(level, trend, season[..]) == Fit(y, m, |y|)
  {
    level, trend := level0, trend0;
    for t := 0 to |y|
      invariant HwState(level, trend, season[..]) == Fit(y, m, t)
    {
      FitStep(y, m, t);
      ghost var next := Update(Fit(y, m, t), y[t], t);
      var s := season[t % m];
      var newLevel := ALPHA * (y[t] - s) + (1.0 - ALPHA) * (level + trend);
      var newTrend := BETA * (newLevel - level) + (1.0 - BETA) * trend;
      var newS := GAMMA * (y[t] - newLevel) + (1.0 - GAMMA) * s;
      assert newLevel == next.level && newTrend == next.trend;
      level, trend := newLevel, newTrend;
      season[t % m] := newS;
      assert season[..] == next.season;
    }
  }

  /** One more close is one more Update. */
  lemma FitStep(y: seq<real>, m: nat, t: nat)
    requires 0 < m < |y| && t < |y|
    ensures Fit(y, m, t + 1) == Update(Fit(y, m, t), y[t], t)
  {
  }

  /** The projection loop `for k in range(1, h + 1)`, appending a point and its two band values. */
  method Project(level: real, trend: real, season: array<real>, lastTs: int, n: nat, hh: nat, sigma: real)
    returns (f: HwForecast)
    requires season.Length > 0
    ensures f == ForecastFrom(HwState(level, trend, season[..]), lastTs, n, hh, sigma)
  {
    ghost var spec := ForecastFrom(HwState(level, trend, season[..]), lastTs, n, hh, sigma);
    var m := season.Length;
    var out, low, high := [], [], [];
    for k := 1 to hh + 1
      invariant out == spec.out[..k - 1]
      invariant low == spec.low[..k - 1]
      invariant high == spec.high[..k - 1]
    {
      var s := season[(n + (k - 1)) % m];
      var fk := level + k as real * trend + s;
      var ts := lastTs + k * ONE_DAY * 1000;
      ghost var st := HwState(level, trend, season[..]);
      assert Projection(st, n, k) == fk;
      assert spec.out[k - 1] == ForecastPoint(st, lastTs, n, k) == Sample(ts, fk);
      assert spec.low[k - 1] == BandPoint(spec.out[k - 1], -(Z95 * sigma));
      assert spec.high[k - 1] == BandPoint(spec.out[k - 1], Z95 * sigma);
      assert spec.out[..k] == spec.out[..k - 1] + [spec.out[k - 1]];
      assert spec.low[..k] == spec.low[..k - 1] + [spec.low[k - 1]];
      assert spec.high[..k] == spec.high[..k - 1] + [spec.high[k - 1]];
      out := out + [Sample(ts, fk)];
      low := low + [Sample(ts, Max(fk - Z95 * sigma, 0.0))];
      high := high + [Sample(ts, Max(fk + Z95 * sigma, 0.0))];
    }
    assert out == spec.out && low == spec.low && high == spec.high;
    f := HwForecast(out, low, high);
  }

  // ---------------------------------------------------------------------------
  // Properties of the smoother
  // ---------------------------------------------------------------------------

  lemma {:induction false} SumShift(xs: seq<real>, c: real)
    ensures Sum(seq(|xs|, i requires 0 <= i < |xs| => xs[i] - c)) == Sum(xs) - |xs| as real * c
  {
    if xs != [] {
      var init := xs[..|xs| - 1];
      SumShift(init, c);
      var shifted := seq(|xs|, i requires 0 <= i < |xs| => xs[i] - c);
      assert shifted[..|xs| - 1] == seq(|init|, i requires 0 <= i < |init| => init[i] - c);
    }
  }

  /** The initial seasonal offsets are deviations from their own average, so they sum to zero. */
  lemma SeasonStartsBalanced(y: seq<real>, m: nat)
    requires 0 < m < |y|
    ensures Sum(InitState(y, m).season) == 0.0
  {
    var avg := Sum(y[..m]) / m as real;
    SumShift(y[..m], avg);
    assert InitState(y, m).season == seq(m, i requires 0 <= i < m => y[..m][i] - avg);
  }

  lemma {:induction false} SumConstant(xs: seq<real>, c: real)
    requires forall i :: 0 <= i < |xs| ==> xs[i] == c
    ensures Sum(xs) == |xs| as real * c
  {
    if xs != [] {
      SumConstant(xs[..|xs| - 1], c);
    }
  }

  /** On a flat history every step keeps level `c`, trend 0 and all seasonal offsets 0. */
  lemma {:induction false} FlatFit(y: seq<real>, m: nat, t: nat, c: real)
    requires 0 < m < |y| && t <= |y|
    requires forall i :: 0 <= i < |y| ==> y[i] == c
    ensures Fit(y, m, t).level == c && Fit(y, m, t).trend == 0.0
    ensures forall j :: 0 <= j < m ==> Fit(y, m, t).season[j] == 0.0
  {
    if t == 0 {
      FlatInit(y, m, c);
    } else {
      FlatFit(y, m, t - 1, c);
      var st := Fit(y, m, t - 1);
      FlatUpdate(st, y[t - 1], t - 1);
      assert Fit(y, m, t) == Update(st, y[t - 1], t - 1);
    }
  }

  /** A flat first season starts at its level with no trend and no seasonal offset. */
  lemma FlatInit(y: seq<real>, m: nat, c: real)
    requires 0 < m < |y|
    requires forall i :: 0 <= i < |y| ==> y[i] == c
    ensures InitState(y, m).level == c && InitState(y, m).trend == 0.0
    ensures forall j :: 0 <= j < m ==> InitState(y, m).season[j] == 0.0
  {
    SumConstant(y[..m], c);
    assert Sum(y[..m]) / m as real == c;
  }

  /** A close equal to a flat state's level, with no trend and no seasonal offset, leaves it flat. */
  lemma FlatUpdate(st: HwState, yt: real, t: nat)
    requires |st.season| > 0 && st.level == yt && st.trend == 0.0
    requires forall j :: 0 <= j < |st.season| ==> st.season[j] == 0.0
    ensures Update(st, yt, t).level == yt && Update(st, yt, t).trend == 0.0
    ensures forall j :: 0 <= j < |st.season| ==> Update(st, yt, t).season[j] == 0.0
  {
  }

  /** A flat price history forecasts the same flat price on every future day. */
  lemma FlatHistoryFlatForecast(daily: seq<Sample>, h: int, m: int, sigmaEst: real, c: real)
    requires m > 0 && |daily| >= m * 2
    requires forall i :: 0 <= i < |daily| ==> daily[i].px == c
    ensures forall i :: 0 <= i < |HwSpec(daily, h, m, sigmaEst).value.out| ==>
      HwSpec(daily, h, m, sigmaEst).value.out[i].px == c
  {
    var y := Closes(daily);
    var n := |y|;
    FlatFit(y, m, n, c);
    var st := Fit(y, m, n);
    var f := ForecastFrom(st, daily[n - 1].ts, n, MaxInt(h, 0), if n >= 5 then sigmaEst else 0.0);
    assert HwSpec(daily, h, m, sigmaEst) == Some(f);
    FlatProjection(st, daily[n - 1].ts, n, MaxInt(h, 0), if n >= 5 then sigmaEst else 0.0, c);
  }

  /** A flat state projects its level on every future day. */
  lemma FlatProjection(st: HwState, lastTs: int, n: nat, hh: nat, sigma: real, c: real)
    requires |st.season| > 0 && st.level == c && st.trend == 0.0
    requires forall j :: 0 <= j < |st.season| ==> st.season[j] == 0.0
    ensures forall i :: 0 <= i < hh ==> ForecastFrom(st, lastTs, n, hh, sigma).out[i].px == c
  {
    var f := ForecastFrom(st, lastTs, n, hh, sigma);
    forall i | 0 <= i < hh
      ensures f.out[i].px == c
    {
      assert (i + 1) as real * st.trend == 0.0;
      assert f.out[i].px == Projection(st, n, i + 1);
    }
  }

  /** With no spread (σ = 0, or fewer than five closes) both bands coincide with the clamped forecast. */
  lemma NoSpreadCollapsesBands(daily: seq<Sample>, h: int, m: int, sigmaEst: real)
    requires m > 0 && |daily| >= m * 2
    requires sigmaEst == 0.0 || |daily| < 5
    ensures var f := HwSpec(daily, h, m, sigmaEst).value;
      forall i :: 0 <= i < |f.out| ==> f.low[i].px == f.high[i].px == Max(f.out[i].px, 0.0)
  {
  }
}
