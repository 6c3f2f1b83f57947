/**
  The forecast DCA plan (`api_dca_predict`): contributions scheduled every
  `step_days` after the last close up to the horizon, each priced from the
  Holt-Winters forecast looked up by UTC day, with low/high bands valued
  from the forecast's confidence interval.
*/
module Predict {
  import opened Wrappers
  import opened Series
  import opened HoltWinters

  /** Longest forecast horizon in days (PREDICTION_MAX_DAYS). */
  const PREDICTION_MAX_DAYS: int := 180
  /** Season length the plan's forecast uses (weekly). */
  const PLAN_SEASON: int := 7

  /** `{_to_midnight_utc(int(ts / 1000)) * 1000: px for ts, px in pts}`: later points overwrite earlier ones. */
  function DayMap(pts: seq<Sample>): (m: map<int, real>)
    ensures pts != [] ==> DayKeyMs(pts[|pts| - 1].ts) in m && m[DayKeyMs(pts[|pts| - 1].ts)] == pts[|pts| - 1].px
  {
    if pts == [] then map[]
    else DayMap(pts[..|pts| - 1])[DayKeyMs(pts[|pts| - 1].ts) := pts[|pts| - 1].px]
  }

  /** A day's value is the price of its last point: no later point falls on the same day. */
  lemma {:induction false} DayMapLastOfDay(pts: seq<Sample>, i: int)
    requires 0 <= i < |pts|
    requires forall j :: i < j < |pts| ==> DayKeyMs(pts[j].ts) != DayKeyMs(pts[i].ts)
    ensures DayKeyMs(pts[i].ts) in DayMap(pts) && DayMap(pts)[DayKeyMs(pts[i].ts)] == pts[i].px
  {
    if i < |pts| - 1 {
      var init := pts[..|pts| - 1];
      assert init[i] == pts[i];
      forall j | i < j < |init| ensures DayKeyMs(init[j].ts) != DayKeyMs(init[i].ts) {
        assert init[j] == pts[j];
      }
      DayMapLastOfDay(init, i);
    }
  }

  /** The day map has exactly the days of the points as keys. */
  lemma {:induction false} DayMapKeys(pts: seq<Sample>, k: int)
    ensures k in DayMap(pts) <==> exists i :: 0 <= i < |pts| && DayKeyMs(pts[i].ts) == k
  {
    if pts != [] {
      var init := pts[..|pts| - 1];
      DayMapKeys(init, k);
      if k in DayMap(init) {
        var i :| 0 <= i < |init| && DayKeyMs(init[i].ts) == k;
        assert pts[i] == init[i];
      }
      if exists i :: 0 <= i < |pts| && DayKeyMs(pts[i].ts) == k {
        var i :| 0 <= i < |pts| && DayKeyMs(pts[i].ts) == k;
        if i < |init| {
          assert init[i] == pts[i];
        }
      }
    }
  }

  /** `max(1, min(months, 6))`. */
  function ClampMonths(months: int): (c: int)
    ensures 1 <= c <= 6
    ensures 1 <= months <= 6 ==> c == months
  {
    MaxInt(1, MinInt(months, 6))
  }

  /** `min(PREDICTION_MAX_DAYS, months * 30)` for the clamped month count. */
  function PlanHorizon(months: int): (d: int)
    ensures 30 <= d <= PREDICTION_MAX_DAYS
    ensures d == ClampMonths(months) * 30
  {
    MinInt(PREDICTION_MAX_DAYS, ClampMonths(months) * 30)
  }

  /** The state the plan loop carries: holdings, cash put in, and the three value series. */
  datatype Plan = Plan(shares: real, invested: real, series: seq<Sample>, low: seq<Sample>, high: seq<Sample>)

  /**
    The price the central value uses: the day's forecast when it is there
    and non-zero, else the forecast of the earliest day in the map, else 0.
  */
  ghost function CentralPrice(fut: map<int, real>, key: int): (px: real)
    ensures key in fut && fut[key] != 0.0 ==> px == fut[key]
    ensures fut == map[] ==> px == 0.0
    ensures !(key in fut && fut[key] != 0.0) && fut != map[] ==> exists k :: IsLeast(k, fut.Keys) && px == fut[k]
    ensures px != 0.0 ==> exists k :: k in fut && fut[k] == px
  {
    if key in fut && fut[key] != 0.0 then fut[key]
    else if fut != map[] then fut[MinOf(fut.Keys)]
    else 0.0
  }

  /** A band point `max(0, band[key] * shares)` appended when the band has the day. */
  function BandAppend(s: seq<Sample>, band: map<int, real>, key: int, cursor: int, shares: real): (r: seq<Sample>)
    ensures key in band ==> r == s + [Sample(cursor, Max(0.0, Worth(band[key], shares)))] && r[|s|].px >= 0.0
    ensures key !in band ==> r == s
  {
    if key in band then s + [Sample(cursor, Max(0.0, Worth(band[key], shares)))] else s
  }

  /** One pass of the plan loop at `cursor`: buy when the forecast is positive, then record the values. */
  ghost function PlanStep(p: Plan, cursor: int, amtPer: real, fut: map<int, real>, lowMap: map<int, real>,
                          highMap: map<int, real>): Plan
  {
    var key := DayKeyMs(cursor);
    var bought := key in fut && fut[key] > 0.0;
    var shares := if bought then p.shares + amtPer / fut[key] else p.shares;
    var invested := if bought then p.invested + amtPer else p.invested;
    Plan(shares, invested,
         p.series + [Sample(cursor, Worth(CentralPrice(fut, key), shares))],
         BandAppend(p.low, lowMap, key, cursor, shares),
         BandAppend(p.high, highMap, key, cursor, shares))
  }

  /** The plan after `k` passes, the cursor starting at `first` and moving by `stepMs`. */
  ghost function PlanAfter(k: nat, first: int, stepMs: int, amtPer: real, fut: map<int, real>,
                           lowMap: map<int, real>, highMap: map<int, real>): Plan
  {
    if k == 0 then Plan(0.0, 0.0, [], [], [])
    else PlanStep(PlanAfter(k - 1, first, stepMs, amtPer, fut, lowMap, highMap), Advance(first, stepMs, k - 1),
                  amtPer, fut, lowMap, highMap)
  }

  /** After `k` passes there is one central point per pass, at the scheduled cursor. */
  lemma {:induction false} PlanSeries(k: nat, first: int, stepMs: int, amtPer: real, fut: map<int, real>,
                                      lowMap: map<int, real>, highMap: map<int, real>)
    ensures var p := PlanAfter(k, first, stepMs, amtPer, fut, lowMap, highMap);
      |p.series| == k && forall i :: 0 <= i < k ==> p.series[i].ts == Advance(first, stepMs, i)
  {
    if k > 0 {
      PlanSeries(k - 1, first, stepMs, amtPer, fut, lowMap, highMap);
    }
  }

  /** After `k` passes there is at most one band point per pass, and no band value is negative. */
  lemma {:induction false} PlanBands(k: nat, first: int, stepMs: int, amtPer: real, fut: map<int, real>,
                                     lowMap: map<int, real>, highMap: map<int, real>)
    ensures var p := PlanAfter(k, first, stepMs, amtPer, fut, lowMap, highMap);
      && |p.low| <= k && |p.high| <= k
      && (forall i :: 0 <= i < |p.low| ==> p.low[i].px >= 0.0)
      && (forall i :: 0 <= i < |p.high| ==> p.high[i].px >= 0.0)
  {
    if k > 0 {
      PlanBands(k - 1, first, stepMs, amtPer, fut, lowMap, highMap);
    }
  }

  /**
    After `k` passes at most `amt_per` per pass went in, the holding is
    never negative, and there are shares exactly when cash went in.
  */
  lemma {:induction false} PlanCash(k: nat, first: int, stepMs: int, amtPer: real, fut: map<int, real>,
                                    lowMap: map<int, real>, highMap: map<int, real>)
    requires amtPer > 0.0
    ensures var p := PlanAfter(k, first, stepMs, amtPer, fut, lowMap, highMap);
      && 0.0 <= p.invested <= Budget(amtPer, k)
      && p.shares >= 0.0
      && (p.invested > 0.0 <==> p.shares > 0.0)
  {
    if k > 0 {
      PlanCash(k - 1, first, stepMs, amtPer, fut, lowMap, highMap);
      var cursor := Advance(first, stepMs, k - 1);
      var key := DayKeyMs(cursor);
      if key in fut && fut[key] > 0.0 {
        assert amtPer / fut[key] > 0.0;
      }
      BudgetStep(amtPer, k);
    }
  }

  /** The scheduled cursor `today + (i + 1) * step` is inside the horizon exactly for the first `horizon / step` passes. */
  lemma PlanLength(today: int, stepDays: int, horizonDays: int, i: nat)
    requires stepDays > 0
    ensures Advance(today + stepDays * DAY_MS, stepDays * DAY_MS, i) <= today + horizonDays * DAY_MS
        <==> i < horizonDays / stepDays
  {
    AdvanceIs(today + stepDays * DAY_MS, stepDays * DAY_MS, i);
    assert Advance(today + stepDays * DAY_MS, stepDays * DAY_MS, i) == today + ((i + 1) * stepDays) * DAY_MS;
    var q := horizonDays / stepDays;
    if i < q {
      MulLe(i + 1, q, stepDays);
      MulLe((i + 1) * stepDays, horizonDays, DAY_MS);
    } else {
      MulLe(q + 1, i + 1, stepDays);
      MulLe(horizonDays + 1, (i + 1) * stepDays, DAY_MS);
    }
  }

  /** The plan reported to the caller. */
  datatype PlanReport = PlanReport(months: int, invested: real, shares: real, currentValue: real, roiPct: real,
                                   series: seq<Sample>, low: seq<Sample>, high: seq<Sample>)

  /** The horizon snapshot: value at the last forecast price if positive, and ROI only when cash went in. */
  function ReportOf(months: int, p: Plan, finalPx: real): (r: PlanReport)
    ensures r.currentValue == (if finalPx > 0.0 then p.shares * finalPx else 0.0)
    ensures p.invested <= 0.0 ==> r.roiPct == 0.0
    ensures p.invested > 0.0 ==> r.roiPct == (r.currentValue - p.invested) / p.invested * 100.0
    ensures r.series == p.series && r.low == p.low && r.high == p.high
  {
    var currentValue := if finalPx > 0.0 then p.shares * finalPx else 0.0;
    var roi := if p.invested > 0.0 then (currentValue - p.invested) / p.invested * 100.0 else 0.0;
    PlanReport(months, p.invested, p.shares, currentValue, roi, p.series, p.low, p.high)
  }

  /** The plan and its snapshot once a non-empty forecast is in hand. */
  ghost function PlanFor(daily: seq<Sample>, fc: HwForecast, amtPer: real, freq: string, months: int): PlanReport
    requires daily != [] && fc.out != []
  {
    var stepDays := StepDays(freq);
    var plan := PlanAfter(PlanHorizon(months) / stepDays, daily[|daily| - 1].ts + stepDays * DAY_MS, stepDays * DAY_MS,
                          amtPer, DayMap(fc.out), DayMap(fc.low), DayMap(fc.high));
    ReportOf(ClampMonths(months), plan, fc.out[|fc.out| - 1].px)
  }

  /**
    What `api_dca_predict` answers for `amt_per` every `freq` over
    `months`, given the history and the forecast's σ estimate.
  */
  ghost function DcaPredictSpec(amtPer: real, freq: string, months: int, daily: seq<Sample>, sigmaEst: real): Result<PlanReport> {
    if amtPer <= 0.0 then Err("Bad params")
    else if daily == [] then Err("No history")
    else
      match HwSpec(daily, PlanHorizon(months), PLAN_SEASON, sigmaEst)
      case None => Err("Forecast failed")
      case Some(fc) => if fc.out == [] then Err("Forecast failed") else Ok(PlanFor(daily, fc, amtPer, freq, months))
  }

  /** The central price lookup, with the earliest forecast day as fallback. */
  method LookupCentral(fut: map<int, real>, key: int) returns (px: real)
    ensures px == CentralPrice(fut, key)
  {
    if key in fut && fut[key] != 0.0 {
      px := fut[key];
    } else if fut != map[] {
      var k0 := MinKey(fut.Keys);
      px := fut[k0];
    } else {
      px := 0.0;
    }
  }

  /** One pass of the plan loop: buy at the day's positive forecast, then record the central and band values. */
  method PlanPass(p: Plan, cursor: int, amtPer: real, fut: map<int, real>, lowMap: map<int, real>,
                  highMap: map<int, real>) returns (q: Plan)
    ensures q == PlanStep(p, cursor, amtPer, fut, lowMap, highMap)
  {
    var key := DayKeyMs(cursor);
    var shares, invested := p.shares, p.invested;
    if key in fut && fut[key] > 0.0 {
      shares := shares + amtPer / fut[key];
      invested := invested + amtPer;
    }
    var central := LookupCentral(fut, key);
    q := Plan(shares, invested, p.series + [Sample(cursor, Worth(central, shares))],
              BandAppend(p.low, lowMap, key, cursor, shares), BandAppend(p.high, highMap, key, cursor, shares));
  }

  /** The plan loop: walk the cursor while it is inside the horizon. */
  method RunPlan(today: int, stepDays: int, horizonDays: int, amtPer: real, fut: map<int, real>,
                 lowMap: map<int, real>, highMap: map<int, real>) returns (p: Plan)
    requires stepDays > 0 && horizonDays >= 0
    ensures p == PlanAfter(horizonDays / stepDays, today + stepDays * DAY_MS, stepDays * DAY_MS, amtPer, fut, lowMap, highMap)
  {
    var stepMs := stepDays * DAY_MS;
    var first := today + stepMs;
    var endMs := today + horizonDays * DAY_MS;
    ghost var n := horizonDays / stepDays;
    p := Plan(0.0, 0.0, [], [], []);
    var cursor := first;
    ghost var i: nat := 0;
    while cursor <= endMs
      invariant i <= n
      invariant cursor == Advance(first, stepMs, i)
      invariant p == PlanAfter(i, first, stepMs, amtPer, fut, lowMap, highMap)
      decreases n - i
    {
      PlanLength(today, stepDays, horizonDays, i);
      p := PlanPass(p, cursor, amtPer, fut, lowMap, highMap);
      assert i + 1 - 1 == i;
      cursor := cursor + stepMs;
      i := i + 1;
    }
    PlanLength(today, stepDays, horizonDays, i);
  }

  /** `api_dca_predict`. */
  method DcaPredict(amtPer: real, freq: string, months: int, daily: seq<Sample>, sigmaEst: real)
    returns (r: Result<PlanReport>)
    ensures r == DcaPredictSpec(amtPer, freq, months, daily, sigmaEst)
  {
    if amtPer <= 0.0 {
      return Err("Bad params");
    }
    if daily == [] {
      return Err("No history");
    }
    var fc := HoltWintersAdditive(daily, PlanHorizon(months), PLAN_SEASON, sigmaEst);
    if fc.None? || fc.value.out == [] {
      return Err("Forecast failed");
    }
    var rep := PlanReportFor(daily, fc.value, amtPer, freq, months);
    r := Ok(rep);
  }

  /** The part of `api_dca_predict` after the forecast: run the plan and summarise it. */
  method PlanReportFor(daily: seq<Sample>, f: HwForecast, amtPer: real, freq: string, months: int)
    returns (rep: PlanReport)
    requires daily != [] && f.out != []
    ensures rep == PlanFor(daily, f, amtPer, freq, months)
  {
    var today := daily[|daily| - 1].ts;
    var plan := RunPlan(today, StepDays(freq), PlanHorizon(months), amtPer, DayMap(f.out), DayMap(f.low), DayMap(f.high));
    rep := ReportOf(ClampMonths(months), plan, f.out[|f.out| - 1].px);
  }

  /**
    The plan scheduled from `today` every `stepMs`: after `n` passes its
    central points sit at `today + (i + 1) * stepMs`, its band points are at
    most one per pass and never negative, at most `amt_per` per pass went
    in, and nothing invested means no shares.
  */
  lemma PlanShape(n: nat, today: int, stepMs: int, amtPer: real, fut: map<int, real>,
                  lowMap: map<int, real>, highMap: map<int, real>)
    requires amtPer > 0.0
    ensures var p := PlanAfter(n, today + stepMs, stepMs, amtPer, fut, lowMap, highMap);
      && |p.series| == n
      && (forall i :: 0 <= i < n ==> p.series[i].ts == today + (i + 1) * stepMs)
      && |p.low| <= n && |p.high| <= n
      && (forall i :: 0 <= i < |p.low| ==> p.low[i].px >= 0.0)
      && (forall i :: 0 <= i < |p.high| ==> p.high[i].px >= 0.0)
      && 0.0 <= p.invested <= Budget(amtPer, |p.series|)
      && (p.invested == 0.0 ==> p.shares == 0.0)
  {
    var first := today + stepMs;
    PlanSeries(n, first, stepMs, amtPer, fut, lowMap, highMap);
    PlanBands(n, first, stepMs, amtPer, fut, lowMap, highMap);
    PlanCash(n, first, stepMs, amtPer, fut, lowMap, highMap);
    var p := PlanAfter(n, first, stepMs, amtPer, fut, lowMap, highMap);
    forall i | 0 <= i < n
      ensures p.series[i].ts == today + (i + 1) * stepMs
    {
      AdvanceIs(first, stepMs, i);
    }
  }

  /** The report of a plan scheduled from `today` every `stepMs`, as `PlanShape` describes it. */
  lemma ReportShape(n: nat, today: int, stepMs: int, amtPer: real, fut: map<int, real>,
                    lowMap: map<int, real>, highMap: map<int, real>, months: int, finalPx: real)
    requires amtPer > 0.0
    ensures var r := ReportOf(months, PlanAfter(n, today + stepMs, stepMs, amtPer, fut, lowMap, highMap), finalPx);
      && |r.series| == n
      && (forall i :: 0 <= i < n ==> r.series[i].ts == today + (i + 1) * stepMs)
      && |r.low| <= n && |r.high| <= n
      && (forall i :: 0 <= i < |r.low| ==> r.low[i].px >= 0.0)
      && (forall i :: 0 <= i < |r.high| ==> r.high[i].px >= 0.0)
      && 0.0 <= r.invested <= Budget(amtPer, |r.series|)
      && (r.invested == 0.0 ==> r.roiPct == 0.0 && r.shares == 0.0)
  {
    PlanShape(n, today, stepMs, amtPer, fut, lowMap, highMap);
  }

  /**
    Once a forecast is in hand the plan has one central point per step that
    fits in the horizon (at least one), scheduled `step_days` apart from the
    day after the last close; at most `amt_per` goes in per point, band
    values are never negative, and nothing invested means a zero ROI.
  */
  lemma PlanForFacts(daily: seq<Sample>, fc: HwForecast, amtPer: real, freq: string, months: int)
    requires daily != [] && fc.out != [] && amtPer > 0.0
    ensures var r := PlanFor(daily, fc, amtPer, freq, months);
      var stepMs := StepDays(freq) * DAY_MS;
      && |r.series| == PlanHorizon(months) / StepDays(freq) >= 1
      && (forall i :: 0 <= i < |r.series| ==> r.series[i].ts == daily[|daily| - 1].ts + (i + 1) * stepMs)
      && |r.low| <= |r.series| && |r.high| <= |r.series|
      && (forall i :: 0 <= i < |r.low| ==> r.low[i].px >= 0.0)
      && (forall i :: 0 <= i < |r.high| ==> r.high[i].px >= 0.0)
      && 0.0 <= r.invested <= Budget(amtPer, |r.series|)
      && (r.invested == 0.0 ==> r.roiPct == 0.0 && r.shares == 0.0)
  {
    var stepDays := StepDays(freq);
    var n := PlanHorizon(months) / stepDays;
    var stepMs := stepDays * DAY_MS;
    var today := daily[|daily| - 1].ts;
    var plan := PlanAfter(n, today + stepMs, stepMs, amtPer, DayMap(fc.out), DayMap(fc.low), DayMap(fc.high));
    assert PlanFor(daily, fc, amtPer, freq, months) == ReportOf(ClampMonths(months), plan, fc.out[|fc.out| - 1].px);
    ReportShape(n, today, stepMs, amtPer, DayMap(fc.out), DayMap(fc.low), DayMap(fc.high),
                ClampMonths(months), fc.out[|fc.out| - 1].px);
  }

  /** The error answers: bad amount, no history, and too little history for a weekly-season forecast. */
  lemma DcaPredictErrors(amtPer: real, freq: string, months: int, daily: seq<Sample>, sigmaEst: real)
    ensures amtPer <= 0.0 ==> DcaPredictSpec(amtPer, freq, months, daily, sigmaEst) == Err("Bad params")
    ensures amtPer > 0.0 && daily == [] ==> DcaPredictSpec(amtPer, freq, months, daily, sigmaEst) == Err("No history")
    ensures amtPer > 0.0 && 0 < |daily| < 2 * PLAN_SEASON ==>
      DcaPredictSpec(amtPer, freq, months, daily, sigmaEst) == Err("Forecast failed")
    ensures amtPer > 0.0 && |daily| >= 2 * PLAN_SEASON ==> DcaPredictSpec(amtPer, freq, months, daily, sigmaEst).Ok?
  {
  }
}
