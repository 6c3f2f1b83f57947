/**
  Price series as the backend passes them around: lists of [ts_ms, price]
  samples. Lookups by timestamp, flooring to the UTC day, resampling to one
  close per day, clipping to a window, and the whole-day count used when a
  range is fetched by "days".
*/
module Series {
  import opened Wrappers

  /** Seconds in a day (ONE_DAY in backend/app.py). */
  const ONE_DAY: int := 86400
  /** Milliseconds in a day: the code's `ONE_DAY * 1000`. */
  const DAY_MS: int := ONE_DAY * 1000

  /** One [ts_ms, px] pair of a series. */
  datatype Sample = Sample(ts: int, px: real)

  predicate StrictlyAscending(s: seq<Sample>) {
    forall i, j :: 0 <= i < j < |s| ==> s[i].ts < s[j].ts
  }

  predicate Increasing(s: seq<int>) {
    forall i, j :: 0 <= i < j < |s| ==> s[i] < s[j]
  }

  function Abs(x: int): nat {
    if x < 0 then -x else x
  }

  function Max(a: real, b: real): real {
    if a >= b then a else b
  }

  function Min(a: real, b: real): real {
    if a <= b then a else b
  }

  function MaxInt(a: int, b: int): int {
    if a >= b then a else b
  }

  function MinInt(a: int, b: int): int {
    if a <= b then a else b
  }

  /** Python's `int(a / b)` on integers: the quotient truncated toward zero. */
  function TruncDiv(a: int, b: int): int
    requires b != 0
  {
    var q := Abs(a) / Abs(b);
    if (a >= 0) == (b > 0) then q else -q
  }

  /**
    `int(a / b)` rounds toward zero: it is floor division for a non-negative
    quotient, its magnitude is `|a| // |b|`, and negating the dividend
    negates it (unlike `//`, which gives -4 for -7 // 2 where this gives -3).
  */
  lemma TruncDivFacts(a: int, b: int)
    requires b != 0
    ensures a >= 0 && b > 0 ==> TruncDiv(a, b) == a / b
    ensures Abs(TruncDiv(a, b)) == Abs(a) / Abs(b)
    ensures TruncDiv(-a, b) == -TruncDiv(a, b)
    ensures TruncDiv(-7, 2) == -3 && -7 / 2 == -4
  {
    var q := Abs(a) / Abs(b);
    assert q >= 0 by {
      assert Abs(a) >= 0 && Abs(b) > 0;
    }
    assert Abs(-a) == Abs(a);
    if a == 0 {
      assert q == 0;
    } else if (a >= 0) == (b > 0) {
      assert TruncDiv(a, b) == q && TruncDiv(-a, b) == -q;
    } else {
      assert TruncDiv(a, b) == -q && TruncDiv(-a, b) == q;
    }
  }

  /** The prices of a series, `[float(p[1]) for p in series]`. */
  function Closes(s: seq<Sample>): (y: seq<real>)
    ensures |y| == |s|
    ensures forall i :: 0 <= i < |s| ==> y[i] == s[i].px
  {
    seq(|s|, i requires 0 <= i < |s| => s[i].px)
  }

  /** The last `n` elements, Python's `s[-n:]` for n > 0. */
  function TakeLast<T>(s: seq<T>, n: nat): (r: seq<T>)
    ensures |r| == MinInt(|s|, n)
    ensures r == s[|s| - |r|..]
  {
    if |s| <= n then s else s[|s| - n..]
  }

  // ---------------------------------------------------------------------------
  // Days
  // ---------------------------------------------------------------------------

  /**
    `_to_midnight_utc`: the start of the UTC day holding Unix second `ts`.
    Unix time has no leap seconds, so every day is ONE_DAY seconds long and
    the day starts at the multiple of ONE_DAY at or below `ts`.
  */
  function ToMidnightUtc(ts: int): (d: int)
    ensures d % ONE_DAY == 0
    ensures d <= ts < d + ONE_DAY
  {
    ts - ts % ONE_DAY
  }

  /** The two postconditions of ToMidnightUtc single out its result. */
  lemma MidnightIsUnique(ts: int, d: int)
    requires d % ONE_DAY == 0 && d <= ts < d + ONE_DAY
    ensures d == ToMidnightUtc(ts)
  {
    var m := ToMidnightUtc(ts);
    var q1, q2 := d / ONE_DAY, m / ONE_DAY;
    assert d - m == (q1 - q2) * ONE_DAY;
    assert -ONE_DAY < d - m < ONE_DAY;
  }

  /** Flooring is idempotent: a midnight is its own midnight. */
  lemma MidnightIdempotent(ts: int)
    ensures ToMidnightUtc(ToMidnightUtc(ts)) == ToMidnightUtc(ts)
  {
    var d := ToMidnightUtc(ts);
    MidnightIsUnique(d, d);
  }

  /** The UTC day (in Unix seconds) of a millisecond timestamp: `_to_midnight_utc(int(ts_ms / 1000))`. */
  function DayStart(tsMs: int): int {
    ToMidnightUtc(TruncDiv(tsMs, 1000))
  }

  /** A timestamp after the epoch lies in the day, in milliseconds, that `DayStart` names. */
  lemma DayStartContains(tsMs: int)
    requires tsMs >= 0
    ensures DayStart(tsMs) % ONE_DAY == 0
    ensures DayStart(tsMs) * 1000 <= tsMs < (DayStart(tsMs) + ONE_DAY) * 1000
  {
    TruncDivFacts(tsMs, 1000);
  }

  /** The millisecond key the code builds from a timestamp: `_to_midnight_utc(int(ts / 1000)) * 1000`. */
  function DayKeyMs(tsMs: int): int {
    DayStart(tsMs) * 1000
  }

  lemma DayMultiple(d: int)
    requires d % ONE_DAY == 0
    ensures (d * 1000) % DAY_MS == 0
  {
    var q := d / ONE_DAY;
    assert d * 1000 == q * DAY_MS;
  }

  /** `step_days = 7 if freq == "weekly" else 30`. */
  function StepDays(freq: string): (d: int)
    ensures d == 7 || d == 30
    ensures d == 7 <==> freq == "weekly"
  {
    if freq == "weekly" then 7 else 30
  }

  // ---------------------------------------------------------------------------
  // Lookups: _nearest_price and _first_at_or_after
  // ---------------------------------------------------------------------------

  function Dist(a: int, b: int): nat {
    Abs(a - b)
  }

  /**
    Sample `k` is the one the scan of `_nearest_price` settles on: no sample
    is closer to `target`, and every earlier sample is strictly farther (the
    scan replaces its candidate only on a strictly smaller distance).
  */
  predicate IsNearest(prices: seq<Sample>, target: int, k: int) {
    && 0 <= k < |prices|
    && (forall j :: 0 <= j < |prices| ==> Dist(prices[k].ts, target) <= Dist(prices[j].ts, target))
    && (forall j :: 0 <= j < k ==> Dist(prices[k].ts, target) < Dist(prices[j].ts, target))
  }

  /**
    The scan of `_nearest_price`: `best` is the candidate after looking at
    `prices[..i]`; a later sample takes over only when strictly closer.
  */
  function NearestScan(prices: seq<Sample>, target: int, i: nat, best: nat): (k: nat)
    requires best <= i <= |prices| && best < |prices|
    requires forall j :: 0 <= j < i ==> Dist(prices[best].ts, target) <= Dist(prices[j].ts, target)
    requires forall j :: 0 <= j < best ==> Dist(prices[best].ts, target) < Dist(prices[j].ts, target)
    ensures IsNearest(prices, target, k)
    decreases |prices| - i
  {
    if i == |prices| then best
    else if Dist(prices[i].ts, target) < Dist(prices[best].ts, target) then NearestScan(prices, target, i + 1, i)
    else NearestScan(prices, target, i + 1, best)
  }

  /** At most one sample satisfies IsNearest. */
  lemma NearestIsUnique(prices: seq<Sample>, target: int, k1: int, k2: int)
    requires IsNearest(prices, target, k1) && IsNearest(prices, target, k2)
    ensures k1 == k2
  {
    assert Dist(prices[k1].ts, target) <= Dist(prices[k2].ts, target);
    assert Dist(prices[k2].ts, target) <= Dist(prices[k1].ts, target);
  }

  /**
    `_nearest_price`: None on an empty list, otherwise the price of the
    earliest sample whose timestamp is closest to `target`.
  */
  function NearestPrice(prices: seq<Sample>, target: int): (r: Option<real>)
    ensures r.None? <==> prices == []
    ensures forall k :: IsNearest(prices, target, k) ==> r == Some(prices[k].px)
    ensures r.Some? ==> exists k :: IsNearest(prices, target, k) && r.value == prices[k].px
  {
    if prices == [] then None
    else
      var k := NearestScan(prices, target, 0, 0);
      assert forall k' :: IsNearest(prices, target, k') ==> k' == k by {
        forall k' | IsNearest(prices, target, k') {
          NearestIsUnique(prices, target, k, k');
        }
      }
      Some(prices[k].px)
  }

  /** Sample `k` is the first one at or after `target`. */
  predicate IsFirstAtOrAfter(prices: seq<Sample>, target: int, k: int) {
    && 0 <= k < |prices|
    && prices[k].ts >= target
    && forall j :: 0 <= j < k ==> prices[j].ts < target
  }

  /** The loop of `_first_at_or_after`, from index `i` on. */
  function FirstIndexFrom(prices: seq<Sample>, target: int, i: nat): (r: Option<nat>)
    requires i <= |prices|
    requires forall j :: 0 <= j < i ==> prices[j].ts < target
    ensures r.Some? ==> IsFirstAtOrAfter(prices, target, r.value)
    ensures r.None? ==> forall j :: 0 <= j < |prices| ==> prices[j].ts < target
    decreases |prices| - i
  {
    if i == |prices| then None
    else if prices[i].ts >= target then Some(i)
    else FirstIndexFrom(prices, target, i + 1)
  }

  /**
    `_first_at_or_after`: None on an empty list; the price of the first
    sample with `ts >= target`; and when every sample is earlier, the nearest
    price as a last resort.
  */
  function FirstAtOrAfter(prices: seq<Sample>, target: int): (r: Option<real>)
    ensures r.None? <==> prices == []
    ensures forall k :: IsFirstAtOrAfter(prices, target, k) ==> r == Some(prices[k].px)
    ensures (forall j :: 0 <= j < |prices| ==> prices[j].ts < target) ==> r == NearestPrice(prices, target)
    ensures r.Some? ==> exists k :: 0 <= k < |prices| && r.value == prices[k].px
  {
    if prices == [] then None
    else
      match FirstIndexFrom(prices, target, 0)
      case Some(k) => Some(prices[k].px)
      case None => NearestPrice(prices, target)
  }

  // ---------------------------------------------------------------------------
  // Windows
  // ---------------------------------------------------------------------------

  /** `[p for p in prices if from_ms <= p[0] <= to_ms]`. */
  function ClipWindow(prices: seq<Sample>, fromMs: int, toMs: int): (r: seq<Sample>)
    ensures |r| <= |prices|
    ensures forall x :: x in r <==> x in prices && fromMs <= x.ts <= toMs
  {
    if prices == [] then []
    else
      (if fromMs <= prices[0].ts <= toMs then [prices[0]] else [])
      + ClipWindow(prices[1..], fromMs, toMs)
  }

  /** Clipping keeps the order of the samples it keeps. */
  lemma {:induction false} ClipKeepsOrder(prices: seq<Sample>, fromMs: int, toMs: int)
    requires StrictlyAscending(prices)
    ensures StrictlyAscending(ClipWindow(prices, fromMs, toMs))
  {
    if prices != [] {
      ClipKeepsOrder(prices[1..], fromMs, toMs);
      var rest := ClipWindow(prices[1..], fromMs, toMs);
      forall x | x in rest ensures prices[0].ts < x.ts {
        var j :| 0 <= j < |prices[1..]| && prices[1..][j] == x;
        assert prices[j + 1] == x;
      }
    }
  }

  /** Clipping twice to the same window changes nothing. */
  lemma {:induction false} ClipIdempotent(prices: seq<Sample>, fromMs: int, toMs: int)
    ensures ClipWindow(ClipWindow(prices, fromMs, toMs), fromMs, toMs) == ClipWindow(prices, fromMs, toMs)
  {
    if prices != [] {
      ClipIdempotent(prices[1..], fromMs, toMs);
      var rest := ClipWindow(prices[1..], fromMs, toMs);
      if fromMs <= prices[0].ts <= toMs {
        var kept := [prices[0]] + rest;
        assert ClipWindow(prices, fromMs, toMs) == kept;
        assert kept[0] == prices[0] && kept[1..] == rest;
        assert ClipWindow(kept, fromMs, toMs) == [prices[0]] + ClipWindow(rest, fromMs, toMs);
      } else {
        assert ClipWindow(prices, fromMs, toMs) == rest;
      }
    }
  }

  /** The whole-day count `max(1, (to_ts - from_ts + 86399) // 86400)`. */
  function CeilDays(fromTs: int, toTs: int): (d: int)
    ensures d >= 1
    ensures toTs <= fromTs ==> d == 1
    ensures toTs > fromTs ==> (d - 1) * ONE_DAY < toTs - fromTs <= d * ONE_DAY
  {
    var q := (toTs - fromTs + 86399) / 86400;
    assert q * ONE_DAY <= toTs - fromTs + 86399 < q * ONE_DAY + ONE_DAY;
    MaxInt(1, q)
  }

  // ---------------------------------------------------------------------------
  // Sorting map keys: `sorted(d.keys())`
  // ---------------------------------------------------------------------------

  /** Insertion of a new key into an increasing list of keys. */
  function InsertSorted(ks: seq<int>, x: int): (r: seq<int>)
    requires Increasing(ks) && x !in ks
    ensures Increasing(r)
    ensures |r| == |ks| + 1
    ensures forall y :: y in r <==> y in ks || y == x
  {
    if ks == [] then [x]
    else if x < ks[0] then [x] + ks
    else
      var rest := InsertSorted(ks[1..], x);
      KeyBehindHead(ks, x, rest);
      [ks[0]] + rest
  }

  /** A key inserted behind a smaller head keeps the head in front and the keys right. */
  lemma KeyBehindHead(ks: seq<int>, x: int, rest: seq<int>)
    requires Increasing(ks) && ks != [] && ks[0] < x
    requires Increasing(rest) && forall y :: y in rest <==> y in ks[1..] || y == x
    ensures Increasing([ks[0]] + rest)
    ensures forall y :: y in [ks[0]] + rest <==> y in ks || y == x
  {
    forall y | y in rest ensures ks[0] < y {
      if y != x {
        var j :| 0 <= j < |ks[1..]| && ks[1..][j] == y;
        assert ks[j + 1] == y;
      }
    }
    assert ks == [ks[0]] + ks[1..];
    var r := [ks[0]] + rest;
    forall i, j | 0 <= i < j < |r| ensures r[i] < r[j] {
      assert r[j] == rest[j - 1] && r[j] in rest;
      if i > 0 {
        assert r[i] == rest[i - 1];
      }
    }
  }

  /** A non-empty set has an element to pick. */
  lemma ElementOf(s: set<int>)
    requires s != {}
    ensures exists x :: x in s
  {
    if !exists x :: x in s {
      assert false;
    }
  }

  /** The keys of a dictionary in ascending order, each once. */
  method SortedKeys(keys: set<int>) returns (ks: seq<int>)
    ensures Increasing(ks)
    ensures |ks| == |keys|
    ensures forall y :: y in ks <==> y in keys
  {
    ks := [];
    var rest := keys;
    while rest != {}
      invariant rest <= keys
      invariant Increasing(ks)
      invariant |ks| + |rest| == |keys|
      invariant forall y :: y in ks <==> y in keys && y !in rest
      decreases |rest|
    {
      ElementOf(rest);
      var x :| x in rest;
      ks := InsertSorted(ks, x);
      rest := rest - {x};
    }
  }

  /** An increasing list holds its elements each at one index. */
  lemma IncreasingIndex(ks: seq<int>, i: int, j: int)
    requires Increasing(ks) && 0 <= i < |ks| && 0 <= j < |ks| && ks[i] == ks[j]
    ensures i == j
  {
  }

  /**
    The smallest element of a non-empty set of keys, as Python's
    `min(d.keys())`.
  */
  ghost function MinOf(s: set<int>): (m: int)
    requires s != {}
    ensures m in s && forall x :: x in s ==> m <= x
  {
    MinExists(s);
    var m :| IsLeast(m, s);
    m
  }

  /** `m` is an element of `s` no larger than any other. */
  predicate IsLeast(m: int, s: set<int>) {
    m in s && forall x :: x in s ==> m <= x
  }

  lemma {:induction false} MinExists(s: set<int>)
    requires s != {}
    ensures exists m :: IsLeast(m, s)
    decreases |s|
  {
    ElementOf(s);
    var y :| y in s;
    if s != {y} {
      var rest := s - {y};
      MinExists(rest);
      var m :| IsLeast(m, rest);
      var w := if y < m then y else m;
      forall x | x in s ensures w <= x {
        if x != y {
          assert x in rest;
        }
      }
      assert IsLeast(w, s);
    } else {
      assert IsLeast(y, s);
    }
  }

  /** `min(keys)` computed by a scan. */
  method MinKey(s: set<int>) returns (m: int)
    requires s != {}
    ensures m == MinOf(s)
  {
    var rest := s;
    ElementOf(rest);
    m :| m in rest;
    rest := rest - {m};
    while rest != {}
      invariant rest <= s && m in s
      invariant forall x :: x in s && x !in rest ==> m <= x
      decreases |rest|
    {
      ElementOf(rest);
      var x :| x in rest;
      if x < m {
        m := x;
      }
      rest := rest - {x};
    }
  }

  // ---------------------------------------------------------------------------
  // _resample_to_daily
  // ---------------------------------------------------------------------------

  /**
    The `by_day` dictionary once the loop of `_resample_to_daily` has seen
    `prices`: UTC day (in seconds) to the price of the last sample of that day.
  */
  function LastOfDay(prices: seq<Sample>): (m: map<int, real>)
  {
    if prices == [] then map[]
    else
      var n := |prices| - 1;
      LastOfDay(prices[..n])[DayStart(prices[n].ts) := prices[n].px]
  }

  /**
    The days of `LastOfDay` are exactly the days that hold a sample, and the
    price kept for a day is that of the last sample falling on it.
  */
  lemma {:induction false} LastOfDayDays(prices: seq<Sample>, d: int)
    ensures d in LastOfDay(prices) <==> exists k :: 0 <= k < |prices| && DayStart(prices[k].ts) == d
    ensures d in LastOfDay(prices) ==>
      exists k :: LastSampleOfDay(prices, d, k) && LastOfDay(prices)[d] == prices[k].px
  {
    if prices != [] {
      var n := |prices| - 1;
      var init := prices[..n];
      LastOfDayDays(init, d);
      assert forall k :: 0 <= k < n ==> init[k] == prices[k];
      if DayStart(prices[n].ts) == d {
        assert LastSampleOfDay(prices, d, n) && LastOfDay(prices)[d] == prices[n].px;
      } else if d in LastOfDay(prices) {
        var k :| LastSampleOfDay(init, d, k) && LastOfDay(init)[d] == init[k].px;
        assert LastSampleOfDay(prices, d, k) && LastOfDay(prices)[d] == prices[k].px;
      }
    }
  }

  /** Sample `k` falls on day `d` and no later sample does. */
  predicate LastSampleOfDay(prices: seq<Sample>, d: int, k: int) {
    && 0 <= k < |prices| && DayStart(prices[k].ts) == d
    && forall j :: k < j < |prices| ==> DayStart(prices[j].ts) != d
  }

  /** There are no more days than samples. */
  lemma {:induction false} LastOfDaySize(prices: seq<Sample>)
    ensures |LastOfDay(prices)| <= |prices|
  {
    if prices != [] {
      var n := |prices| - 1;
      LastOfDaySize(prices[..n]);
      var m := LastOfDay(prices[..n]);
      var key := DayStart(prices[n].ts);
      assert m[key := prices[n].px].Keys == m.Keys + {key};
    }
  }

  /** Every day kept is a UTC midnight. */
  lemma LastOfDayMidnights(prices: seq<Sample>, d: int)
    requires d in LastOfDay(prices)
    ensures d % ONE_DAY == 0
  {
    LastOfDayDays(prices, d);
  }

  /**
    `[[d * 1000, by_day[d]] for d in days]` over the ascending days of the
    dictionary.
  */
  method EmitDays(days: seq<int>, byDay: map<int, real>) returns (out: seq<Sample>)
    requires Increasing(days)
    requires forall i :: 0 <= i < |days| ==> days[i] in byDay && days[i] % ONE_DAY == 0
    ensures |out| == |days|
    ensures StrictlyAscending(out)
    ensures forall i :: 0 <= i < |out| ==> out[i] == Sample(days[i] * 1000, byDay[days[i]])
    ensures forall i :: 0 <= i < |out| ==> out[i].ts % DAY_MS == 0
  {
    out := [];
    for i := 0 to |days|
      invariant |out| == i
      invariant forall j :: 0 <= j < i ==> out[j] == Sample(days[j] * 1000, byDay[days[j]])
      invariant forall j :: 0 <= j < i ==> out[j].ts % DAY_MS == 0
    {
      DayMultiple(days[i]);
      out := out + [Sample(days[i] * 1000, byDay[days[i]])];
    }
  }

  /** The grouping loop of `_resample_to_daily`: each close overwrites its day's entry. */
  method GroupByDay(prices: seq<Sample>) returns (byDay: map<int, real>)
    ensures byDay == LastOfDay(prices)
  {
    byDay := map[];
    for i := 0 to |prices|
      invariant byDay == LastOfDay(prices[..i])
    {
      assert prices[..i + 1][..i] == prices[..i];
      byDay := byDay[DayStart(prices[i].ts) := prices[i].px];
    }
    assert prices[..|prices|] == prices;
  }

  /**
    `_resample_to_daily`: one [midnight_ms, close] pair per UTC day that holds
    a sample, in ascending day order, the close being the day's last price.
  */
  method ResampleToDaily(prices: seq<Sample>) returns (out: seq<Sample>)
    ensures |out| <= |prices|
    ensures StrictlyAscending(out)
    ensures forall i :: 0 <= i < |out| ==> out[i].ts % DAY_MS == 0
    ensures forall i :: 0 <= i < |out| ==>
      out[i].ts / 1000 in LastOfDay(prices) && out[i].px == LastOfDay(prices)[out[i].ts / 1000]
    ensures forall d :: d in LastOfDay(prices) ==> exists i :: 0 <= i < |out| && out[i].ts == d * 1000
  {
    if prices == [] {
      return [];
    }
    var byDay := GroupByDay(prices);
    var days := SortedKeys(byDay.Keys);
    LastOfDaySize(prices);
    forall i | 0 <= i < |days|
      ensures days[i] % ONE_DAY == 0
    {
      LastOfDayMidnights(prices, days[i]);
    }
    out := EmitDays(days, byDay);
    forall i | 0 <= i < |out|
      ensures out[i].ts / 1000 == days[i]
    {
      assert out[i].ts == days[i] * 1000;
    }
    forall d | d in LastOfDay(prices)
      ensures exists i :: 0 <= i < |out| && out[i].ts == d * 1000
    {
      var i :| 0 <= i < |days| && days[i] == d;
      assert out[i].ts == d * 1000;
    }
  }

  // ---------------------------------------------------------------------------
  // Stepping a timestamp
  // ---------------------------------------------------------------------------

  /** The value of a holding at a price. */
  function Worth(px: real, shares: real): real {
    px * shares
  }

  /** The cash `n` contributions of `amt` cost. */
  function Budget(amt: real, n: nat): real {
    amt * n as real
  }

  /** One more contribution costs `amt` more. */
  lemma BudgetStep(amt: real, n: nat)
    requires n > 0
    ensures Budget(amt, n - 1) + amt == Budget(amt, n)
  {
  }

  /** `start` advanced `k` times by `step`, as the loops `ts += step` do. */
  function Advance(start: int, step: int, k: nat): int {
    if k == 0 then start else Advance(start, step, k - 1) + step
  }

  /** After `k` steps the timestamp is `start + k * step`. */
  lemma {:induction false} AdvanceIs(start: int, step: int, k: nat)
    ensures Advance(start, step, k) == start + k * step
  {
    if k > 0 {
      AdvanceIs(start, step, k - 1);
      NextStep(start, k - 1, step);
    }
  }

  lemma NextStep(start: int, i: int, step: int)
    ensures start + i * step + step == start + (i + 1) * step
  {
  }

  lemma MulLe(a: int, b: int, c: int)
    requires a <= b && c >= 0
    ensures a * c <= b * c
  {
  }
}
