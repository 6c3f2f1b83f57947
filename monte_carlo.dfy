/**
  Monte-Carlo scenarios: simulated price, value and DCA paths collected
  per step, sorted, and reduced to nearest-rank 10th/50th/90th percentile
  bands. The random multiplicative step `exp(drift + shock)` is an injected
  function `factor(path, step)`.
*/
module MonteCarlo {
  import opened Wrappers
  import opened Series

  /** Default simulation step in days (SCENARIO_STEPSIZE). */
  const SCENARIO_STEPSIZE: int := 7
  /** Longest scenario horizon in years (SCENARIO_MAX_YEARS). */
  const SCENARIO_MAX_YEARS: real := 20.0
  /** Fewest daily closes needed to calibrate. */
  const MIN_HISTORY: int := 30
  /** Fewest usable log-returns needed to calibrate. */
  const MIN_RETURNS: int := 10
  /** Calibration window: the last year of closes. */
  const CALIBRATION_DAYS: nat := 365

  // ---------------------------------------------------------------------------
  // Sorting and nearest-rank selection
  // ---------------------------------------------------------------------------

  predicate Sorted(xs: seq<real>) {
    forall i, j :: 0 <= i < j < |xs| ==> xs[i] <= xs[j]
  }

  function Insert(x: real, xs: seq<real>): (r: seq<real>)
    requires Sorted(xs)
    ensures |r| == |xs| + 1
    ensures multiset(r) == multiset(xs) + multiset{x}
    ensures Sorted(r)
  {
    if xs == [] then [x]
    else if x <= xs[0] then [x] + xs
    else
      var rest := Insert(x, xs[1..]);
      InsertBehindHead(x, xs, rest);
      [xs[0]] + rest
  }

  /** Inserting behind a head smaller than `x` keeps the head in front and the multiset right. */
  lemma InsertBehindHead(x: real, xs: seq<real>, rest: seq<real>)
    requires Sorted(xs) && xs != [] && xs[0] < x
    requires Sorted(rest) && multiset(rest) == multiset(xs[1..]) + multiset{x}
    ensures Sorted([xs[0]] + rest)
    ensures multiset([xs[0]] + rest) == multiset(xs) + multiset{x}
  {
    assert xs == [xs[0]] + xs[1..];
    forall k | 0 <= k < |rest|
      ensures xs[0] <= rest[k]
    {
      assert rest[k] in multiset(rest);
      if rest[k] != x {
        assert rest[k] in multiset(xs[1..]);
        var j :| 0 <= j < |xs[1..]| && xs[1..][j] == rest[k];
        assert xs[j + 1] == rest[k];
      }
    }
    var r := [xs[0]] + rest;
    forall i, j | 0 <= i < j < |r|
      ensures r[i] <= r[j]
    {
      if i > 0 {
        assert r[i] == rest[i - 1] && r[j] == rest[j - 1];
      } else {
        assert r[j] == rest[j - 1];
      }
    }
  }

  /** Python's `sorted(vec)`: the values in ascending order. */
  function SortedCopy(xs: seq<real>): (r: seq<real>)
    ensures |r| == |xs|
    ensures multiset(r) == multiset(xs)
    ensures Sorted(r)
  {
    if xs == [] then []
    else
      var init := xs[..|xs| - 1];
      assert xs == init + [xs[|xs| - 1]];
      Insert(xs[|xs| - 1], SortedCopy(init))
  }

  /** `int(q * (len(vec) - 1))` for `q = tenths / 10`: the nearest-rank index. */
  function RankIndex(n: nat, tenths: nat): (r: nat)
    requires n >= 1 && tenths <= 10
    ensures r < n
  {
    MulLe(tenths, 10, n - 1);
    tenths * (n - 1) / 10
  }

  /** The 10th, 50th and 90th percentile ranks are ordered and inside the vector. */
  lemma RanksOrdered(n: nat)
    requires n >= 1
    ensures RankIndex(n, 1) <= RankIndex(n, 5) <= RankIndex(n, 9) < n
  {
    MulLe(1, 5, n - 1);
    MulLe(5, 9, n - 1);
  }

  /** `vec[int(q * (len(vec) - 1))]`. */
  function Pick(vec: seq<real>, tenths: nat): real
    requires vec != [] && tenths <= 10
  {
    vec[RankIndex(|vec|, tenths)]
  }

  // ---------------------------------------------------------------------------
  // Simulated paths
  // ---------------------------------------------------------------------------

  /** A price moved by one step's growth factor. */
  function Moved(px: real, f: real): real {
    px * f
  }

  /** The price on path `path` after `k` steps: `px = max(px * factor, 0.0)` from `p0`. */
  function PriceAt(p0: real, factor: (nat, nat) -> real, path: nat, k: nat): (px: real)
    ensures k > 0 ==> px >= 0.0
  {
    if k == 0 then p0 else Max(Moved(PriceAt(p0, factor, path, k - 1), factor(path, k - 1)), 0.0)
  }

  /** One step moves the price by the step's factor, floored at zero. */
  lemma PriceStep(p0: real, factor: (nat, nat) -> real, path: nat, j: nat)
    ensures PriceAt(p0, factor, path, j + 1) == Max(Moved(PriceAt(p0, factor, path, j), factor(path, j)), 0.0)
  {
    assert j + 1 - 1 == j;
  }

  /** Shares held on a DCA path after `k` steps: `amt / px` bought at every positive step price. */
  function DcaShares(p0: real, factor: (nat, nat) -> real, path: nat, amt: real, k: nat): real {
    if k == 0 then 0.0
    else
      var px := PriceAt(p0, factor, path, k);
      DcaShares(p0, factor, path, amt, k - 1) + (if px > 0.0 then amt / px else 0.0)
  }

  /** Cash spent on a DCA path after `k` steps: `amt` at every positive step price. */
  function DcaInvested(p0: real, factor: (nat, nat) -> real, path: nat, amt: real, k: nat): real {
    if k == 0 then 0.0
    else DcaInvested(p0, factor, path, amt, k - 1) + (if PriceAt(p0, factor, path, k) > 0.0 then amt else 0.0)
  }

  /** What a path records per step: its price, a fixed holding's value, or a DCA holding's value. */
  datatype PathKind = PricePath | ValuePath(shares: real) | DcaPath(amtPer: real)

  /** The value path `path` records at step `k` (1-based). */
  function PathValue(kind: PathKind, p0: real, factor: (nat, nat) -> real, path: nat, k: nat): real {
    var px := PriceAt(p0, factor, path, k);
    match kind
    case PricePath => px
    case ValuePath(shares) => shares * px
    case DcaPath(amt) => DcaShares(p0, factor, path, amt, k) * px
  }

  /** `all_paths[s]` once `nPaths` paths have been simulated. */
  function Column(kind: PathKind, p0: real, factor: (nat, nat) -> real, nPaths: nat, s: nat): (c: seq<real>)
    ensures |c| == nPaths
  {
    seq(nPaths, p requires 0 <= p < nPaths => PathValue(kind, p0, factor, p, s + 1))
  }

  function Columns(kind: PathKind, p0: real, factor: (nat, nat) -> real, nPaths: nat, steps: nat): (cs: seq<seq<real>>)
    ensures |cs| == steps
    ensures forall s :: 0 <= s < steps ==> cs[s] == Column(kind, p0, factor, nPaths, s)
  {
    seq(steps, s requires 0 <= s < steps => Column(kind, p0, factor, nPaths, s))
  }

  lemma ColumnStep(kind: PathKind, p0: real, factor: (nat, nat) -> real, i: nat, s: nat)
    ensures Column(kind, p0, factor, i + 1, s) == Column(kind, p0, factor, i, s) + [PathValue(kind, p0, factor, i, s + 1)]
  {
  }

  /**
    One simulated path: step the price (and, on a DCA path, the holding)
    and append the recorded value to the buffer of every step.
  */
  method SimulateOnePath(buffers: array<seq<real>>, kind: PathKind, p0: real, factor: (nat, nat) -> real, path: nat)
    modifies buffers
    ensures forall s :: 0 <= s < buffers.Length ==>
      buffers[s] == old(buffers[s]) + [PathValue(kind, p0, factor, path, s + 1)]
  {
    var px := p0;
    var held := 0.0;
    for j := 0 to buffers.Length
      invariant px == PriceAt(p0, factor, path, j)
      invariant kind.DcaPath? ==> held == DcaShares(p0, factor, path, kind.amtPer, j)
      invariant forall s :: 0 <= s < j ==> buffers[s] == old(buffers[s]) + [PathValue(kind, p0, factor, path, s + 1)]
      invariant forall s :: j <= s < buffers.Length ==> buffers[s] == old(buffers[s])
    {
      var v;
      px, held, v := PathStep(kind, p0, factor, path, j, px, held);
      buffers[j] := buffers[j] + [v];
    }
  }

  /**
    One step of a path: the price moves by the step's factor and is floored
    at zero, a DCA path buys `amt / px` at a positive price, and the step
    records the path's value.
  */
  method PathStep(kind: PathKind, p0: real, factor: (nat, nat) -> real, path: nat, j: nat, px: real, held: real)
    returns (px': real, held': real, v: real)
    requires px == PriceAt(p0, factor, path, j)
    requires kind.DcaPath? ==> held == DcaShares(p0, factor, path, kind.amtPer, j)
    ensures px' == PriceAt(p0, factor, path, j + 1)
    ensures kind.DcaPath? ==> held' == DcaShares(p0, factor, path, kind.amtPer, j + 1)
    ensures v == PathValue(kind, p0, factor, path, j + 1)
  {
    PriceStep(p0, factor, path, j);
    px' := Max(Moved(px, factor(path, j)), 0.0);
    held' := held;
    match kind {
      case PricePath =>
        v := px';
      case ValuePath(shares) =>
        v := shares * px';
      case DcaPath(amt) =>
        if px' > 0.0 {
          held' := held + amt / px';
        }
        v := held' * px';
    }
  }

  /** The simulation loops: `n_paths` paths appended to one buffer per step. */
  method SimulatePaths(kind: PathKind, p0: real, factor: (nat, nat) -> real, nPaths: nat, steps: nat)
    returns (buffers: array<seq<real>>)
    ensures fresh(buffers) && buffers.Length == steps
    ensures buffers[..] == Columns(kind, p0, factor, nPaths, steps)
  {
    buffers := new seq<real>[steps](_ => []);
    for i := 0 to nPaths
      invariant forall s :: 0 <= s < steps ==> buffers[s] == Column(kind, p0, factor, i, s)
    {
      SimulateOnePath(buffers, kind, p0, factor, i);
      forall s | 0 <= s < steps
        ensures buffers[s] == Column(kind, p0, factor, i + 1, s)
      {
        ColumnStep(kind, p0, factor, i, s);
      }
    }
    assert buffers[..] == Columns(kind, p0, factor, nPaths, steps);
  }

  // ---------------------------------------------------------------------------
  // Percentile bands
  // ---------------------------------------------------------------------------

  datatype Bands = Bands(p10: seq<Sample>, p50: seq<Sample>, p90: seq<Sample>)

  /**
    One band: at step `s` the timestamp `last_ts` advanced `s + 1` steps and
    the nearest-rank `tenths * 10`th percentile of the sorted buffer.
  */
  function Band(cols: seq<seq<real>>, lastTs: int, stepMs: int, tenths: nat): (band: seq<Sample>)
    requires tenths <= 10
    requires forall s :: 0 <= s < |cols| ==> cols[s] != []
    ensures |band| == |cols|
  {
    seq(|cols|, s requires 0 <= s < |cols| => Sample(Advance(lastTs, stepMs, s + 1), Pick(SortedCopy(cols[s]), tenths)))
  }

  /** The 10th, 50th and 90th percentile bands of the buffers. */
  function BandsOf(cols: seq<seq<real>>, lastTs: int, stepMs: int): (b: Bands)
    requires forall s :: 0 <= s < |cols| ==> cols[s] != []
    ensures |b.p10| == |b.p50| == |b.p90| == |cols|
  {
    Bands(Band(cols, lastTs, stepMs, 1), Band(cols, lastTs, stepMs, 5), Band(cols, lastTs, stepMs, 9))
  }

  lemma BandSnoc(cols: seq<seq<real>>, lastTs: int, stepMs: int, tenths: nat, s: nat)
    requires tenths <= 10 && s < |cols|
    requires forall s :: 0 <= s < |cols| ==> cols[s] != []
    ensures Band(cols, lastTs, stepMs, tenths)[..s + 1]
         == Band(cols, lastTs, stepMs, tenths)[..s] + [Sample(Advance(lastTs, stepMs, s + 1), Pick(SortedCopy(cols[s]), tenths))]
  {
    var band := Band(cols, lastTs, stepMs, tenths);
    assert band[..s + 1] == band[..s] + [band[s]];
  }

  /** The percentile loop: advance the timestamp, sort the step's buffer, pick three ranks. */
  method PercentileBands(buffers: array<seq<real>>, lastTs: int, stepMs: int) returns (b: Bands)
    requires forall s :: 0 <= s < buffers.Length ==> buffers[s] != []
    ensures b == BandsOf(buffers[..], lastTs, stepMs)
  {
    ghost var cols := buffers[..];
    var p10, p50, p90 := [], [], [];
    var ts := lastTs;
    for s := 0 to buffers.Length
      invariant ts == Advance(lastTs, stepMs, s)
      invariant p10 == Band(cols, lastTs, stepMs, 1)[..s]
      invariant p50 == Band(cols, lastTs, stepMs, 5)[..s]
      invariant p90 == Band(cols, lastTs, stepMs, 9)[..s]
    {
      assert s + 1 - 1 == s;
      ts := ts + stepMs;
      assert ts == Advance(lastTs, stepMs, s + 1);
      assert buffers[s] == cols[s];
      var vec := SortedCopy(buffers[s]);
      var n := |vec|;
      BandSnoc(cols, lastTs, stepMs, 1, s);
      BandSnoc(cols, lastTs, stepMs, 5, s);
      BandSnoc(cols, lastTs, stepMs, 9, s);
      p10 := p10 + [Sample(ts, vec[RankIndex(n, 1)])];
      p50 := p50 + [Sample(ts, vec[RankIndex(n, 5)])];
      p90 := p90 + [Sample(ts, vec[RankIndex(n, 9)])];
    }
    assert p10 == Band(cols, lastTs, stepMs, 1)[..|cols|];
    assert p50 == Band(cols, lastTs, stepMs, 5)[..|cols|];
    assert p90 == Band(cols, lastTs, stepMs, 9)[..|cols|];
    b := Bands(p10, p50, p90);
  }

  /** Within one buffer the picked percentiles are ordered. */
  lemma PicksOrdered(col: seq<real>)
    requires col != []
    ensures Pick(SortedCopy(col), 1) <= Pick(SortedCopy(col), 5) <= Pick(SortedCopy(col), 9)
  {
    var vec := SortedCopy(col);
    RanksOrdered(|vec|);
    var i1, i5, i9 := RankIndex(|vec|, 1), RankIndex(|vec|, 5), RankIndex(|vec|, 9);
    assert vec[i1] <= vec[i5];
    assert vec[i5] <= vec[i9];
  }

  /** Every picked percentile is a value of the buffer. */
  lemma PickIsValue(col: seq<real>, t: nat)
    requires col != [] && t <= 10
    ensures Pick(SortedCopy(col), t) in multiset(col)
  {
    var vec := SortedCopy(col);
    assert vec[RankIndex(|vec|, t)] in multiset(vec);
  }

  /**
    At every step the bands are ordered, p10 <= p50 <= p90, every band value
    is a value some path recorded, and the timestamps rise by one step each.
  */
  lemma BandsOrdered(cols: seq<seq<real>>, lastTs: int, stepMs: int)
    requires forall s :: 0 <= s < |cols| ==> cols[s] != []
    ensures forall s :: 0 <= s < |cols| ==>
      Band(cols, lastTs, stepMs, 1)[s].px <= Band(cols, lastTs, stepMs, 5)[s].px <= Band(cols, lastTs, stepMs, 9)[s].px
    ensures forall s, t: nat :: 0 <= s < |cols| && t <= 10 ==>
      Band(cols, lastTs, stepMs, t)[s].px in multiset(cols[s]) && Band(cols, lastTs, stepMs, t)[s].ts == lastTs + (s + 1) * stepMs
  {
    forall s | 0 <= s < |cols|
      ensures Band(cols, lastTs, stepMs, 1)[s].px <= Band(cols, lastTs, stepMs, 5)[s].px <= Band(cols, lastTs, stepMs, 9)[s].px
      ensures forall t: nat :: t <= 10 ==>
        Band(cols, lastTs, stepMs, t)[s].px in multiset(cols[s]) && Band(cols, lastTs, stepMs, t)[s].ts == lastTs + (s + 1) * stepMs
    {
      BandAtStep(cols, lastTs, stepMs, s);
    }
  }

  /** The three bands at step `s`: ordered, drawn from the step's buffer, stamped `s + 1` steps on. */
  lemma BandAtStep(cols: seq<seq<real>>, lastTs: int, stepMs: int, s: nat)
    requires forall s :: 0 <= s < |cols| ==> cols[s] != []
    requires s < |cols|
    ensures Band(cols, lastTs, stepMs, 1)[s].px <= Band(cols, lastTs, stepMs, 5)[s].px <= Band(cols, lastTs, stepMs, 9)[s].px
    ensures forall t: nat :: t <= 10 ==>
      Band(cols, lastTs, stepMs, t)[s].px in multiset(cols[s]) && Band(cols, lastTs, stepMs, t)[s].ts == lastTs + (s + 1) * stepMs
  {
    PicksOrdered(cols[s]);
    AdvanceIs(lastTs, stepMs, s + 1);
    forall t: nat | t <= 10
      ensures Band(cols, lastTs, stepMs, t)[s].px in multiset(cols[s])
      ensures Band(cols, lastTs, stepMs, t)[s].ts == lastTs + (s + 1) * stepMs
    {
      PickIsValue(cols[s], t);
    }
  }

  /** Every value a path records is non-negative when the holding is. */
  lemma PathValueNonNegative(kind: PathKind, p0: real, factor: (nat, nat) -> real, path: nat, k: nat)
    requires k > 0
    requires kind.ValuePath? ==> kind.shares >= 0.0
    requires kind.DcaPath? ==> kind.amtPer >= 0.0
    ensures PathValue(kind, p0, factor, path, k) >= 0.0
  {
    if kind.DcaPath? {
      DcaSharesNonNegative(p0, factor, path, kind.amtPer, k);
    }
  }

  lemma {:induction false} DcaSharesNonNegative(p0: real, factor: (nat, nat) -> real, path: nat, amt: real, k: nat)
    requires amt >= 0.0
    ensures DcaShares(p0, factor, path, amt, k) >= 0.0
  {
    if k > 0 {
      DcaSharesNonNegative(p0, factor, path, amt, k - 1);
      var px := PriceAt(p0, factor, path, k);
      if px > 0.0 {
        assert amt / px >= 0.0;
      }
    }
  }

  /** Paths whose factors agree are the same path. */
  lemma {:induction false} SamePath(p0: real, factor: (nat, nat) -> real, a: nat, b: nat, amt: real, k: nat)
    requires forall s: nat :: factor(a, s) == factor(b, s)
    ensures PriceAt(p0, factor, a, k) == PriceAt(p0, factor, b, k)
    ensures DcaShares(p0, factor, a, amt, k) == DcaShares(p0, factor, b, amt, k)
  {
    if k > 0 {
      SamePath(p0, factor, a, b, amt, k - 1);
    }
  }

  /** Every percentile of a buffer holding one repeated value is that value. */
  lemma ConstantPick(col: seq<real>, c: real, t: nat)
    requires col != [] && t <= 10
    requires forall i :: 0 <= i < |col| ==> col[i] == c
    ensures Pick(SortedCopy(col), t) == c
  {
    var vec := SortedCopy(col);
    assert vec[RankIndex(|vec|, t)] in multiset(col);
  }

  /** Without randomness across paths a buffer repeats the first path's value. */
  lemma IdenticalColumn(kind: PathKind, p0: real, factor: (nat, nat) -> real, nPaths: nat, s: nat)
    requires forall p: nat, q: nat, s: nat :: factor(p, s) == factor(q, s)
    ensures forall p :: 0 <= p < nPaths ==> Column(kind, p0, factor, nPaths, s)[p] == PathValue(kind, p0, factor, 0, s + 1)
  {
    var amt := if kind.DcaPath? then kind.amtPer else 0.0;
    forall p | 0 <= p < nPaths
      ensures Column(kind, p0, factor, nPaths, s)[p] == PathValue(kind, p0, factor, 0, s + 1)
    {
      SamePath(p0, factor, p, 0, amt, s + 1);
    }
  }

  /**
    Without randomness across paths every buffer holds one repeated value,
    and all bands coincide with the single path.
  */
  lemma IdenticalPathsCollapseBands(kind: PathKind, p0: real, factor: (nat, nat) -> real, nPaths: nat, steps: nat,
                                    lastTs: int, stepMs: int)
    requires nPaths > 0
    requires forall p: nat, q: nat, s: nat :: factor(p, s) == factor(q, s)
    ensures forall s, t: nat :: 0 <= s < steps && t <= 10 ==>
      Band(Columns(kind, p0, factor, nPaths, steps), lastTs, stepMs, t)[s].px == PathValue(kind, p0, factor, 0, s + 1)
  {
    var cols := Columns(kind, p0, factor, nPaths, steps);
    forall s, t: nat | 0 <= s < steps && t <= 10
      ensures Band(cols, lastTs, stepMs, t)[s].px == PathValue(kind, p0, factor, 0, s + 1)
    {
      IdenticalColumn(kind, p0, factor, nPaths, s);
      ConstantPick(cols[s], PathValue(kind, p0, factor, 0, s + 1), t);
    }
  }

  /** With positive factors (an exponential) a price stays positive, or drops to zero for good. */
  lemma {:induction false} PriceSign(p0: real, factor: (nat, nat) -> real, path: nat, k: nat)
    requires forall s: nat :: s < k ==> factor(path, s) > 0.0
    ensures p0 > 0.0 ==> PriceAt(p0, factor, path, k) > 0.0
    ensures p0 <= 0.0 ==> PriceAt(p0, factor, path, k) <= 0.0
  {
    if k > 0 {
      PriceSign(p0, factor, path, k - 1);
      var prev := PriceAt(p0, factor, path, k - 1);
      var f := factor(path, k - 1);
      assert f > 0.0;
      if p0 > 0.0 {
        assert prev * f > 0.0;
      } else {
        assert prev * f <= 0.0;
      }
    }
  }

  /**
    A DCA path spends at most `amt` per step: exactly `amt * k` when the
    start price is positive, nothing when it is not.
  */
  lemma {:induction false} DcaInvestedBounds(p0: real, factor: (nat, nat) -> real, path: nat, amt: real, k: nat)
    requires amt >= 0.0
    requires forall s: nat :: s < k ==> factor(path, s) > 0.0
    ensures 0.0 <= DcaInvested(p0, factor, path, amt, k) <= Budget(amt, k)
    ensures p0 > 0.0 ==> DcaInvested(p0, factor, path, amt, k) == Budget(amt, k)
    ensures p0 <= 0.0 ==> DcaInvested(p0, factor, path, amt, k) == 0.0
  {
    if k > 0 {
      DcaInvestedBounds(p0, factor, path, amt, k - 1);
      PriceSign(p0, factor, path, k);
      BudgetStep(amt, k);
    }
  }

  // ---------------------------------------------------------------------------
  // Calibration and the endpoints
  // ---------------------------------------------------------------------------

  /** How many consecutive close pairs are both positive, i.e. yield a log-return. */
  function ValidReturns(closes: seq<real>): (c: nat)
    ensures c < |closes| || c == 0
  {
    if |closes| < 2 then 0
    else ValidReturns(closes[..|closes| - 1]) + (if closes[|closes| - 2] > 0.0 && closes[|closes| - 1] > 0.0 then 1 else 0)
  }

  /** The calibration loop: count the log-returns `rets` would hold. */
  method CountReturns(closes: seq<real>) returns (c: nat)
    ensures c == ValidReturns(closes)
  {
    c := 0;
    if |closes| == 0 {
      return;
    }
    for i := 1 to |closes|
      invariant c == ValidReturns(closes[..i])
    {
      assert closes[..i + 1][..i] == closes[..i];
      if closes[i - 1] > 0.0 && closes[i] > 0.0 {
        c := c + 1;
      }
    }
    assert closes[..|closes|] == closes;
  }

  /** The closes used for calibration: the last 365 daily closes. */
  function CalibrationCloses(daily: seq<Sample>): (closes: seq<real>)
    ensures |closes| == MinInt(|daily|, CALIBRATION_DAYS)
    ensures daily != [] ==> closes[|closes| - 1] == daily[|daily| - 1].px
  {
    Closes(TakeLast(daily, CALIBRATION_DAYS))
  }

  /** `steps = max(1, int(horizon_days / step_days))`: whole steps that fit in the horizon, at least one. */
  function Steps(horizonDays: int, stepDays: int): (n: int)
    requires stepDays > 0
    ensures n >= 1
    ensures horizonDays < stepDays ==> n == 1
  {
    MaxInt(1, TruncDiv(horizonDays, stepDays))
  }

  /** A horizon of at least one step holds exactly `Steps` whole steps. */
  lemma StepsFit(horizonDays: int, stepDays: int)
    requires stepDays > 0 && horizonDays >= stepDays
    ensures var n := Steps(horizonDays, stepDays);
      n * stepDays <= horizonDays < (n + 1) * stepDays
  {
  }

  /** `max(lo, min(x, hi))`. */
  function ClampReal(x: real, lo: real, hi: real): (r: real)
    requires lo <= hi
    ensures lo <= r <= hi
    ensures lo <= x <= hi ==> r == x
  {
    Max(lo, Min(x, hi))
  }

  /** `int(years * 365)` for a positive year count. */
  function HorizonDays(years: real): (d: int)
    requires years > 0.0
    ensures d as real <= years * 365.0 < d as real + 1.0
  {
    (years * 365.0).Floor
  }

  /** The clamped path count `max(50, min(n, 1000))`. */
  function PathCount(n: int): (c: int)
    ensures 50 <= c <= 1000
    ensures 50 <= n <= 1000 ==> c == n
  {
    MaxInt(50, MinInt(n, 1000))
  }

  /** The clamped horizon lies between 36 and 7300 days. */
  lemma HorizonBounds(years: real)
    ensures 36 <= HorizonDays(ClampReal(years, 0.1, SCENARIO_MAX_YEARS)) <= 7300
  {
  }

  /**
    What `gbm_scenarios` returns: empty bands without enough history or
    returns; None for the exceptions a non-positive step (division or
    square root) or no paths (indexing an empty vector) raise; otherwise the
    bands of `n_paths` price paths from the last close.
  */
  function GbmSpec(daily: seq<Sample>, horizonDays: int, stepDays: int, nPaths: int, factor: (nat, nat) -> real): Option<Bands> {
    if daily == [] || |daily| < MIN_HISTORY then Some(Bands([], [], []))
    else
      var closes := CalibrationCloses(daily);
      if ValidReturns(closes) < MIN_RETURNS then Some(Bands([], [], []))
      else if stepDays <= 0 || nPaths <= 0 then None
      else
        var steps := Steps(horizonDays, stepDays);
        Some(BandsOf(Columns(PricePath, closes[|closes| - 1], factor, nPaths, steps),
                     daily[|daily| - 1].ts, stepDays * ONE_DAY * 1000))
  }

  /** `gbm_scenarios`. */
  method GbmScenarios(daily: seq<Sample>, horizonDays: int, stepDays: int, nPaths: int, factor: (nat, nat) -> real)
    returns (r: Option<Bands>)
    ensures r == GbmSpec(daily, horizonDays, stepDays, nPaths, factor)
  {
    if daily == [] || |daily| < MIN_HISTORY {
      return Some(Bands([], [], []));
    }
    var closes := CalibrationCloses(daily);
    var rets := CountReturns(closes);
    if rets < MIN_RETURNS {
      return Some(Bands([], [], []));
    }
    if stepDays <= 0 || nPaths <= 0 {
      return None;
    }
    var steps := Steps(horizonDays, stepDays);
    var buffers := SimulatePaths(PricePath, closes[|closes| - 1], factor, nPaths, steps);
    var bands := PercentileBands(buffers, daily[|daily| - 1].ts, stepDays * ONE_DAY * 1000);
    r := Some(bands);
  }

  /**
    Enough history gives one band point per step, ordered p10 <= p50 <= p90,
    every value a non-negative simulated price.
  */
  lemma GbmBandsShape(daily: seq<Sample>, horizonDays: int, stepDays: int, nPaths: int, factor: (nat, nat) -> real)
    requires |daily| >= MIN_HISTORY && stepDays > 0 && nPaths > 0
    requires ValidReturns(CalibrationCloses(daily)) >= MIN_RETURNS
    ensures var r := GbmSpec(daily, horizonDays, stepDays, nPaths, factor);
      && r.Some?
      && |r.value.p10| == |r.value.p50| == |r.value.p90| == Steps(horizonDays, stepDays)
      && forall s :: 0 <= s < |r.value.p10| ==>
           0.0 <= r.value.p10[s].px <= r.value.p50[s].px <= r.value.p90[s].px
  {
    var closes := CalibrationCloses(daily);
    var steps := Steps(horizonDays, stepDays);
    var cols := Columns(PricePath, closes[|closes| - 1], factor, nPaths, steps);
    var stepMs := stepDays * ONE_DAY * 1000;
    var lastTs := daily[|daily| - 1].ts;
    assert GbmSpec(daily, horizonDays, stepDays, nPaths, factor) == Some(BandsOf(cols, lastTs, stepMs));
    BandsOrdered(cols, lastTs, stepMs);
    forall s | 0 <= s < steps
      ensures 0.0 <= Band(cols, lastTs, stepMs, 1)[s].px
    {
      forall p | 0 <= p < nPaths
        ensures cols[s][p] >= 0.0
      {
        PathValueNonNegative(PricePath, closes[|closes| - 1], factor, p, s + 1);
      }
      var v := Band(cols, lastTs, stepMs, 1)[s].px;
      assert v in multiset(cols[s]);
      assert v in cols[s];
    }
  }

  /** The three bands share their timestamps point by point and are ordered p10 <= p50 <= p90 there. */
  predicate Aligned(b: Bands) {
    && |b.p10| == |b.p50| == |b.p90|
    && forall s :: 0 <= s < |b.p10| ==>
         && b.p10[s].ts == b.p50[s].ts == b.p90[s].ts
         && b.p10[s].px <= b.p50[s].px <= b.p90[s].px
  }

  /** Whatever `gbm_scenarios` returns, its bands are aligned, the empty answer included. */
  lemma GbmBandsAligned(daily: seq<Sample>, horizonDays: int, stepDays: int, nPaths: int, factor: (nat, nat) -> real)
    ensures var r := GbmSpec(daily, horizonDays, stepDays, nPaths, factor);
      r.Some? ==> Aligned(r.value)
  {
    if |daily| >= MIN_HISTORY && stepDays > 0 && nPaths > 0 && ValidReturns(CalibrationCloses(daily)) >= MIN_RETURNS {
      var closes := CalibrationCloses(daily);
      var steps := Steps(horizonDays, stepDays);
      var cols := Columns(PricePath, closes[|closes| - 1], factor, nPaths, steps);
      var stepMs := stepDays * ONE_DAY * 1000;
      var lastTs := daily[|daily| - 1].ts;
      assert GbmSpec(daily, horizonDays, stepDays, nPaths, factor) == Some(BandsOf(cols, lastTs, stepMs));
      BandsOrdered(cols, lastTs, stepMs);
    }
  }

  datatype ValueScenario = ValueScenario(years: real, stepDays: int, nPaths: int, currentPrice: real, shares: real, bands: Bands)

  /**
    What `api_whatif_scenario` answers: `amount` invested at the last close,
    its value simulated over the clamped horizon. A step of zero divides by
    zero and a negative one fails the square root; both are unhandled.
  */
  function WhatIfScenarioSpec(amount: real, years: real, stepDays: int, nReq: int, daily: seq<Sample>,
                              factor: (nat, nat) -> real): Result<ValueScenario>
  {
    if amount <= 0.0 then Err("Bad params")
    else if daily == [] || |daily| < MIN_HISTORY then Err("Not enough history")
    else
      var closes := CalibrationCloses(daily);
      if ValidReturns(closes) < MIN_RETURNS then Err("Not enough returns")
      else
        var lastPx := closes[|closes| - 1];
        if lastPx <= 0.0 then Err("Bad current price")
        else if stepDays == 0 then Err("division by zero")
        else if stepDays < 0 then Err("math domain error")
        else
          var y := ClampReal(years, 0.1, SCENARIO_MAX_YEARS);
          var n := PathCount(nReq);
          var shares := SharesAt(amount, lastPx);
          var steps := Steps(HorizonDays(y), stepDays);
          Ok(ValueScenario(y, stepDays, n, lastPx, shares,
                           BandsOf(Columns(ValuePath(shares), lastPx, factor, n, steps),
                                   daily[|daily| - 1].ts, stepDays * ONE_DAY * 1000)))
  }

  /** The shares `amount` buys at price `px`: worth `amount` again at that price. */
  function SharesAt(amount: real, px: real): (sh: real)
    requires px > 0.0
    ensures sh * px == amount
  {
    amount / px
  }

  /** `api_whatif_scenario`. */
  method WhatIfScenario(amount: real, years: real, stepDays: int, nReq: int, daily: seq<Sample>,
                        factor: (nat, nat) -> real)
    returns (r: Result<ValueScenario>)
    ensures r == WhatIfScenarioSpec(amount, years, stepDays, nReq, daily, factor)
  {
    if amount <= 0.0 {
      return Err("Bad params");
    }
    var y := ClampReal(years, 0.1, SCENARIO_MAX_YEARS);
    var n := PathCount(nReq);
    if daily == [] || |daily| < MIN_HISTORY {
      return Err("Not enough history");
    }
    var closes := CalibrationCloses(daily);
    var rets := CountReturns(closes);
    if rets < MIN_RETURNS {
      return Err("Not enough returns");
    }
    var lastPx := closes[|closes| - 1];
    if lastPx <= 0.0 {
      return Err("Bad current price");
    }
    var shares := SharesAt(amount, lastPx);
    if stepDays == 0 {
      return Err("division by zero");
    }
    if stepDays < 0 {
      return Err("math domain error");
    }
    var steps := Steps(HorizonDays(y), stepDays);
    var buffers := SimulatePaths(ValuePath(shares), lastPx, factor, n, steps);
    var bands := PercentileBands(buffers, daily[|daily| - 1].ts, stepDays * ONE_DAY * 1000);
    r := Ok(ValueScenario(y, stepDays, n, lastPx, shares, bands));
    assert r == WhatIfScenarioSpec(amount, years, stepDays, nReq, daily, factor);
  }

  /**
    The what-if scenario succeeds exactly when the amount, the history, the
    returns, the last close and the step are usable; it then buys `amount`
    worth at the current price and reports clamped parameters.
  */
  lemma WhatIfScenarioFacts(amount: real, years: real, stepDays: int, nReq: int, daily: seq<Sample>,
                            factor: (nat, nat) -> real)
    ensures var r := WhatIfScenarioSpec(amount, years, stepDays, nReq, daily, factor);
      r.Ok? <==> (amount > 0.0 && |daily| >= MIN_HISTORY && ValidReturns(CalibrationCloses(daily)) >= MIN_RETURNS
                  && daily[|daily| - 1].px > 0.0 && stepDays > 0)
    ensures var r := WhatIfScenarioSpec(amount, years, stepDays, nReq, daily, factor);
      r.Ok? ==>
        && r.value.shares * r.value.currentPrice == amount
        && r.value.currentPrice == daily[|daily| - 1].px
        && 0.1 <= r.value.years <= SCENARIO_MAX_YEARS
        && 50 <= r.value.nPaths <= 1000
        && |r.value.bands.p50| == Steps(HorizonDays(r.value.years), stepDays)
  {
  }

  datatype DcaScenarioReport = DcaScenarioReport(years: real, stepDays: int, steps: int, investedTotal: real, bands: Bands)

  /**
    What `api_dca_scenario` answers: `amt_per` bought at every positive
    simulated step price, the value bands, and `invested_total = amt_per * steps`.
  */
  function DcaScenarioSpec(amtPer: real, freq: string, years: real, nReq: int, daily: seq<Sample>,
                           factor: (nat, nat) -> real): Result<DcaScenarioReport>
  {
    if amtPer <= 0.0 then Err("Bad params")
    else if daily == [] || |daily| < MIN_HISTORY then Err("Not enough history")
    else
      var closes := CalibrationCloses(daily);
      if ValidReturns(closes) < MIN_RETURNS then Err("Not enough returns")
      else
        var y := ClampReal(years, 0.1, SCENARIO_MAX_YEARS);
        var stepDays := StepDays(freq);
        var steps := Steps(HorizonDays(y), stepDays);
        Ok(DcaScenarioReport(y, stepDays, steps, Budget(amtPer, steps),
                             BandsOf(Columns(DcaPath(amtPer), closes[|closes| - 1], factor, PathCount(nReq), steps),
                                     daily[|daily| - 1].ts, stepDays * ONE_DAY * 1000)))
  }

  /** `api_dca_scenario`. */
  method DcaScenario(amtPer: real, freq: string, years: real, nReq: int, daily: seq<Sample>,
                     factor: (nat, nat) -> real)
    returns (r: Result<DcaScenarioReport>)
    ensures r == DcaScenarioSpec(amtPer, freq, years, nReq, daily, factor)
  {
    if amtPer <= 0.0 {
      return Err("Bad params");
    }
    var y := ClampReal(years, 0.1, SCENARIO_MAX_YEARS);
    var n := PathCount(nReq);
    var stepDays := StepDays(freq);
    var steps := Steps(HorizonDays(y), stepDays);
    if daily == [] || |daily| < MIN_HISTORY {
      return Err("Not enough history");
    }
    var closes := CalibrationCloses(daily);
    var rets := CountReturns(closes);
    if rets < MIN_RETURNS {
      return Err("Not enough returns");
    }
    var buffers := SimulatePaths(DcaPath(amtPer), closes[|closes| - 1], factor, n, steps);
    var bands := PercentileBands(buffers, daily[|daily| - 1].ts, stepDays * ONE_DAY * 1000);
    assert buffers[..] == Columns(DcaPath(amtPer), closes[|closes| - 1], factor, n, steps);
    assert bands == BandsOf(Columns(DcaPath(amtPer), closes[|closes| - 1], factor, n, steps),
                            daily[|daily| - 1].ts, stepDays * ONE_DAY * 1000);
    r := Ok(DcaScenarioReport(y, stepDays, steps, Budget(amtPer, steps), bands));
    DcaScenarioSpecOk(amtPer, freq, years, nReq, daily, factor);
    ghost var spec := DcaScenarioSpec(amtPer, freq, years, nReq, daily, factor);
    assert spec.Ok?;
    assert spec.value.years == y;
    assert spec.value.stepDays == stepDays;
    assert spec.value.steps == steps;
    assert spec.value.investedTotal == Budget(amtPer, steps);
    assert spec.value.bands == bands;
  }

  /**
    The DCA scenario succeeds exactly when the amount, the history and the
    returns are usable; it then steps weekly or monthly over the clamped
    horizon, reports `amt_per` per step as invested, and gives one band
    point per step.
  */
  lemma DcaScenarioFacts(amtPer: real, freq: string, years: real, nReq: int, daily: seq<Sample>,
                         factor: (nat, nat) -> real)
    ensures var r := DcaScenarioSpec(amtPer, freq, years, nReq, daily, factor);
      r.Ok? <==> (amtPer > 0.0 && |daily| >= MIN_HISTORY && ValidReturns(CalibrationCloses(daily)) >= MIN_RETURNS)
    ensures var r := DcaScenarioSpec(amtPer, freq, years, nReq, daily, factor);
      r.Ok? ==>
        && 0.1 <= r.value.years <= SCENARIO_MAX_YEARS
        && r.value.stepDays == StepDays(freq)
        && r.value.steps == Steps(HorizonDays(r.value.years), r.value.stepDays) >= 1
        && r.value.investedTotal == Budget(amtPer, r.value.steps)
        && |r.value.bands.p10| == |r.value.bands.p50| == |r.value.bands.p90| == r.value.steps
    ensures var r := DcaScenarioSpec(amtPer, freq, years, nReq, daily, factor);
      && (amtPer <= 0.0 ==> r == Err("Bad params"))
      && (amtPer > 0.0 && |daily| < MIN_HISTORY ==> r == Err("Not enough history"))
      && (amtPer > 0.0 && |daily| >= MIN_HISTORY && ValidReturns(CalibrationCloses(daily)) < MIN_RETURNS ==>
            r == Err("Not enough returns"))
  {
    if amtPer > 0.0 && |daily| >= MIN_HISTORY && ValidReturns(CalibrationCloses(daily)) >= MIN_RETURNS {
      DcaScenarioSpecOk(amtPer, freq, years, nReq, daily, factor);
    }
  }

  /** The report `DcaScenarioSpec` answers once its guards pass. */
  lemma DcaScenarioSpecOk(amtPer: real, freq: string, years: real, nReq: int, daily: seq<Sample>,
                          factor: (nat, nat) -> real)
    requires amtPer > 0.0 && |daily| >= MIN_HISTORY
    requires ValidReturns(CalibrationCloses(daily)) >= MIN_RETURNS
    ensures var closes := CalibrationCloses(daily);
      var y := ClampReal(years, 0.1, SCENARIO_MAX_YEARS);
      var stepDays := StepDays(freq);
      var steps := Steps(HorizonDays(y), stepDays);
      DcaScenarioSpec(amtPer, freq, years, nReq, daily, factor)
        == Ok(DcaScenarioReport(y, stepDays, steps, Budget(amtPer, steps),
                                BandsOf(Columns(DcaPath(amtPer), closes[|closes| - 1], factor, PathCount(nReq), steps),
                                        daily[|daily| - 1].ts, stepDays * ONE_DAY * 1000)))
  {
  }

  /**
    The reported `invested_total` bounds what every simulated DCA path
    spends, and equals it when the last close is positive; with a last
    close of zero no path buys anything.
  */
  lemma InvestedTotalBoundsPaths(amtPer: real, freq: string, years: real, nReq: int, daily: seq<Sample>,
                                 factor: (nat, nat) -> real, path: nat)
    requires DcaScenarioSpec(amtPer, freq, years, nReq, daily, factor).Ok?
    requires forall s: nat :: factor(path, s) > 0.0
    ensures var rep := DcaScenarioSpec(amtPer, freq, years, nReq, daily, factor).value;
      var p0 := daily[|daily| - 1].px;
      && DcaInvested(p0, factor, path, amtPer, rep.steps) <= rep.investedTotal
      && (p0 > 0.0 ==> DcaInvested(p0, factor, path, amtPer, rep.steps) == rep.investedTotal)
      && (p0 <= 0.0 ==> DcaInvested(p0, factor, path, amtPer, rep.steps) == 0.0)
  {
    var closes := CalibrationCloses(daily);
    var y := ClampReal(years, 0.1, SCENARIO_MAX_YEARS);
    var stepDays := StepDays(freq);
    var steps := Steps(HorizonDays(y), stepDays);
    var p0 := daily[|daily| - 1].px;
    var bands := BandsOf(Columns(DcaPath(amtPer), closes[|closes| - 1], factor, PathCount(nReq), steps),
                         daily[|daily| - 1].ts, stepDays * ONE_DAY * 1000);
    var rep := DcaScenarioSpec(amtPer, freq, years, nReq, daily, factor).value;
    assert closes[|closes| - 1] == p0;
    assert rep.steps == steps;
    assert rep.investedTotal == Budget(amtPer, steps);
    DcaInvestedBounds(p0, factor, path, amtPer, steps);
  }
}
