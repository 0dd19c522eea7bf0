/**
 * The consumption anomaly `Z` of a day: the RTE-like score built from the
 * 40% and 80% quantiles of the past year's daily net consumption, its
 * small-sample fallback, and the fixed-constant score used without history.
 */
module Anomaly {
  import opened Wrappers

  // ---------------------------------------------------------------------------
  // Sorting and quantiles

  predicate SortedSeq(s: seq<real>) {
    forall i, j :: 0 <= i <= j < |s| ==> s[i] <= s[j]
  }

  function Insert(x: real, s: seq<real>): (r: seq<real>)
    requires SortedSeq(s)
    ensures SortedSeq(r) && |r| == |s| + 1
    ensures multiset(r) == multiset(s) + multiset{x}
  {
    if |s| == 0 then [x]
    else if x <= s[0] then
      ConsSorted(x, s);
      [x] + s
    else
      SortedTail(s);
      var rest := Insert(x, s[1..]);
      InsertBehindHead(x, s, rest);
      [s[0]] + rest
  }

  /** The tail of a sorted list is sorted and no smaller than its head. */
  lemma SortedTail(s: seq<real>)
    requires SortedSeq(s) && |s| > 0
    ensures SortedSeq(s[1..])
    ensures forall k :: 0 <= k < |s| - 1 ==> s[0] <= s[1..][k]
  {
    forall i, j | 0 <= i <= j < |s| - 1
      ensures s[1..][i] <= s[1..][j]
    {
      assert s[1..][i] == s[i + 1] && s[1..][j] == s[j + 1];
    }
  }

  /** `x` inserted into the tail of a sorted list whose head is below `x`: the head comes first. */
  lemma InsertBehindHead(x: real, s: seq<real>, rest: seq<real>)
    requires SortedSeq(s) && |s| > 0 && s[0] < x
    requires SortedSeq(rest) && multiset(rest) == multiset(s[1..]) + multiset{x}
    ensures SortedSeq([s[0]] + rest)
    ensures multiset([s[0]] + rest) == multiset(s) + multiset{x}
  {
    assert s == [s[0]] + s[1..];
    SortedTail(s);
    AllAtLeast(s[0], s[1..] + [x], rest);
    ConsSorted(s[0], rest);
  }

  lemma ConsSorted(m: real, r: seq<real>)
    requires SortedSeq(r)
    requires forall k :: 0 <= k < |r| ==> m <= r[k]
    ensures SortedSeq([m] + r)
  {
    var t := [m] + r;
    forall i, j | 0 <= i <= j < |t|
      ensures t[i] <= t[j]
    {
      if i > 0 {
        assert t[i] == r[i - 1] && t[j] == r[j - 1];
      } else {
        assert t[i] == m;
      }
    }
  }

  /** A permutation of a list whose values are all at least `m` has only values at least `m`. */
  lemma AllAtLeast(m: real, s: seq<real>, r: seq<real>)
    requires forall k :: 0 <= k < |s| ==> m <= s[k]
    requires multiset(r) == multiset(s)
    ensures forall k :: 0 <= k < |r| ==> m <= r[k]
  {
    forall k | 0 <= k < |r|
      ensures m <= r[k]
    {
      assert r[k] in multiset(s);
    }
  }

  /** Python's `sorted` on a list of numbers: the ascending permutation of `s`. */
  function Sort(s: seq<real>): (r: seq<real>)
    ensures SortedSeq(r) && |r| == |s|
    ensures multiset(r) == multiset(s)
  {
    if |s| == 0 then []
    else
      assert s == [s[0]] + s[1..];
      Insert(s[0], Sort(s[1..]))
  }

  /** Position `p * (n - 1)` of `_quantile` and the two order statistics around it. */
  function QuantileLow(n: nat, p: real): (lo: int)
    requires n >= 1 && 0.0 <= p <= 1.0
    ensures 0 <= lo <= n - 1
    ensures lo as real <= p * (n - 1) as real < lo as real + 1.0
  {
    ScaleBetween(p, (n - 1) as real);
    (p * (n - 1) as real).Floor
  }

  function QuantileHigh(n: nat, p: real): (hi: int)
    requires n >= 1 && 0.0 <= p <= 1.0
    ensures QuantileLow(n, p) <= hi <= n - 1
    ensures hi <= QuantileLow(n, p) + 1
    ensures hi == QuantileLow(n, p) <==> QuantileLow(n, p) as real == p * (n - 1) as real
  {
    var pos := p * (n - 1) as real;
    ScaleBetween(p, (n - 1) as real);
    var lo := QuantileLow(n, p);
    if lo as real == pos then lo else lo + 1
  }

  lemma ScaleBetween(p: real, l: real)
    requires 0.0 <= p <= 1.0 && 0.0 <= l
    ensures 0.0 <= p * l <= l
  {
  }

  /** The interpolated order statistic of a sorted list, at position `p * (n - 1)`. */
  function Interpolated(vals: seq<real>, p: real): (r: real)
    requires SortedSeq(vals) && |vals| >= 1 && 0.0 <= p <= 1.0
    ensures vals[QuantileLow(|vals|, p)] <= r <= vals[QuantileHigh(|vals|, p)]
  {
    var n := |vals|;
    var pos := p * (n - 1) as real;
    var lo := QuantileLow(n, p);
    var hi := QuantileHigh(n, p);
    if lo == hi then vals[lo]
    else
      var frac := pos - lo as real;
      InterpolateBetween(vals[lo], vals[hi], frac);
      vals[lo] + frac * (vals[hi] - vals[lo])
  }

  /**
   * `_quantile(values, p)`: linear interpolation between the order statistics
   * at `floor(p(n-1))` and `ceil(p(n-1))`; `None` stands for the `ValueError`
   * it raises on an empty list.
   */
  function Quantile(values: seq<real>, p: real): (r: Option<real>)
    requires 0.0 <= p <= 1.0
    ensures r.Some? <==> |values| > 0
    ensures |values| == 1 ==> r == Some(values[0])
    ensures r.Some? ==>
      var vals := Sort(values);
      vals[QuantileLow(|values|, p)] <= r.value <= vals[QuantileHigh(|values|, p)]
  {
    if |values| == 0 then None
    else
      var vals := Sort(values);
      if |vals| == 1 then
        assert multiset(vals) == multiset{values[0]};
        assert vals[0] in multiset(vals);
        Some(vals[0])
      else Some(Interpolated(vals, p))
  }

  lemma FloorMonotone(x: real, y: real)
    requires x <= y
    ensures x.Floor <= y.Floor
  {
    assert x.Floor as real <= x;
    assert y < y.Floor as real + 1.0;
  }

  lemma InterpolateBetween(a: real, b: real, t: real)
    requires a <= b && 0.0 <= t <= 1.0
    ensures a <= a + t * (b - a) <= b
  {
    assert t * (b - a) <= 1.0 * (b - a) by {
      assert (1.0 - t) * (b - a) >= 0.0;
    }
  }

  lemma InterpolateMonotone(a: real, b: real, t1: real, t2: real)
    requires a <= b && t1 <= t2
    ensures a + t1 * (b - a) <= a + t2 * (b - a)
  {
    ProductNonneg(t2 - t1, b - a);
  }

  lemma ScaleMonotone(p1: real, p2: real, l: real)
    requires p1 <= p2 && 0.0 <= l
    ensures p1 * l <= p2 * l
  {
    ProductNonneg(p2 - p1, l);
  }

  lemma ProductNonneg(x: real, y: real)
    requires x >= 0.0 && y >= 0.0
    ensures x * y >= 0.0
  {
  }

  /** Every quantile lies between the smallest and the largest value. */
  lemma QuantileWithinRange(values: seq<real>, p: real)
    requires 0.0 <= p <= 1.0 && |values| > 0
    ensures Sort(values)[0] <= Quantile(values, p).value <= Sort(values)[|values| - 1]
  {
  }

  /** The interpolated order statistic does not decrease as `p` grows. */
  lemma InterpolatedMonotone(vals: seq<real>, p1: real, p2: real)
    requires SortedSeq(vals) && |vals| >= 1 && 0.0 <= p1 <= p2 <= 1.0
    ensures Interpolated(vals, p1) <= Interpolated(vals, p2)
  {
    var n := |vals|;
    var l := (n - 1) as real;
    ScaleMonotone(p1, p2, l);
    FloorMonotone(p1 * l, p2 * l);
    var lo1, hi1 := QuantileLow(n, p1), QuantileHigh(n, p1);
    var lo2 := QuantileLow(n, p2);
    if lo1 < lo2 {
      assert vals[hi1] <= vals[lo2];
    } else {
      SameCellMonotone(vals, p1, p2);
    }
  }

  /** Two positions between the same pair of order statistics interpolate in order. */
  lemma SameCellMonotone(vals: seq<real>, p1: real, p2: real)
    requires SortedSeq(vals) && |vals| >= 1 && 0.0 <= p1 <= p2 <= 1.0
    requires QuantileLow(|vals|, p1) == QuantileLow(|vals|, p2)
    ensures Interpolated(vals, p1) <= Interpolated(vals, p2)
  {
    var n := |vals|;
    var l := (n - 1) as real;
    var lo := QuantileLow(n, p1);
    var hi1, hi2 := QuantileHigh(n, p1), QuantileHigh(n, p2);
    if lo != hi1 {
      SameCellHigh(n, p1, p2);
      var f1, f2 := p1 * l - lo as real, p2 * l - lo as real;
      ScaleMonotone(p1, p2, l);
      assert f1 <= f2;
      assert vals[lo] <= vals[hi1];
      InterpolateMonotone(vals[lo], vals[hi1], f1, f2);
      assert Interpolated(vals, p1) == vals[lo] + f1 * (vals[hi1] - vals[lo]);
      assert Interpolated(vals, p2) == vals[lo] + f2 * (vals[hi1] - vals[lo]);
    }
  }

  /** Two positions strictly inside the same cell share its upper order statistic. */
  lemma SameCellHigh(n: nat, p1: real, p2: real)
    requires n >= 1 && 0.0 <= p1 <= p2 <= 1.0
    requires QuantileLow(n, p1) == QuantileLow(n, p2)
    requires QuantileHigh(n, p1) != QuantileLow(n, p1)
    ensures QuantileHigh(n, p2) == QuantileHigh(n, p1) == QuantileLow(n, p1) + 1
  {
    ScaleMonotone(p1, p2, (n - 1) as real);
  }

  /** The quantile does not decrease as `p` grows. */
  lemma QuantileMonotone(values: seq<real>, p1: real, p2: real)
    requires 0.0 <= p1 <= p2 <= 1.0 && |values| > 0
    ensures Quantile(values, p1).value <= Quantile(values, p2).value
  {
    if |values| > 1 {
      InterpolatedMonotone(Sort(values), p1, p2);
    }
  }

  // ---------------------------------------------------------------------------
  // History selection

  /** A row of the daily series: its day number and its net consumption, `None` when unreadable. */
  datatype DailyRow = DailyRow(day: int, cNetMean: Option<real>)

  /** A row the history keeps: within `windowDays` before `target`, with a positive value. */
  predicate Kept(row: DailyRow, target: int, windowDays: int) {
    target - row.day <= windowDays && row.cNetMean.Some? && row.cNetMean.value > 0.0
  }

  /**
   * The values `compute_z_rte_like` collects: rows are read in order until the
   * first one dated on or after `target`; the kept rows contribute their value.
   */
  function HistoryValues(rows: seq<DailyRow>, target: int, windowDays: int): seq<real> {
    if |rows| == 0 || rows[0].day >= target then []
    else
      (if Kept(rows[0], target, windowDays) then [rows[0].cNetMean.value] else [])
      + HistoryValues(rows[1..], target, windowDays)
  }

  /** Every collected value is a positive value of a row before the target in the window, no more than the rows. */
  lemma {:induction false} HistoryValuesSound(rows: seq<DailyRow>, target: int, windowDays: int)
    ensures |HistoryValues(rows, target, windowDays)| <= |rows|
    ensures forall v :: v in HistoryValues(rows, target, windowDays) ==>
      v > 0.0 && exists r :: r in rows && r.day < target && Kept(r, target, windowDays) && r.cNetMean.value == v
  {
    if |rows| > 0 && rows[0].day < target {
      HistoryValuesSound(rows[1..], target, windowDays);
      forall v | v in HistoryValues(rows, target, windowDays)
        ensures v > 0.0 && exists r :: r in rows && r.day < target && Kept(r, target, windowDays) && r.cNetMean.value == v
      {
        if v in HistoryValues(rows[1..], target, windowDays) {
          var r :| r in rows[1..] && r.day < target && Kept(r, target, windowDays) && r.cNetMean.value == v;
          assert r in rows;
        } else {
          assert rows[0] in rows;
        }
      }
    }
  }

  /** The values of all kept rows dated before `target`, whatever their order. */
  function KeptBefore(rows: seq<DailyRow>, target: int, windowDays: int): seq<real> {
    if |rows| == 0 then []
    else
      (if rows[0].day < target && Kept(rows[0], target, windowDays) then [rows[0].cNetMean.value] else [])
      + KeptBefore(rows[1..], target, windowDays)
  }

  predicate SortedByDay(rows: seq<DailyRow>) {
    forall i, j :: 0 <= i <= j < |rows| ==> rows[i].day <= rows[j].day
  }

  /** On a series sorted by date, stopping at the first row on or after the target loses nothing. */
  lemma {:induction false} HistoryOfSortedSeries(rows: seq<DailyRow>, target: int, windowDays: int)
    requires SortedByDay(rows)
    ensures HistoryValues(rows, target, windowDays) == KeptBefore(rows, target, windowDays)
  {
    if |rows| > 0 {
      if rows[0].day >= target {
        NoneBefore(rows, target, windowDays);
      } else {
        HistoryOfSortedSeries(rows[1..], target, windowDays);
      }
    }
  }

  lemma {:induction false} NoneBefore(rows: seq<DailyRow>, target: int, windowDays: int)
    requires forall i :: 0 <= i < |rows| ==> rows[i].day >= target
    ensures KeptBefore(rows, target, windowDays) == []
  {
    if |rows| > 0 {
      NoneBefore(rows[1..], target, windowDays);
    }
  }

  /** The accumulation loop of `compute_z_rte_like`. */
  method CollectHistory(rows: seq<DailyRow>, target: int, windowDays: int) returns (vals: seq<real>)
    ensures vals == HistoryValues(rows, target, windowDays)
  {
    vals := [];
    var i := 0;
    while i < |rows|
      invariant 0 <= i <= |rows|
      invariant vals + HistoryValues(rows[i..], target, windowDays) == HistoryValues(rows, target, windowDays)
    {
      var entry := rows[i];
      assert rows[i..] == [entry] + rows[i + 1..];
      if entry.day >= target {
        break;
      }
      if target - entry.day <= windowDays {
        match entry.cNetMean {
          case Some(v) =>
            if v > 0.0 {
              vals := vals + [v];
            }
          case None =>
        }
      }
      i := i + 1;
    }
    if i == |rows| {
      assert rows[i..] == [];
    }
  }

  // ---------------------------------------------------------------------------
  // Z scores

  const CMean: real := 46050.0
  const CStd: real := 2160.0

  /** `compute_z`: the fixed-constant score. */
  function ComputeZ(cNet: real): (z: real)
    ensures z * CStd + CMean == cNet
    ensures (z >= 0.0) <==> (cNet >= CMean)
  {
    (cNet - CMean) / CStd
  }

  /** A larger consumption gives a larger fixed-constant score. */
  lemma ComputeZMonotone(c1: real, c2: real)
    requires c1 <= c2
    ensures ComputeZ(c1) <= ComputeZ(c2)
  {
    assert ComputeZ(c2) - ComputeZ(c1) == (c2 - c1) / CStd;
  }

  function Sum(s: seq<real>): real {
    if |s| == 0 then 0.0 else s[0] + Sum(s[1..])
  }

  function SumSquares(s: seq<real>, m: real): real {
    if |s| == 0 then 0.0 else (s[0] - m) * (s[0] - m) + SumSquares(s[1..], m)
  }

  datatype ZMethod = SmallSample | Quantiles

  /** The score, the branch that produced it and the divisor it used. */
  datatype ZOutcome = ZOutcome(z: real, branch: ZMethod, divisor: real)

  /**
   * The small-sample branch of `compute_z_rte_like`: today's value centred on
   * the mean of the history (on itself when there is none) and scaled by
   * `sqrtFn` of the sample variance (1 for fewer than two values), the scale
   * replaced by 1 when it is zero.
   */
  function SmallSampleZ(history: seq<real>, cNetToday: real, sqrtFn: real -> real): (out: ZOutcome)
    ensures out.branch == SmallSample && out.divisor != 0.0
  {
    var n := |history|;
    var m := if n > 0 then Sum(history) / n as real else cNetToday;
    var variance := if n > 1 then SumSquares(history, m) / (if n - 1 > 1 then n - 1 else 1) as real else 1.0;
    var s := sqrtFn(variance);
    var std := if s == 0.0 then 1.0 else s;
    ZOutcome((cNetToday - m) / std, SmallSample, std)
  }

  /** The quantile branch: `(c - q40) / (q80 - q40)`, the divisor raised to `1e-6` when smaller in magnitude. */
  function QuantileZ(history: seq<real>, cNetToday: real): (out: ZOutcome)
    requires |history| > 0
    ensures out.branch == Quantiles && out.divisor != 0.0
  {
    var q40 := Quantile(history, 0.4).value;
    var q80 := Quantile(history, 0.8).value;
    var d := q80 - q40;
    var denom := if -0.000001 < d < 0.000001 then 0.000001 else d;
    ZOutcome((cNetToday - q40) / denom, Quantiles, denom)
  }

  /** The decision of `compute_z_rte_like` once the history is collected: fewer than three values take the small-sample branch. */
  function ZFromHistory(history: seq<real>, cNetToday: real, sqrtFn: real -> real): (out: ZOutcome)
    ensures out.branch == SmallSample <==> |history| < 3
    ensures out.divisor != 0.0
  {
    if |history| < 3 then SmallSampleZ(history, cNetToday, sqrtFn) else QuantileZ(history, cNetToday)
  }

  /** In the quantile branch the divisor is at least `1e-6` and the score is measured from `q40`. */
  lemma QuantileBranch(history: seq<real>, cNetToday: real, sqrtFn: real -> real)
    requires |history| >= 3
    ensures ZFromHistory(history, cNetToday, sqrtFn).divisor >= 0.000001
    ensures var out := ZFromHistory(history, cNetToday, sqrtFn);
      out.z * out.divisor == cNetToday - Quantile(history, 0.4).value
  {
    QuantileMonotone(history, 0.4, 0.8);
    var out := QuantileZ(history, cNetToday);
    DivTimes(cNetToday - Quantile(history, 0.4).value, out.divisor);
  }

  lemma DivTimes(x: real, y: real)
    requires y != 0.0
    ensures x / y * y == x
  {
  }

  /** Without history the fallback scores today's value against itself: `Z = 0`. */
  lemma EmptyHistoryScoresZero(cNetToday: real, sqrtFn: real -> real)
    ensures ZFromHistory([], cNetToday, sqrtFn).z == 0.0
  {
  }

  /**
   * `compute_z_rte_like(target, cNetToday, rows, windowDays)`: collect the
   * history, then score today's net consumption against it.
   */
  method ComputeZRteLike(target: int, cNetToday: real, rows: seq<DailyRow>, windowDays: int, sqrtFn: real -> real)
    returns (out: ZOutcome)
    ensures out == ZFromHistory(HistoryValues(rows, target, windowDays), cNetToday, sqrtFn)
    ensures out.branch == SmallSample <==> |HistoryValues(rows, target, windowDays)| < 3
  {
    var history := CollectHistory(rows, target, windowDays);
    out := ZFromHistory(history, cNetToday, sqrtFn);
  }
}
