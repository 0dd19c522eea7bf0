/**
 * The first half of `decide_color_with_probs`: raw scores for blue, white and
 * red, built from the day's tension `Z`, the calendar and the remaining stocks,
 * then turned into probabilities. Each step of the source is one function
 * here, applied in the source's order by `Scorer.DecideColorWithProbs`.
 */
module RawScores {
  import opened Wrappers
  import opened Dates
  import opened Holidays
  import opened TempoCalendar
  import opened Transforms

  const ZWhiteExpansion: real := 0.30
  const WhiteMidzoneBoost: real := 1.2
  const BlueMidzonePenalty: real := 0.85

  /** The arguments of one call of the scorer: the day, its `Z`, its index in the Tempo year and the three stocks. */
  datatype Day = Day(d: Date, z: Option<real>, j: int, redRem: int, whiteRem: int, blueRem: int)

  function Wd(x: Day): int { Weekday(x.d) }

  /** `allowed_red`: the calendar allows red and some red stock is left. */
  predicate RedOk(x: Day) { Allowed(Rouge, x.d) && x.redRem > 0 }

  /** `allowed_white`: the calendar allows white and some white stock is left. */
  predicate WhiteOk(x: Day) { Allowed(Blanc, x.d) && x.whiteRem > 0 }

  /** `s_br_adj`: the blue/white cut-off, lowered to widen the white zone. */
  function SBrAdj(x: Day): real { Thresholds(x.j, x.redRem, x.whiteRem).0 - ZWhiteExpansion }

  /** `s_r_adj`: the white/red cut-off. */
  function SR(x: Day): real { Thresholds(x.j, x.redRem, x.whiteRem).1 }

  /** `coeur_hiver`: 10 December to 20 February. */
  predicate CoreWinter(d: Date) {
    (d.month == 12 && d.day >= 10) || d.month == 1 || (d.month == 2 && d.day <= 20)
  }

  /** Scores the probabilities are later taken from: blue positive, white and red non-negative. */
  predicate PositiveScores(s: Probs) {
    s.b > 0.0 && s.w >= 0.0 && s.r >= 0.0
  }

  /** The starting scores, shifted towards white and red on working days of the core winter. */
  function InitialScores(x: Day): (s: Probs)
    ensures PositiveScores(s) && s.Sum() == 1.0
    ensures s.b > s.w && s.b > s.r
    ensures s.r > 0.0 <==> CoreWinter(x.d) && Wd(x) < 5 && !IsPublicHoliday(x.d)
  {
    if CoreWinter(x.d) && Wd(x) < 5 && !IsPublicHoliday(x.d) then Probs(0.6, 0.25, 0.15)
    else Probs(0.9, 0.1, 0.0)
  }

  /**
   * The raw scoring by zone of `Z`: below `s_br_adj` blue gains, between the
   * cut-offs white gains most, above `s_r_adj` white and red gain. A colour
   * that is not allowed gains nothing.
   */
  function ZoneScores(x: Day, s: Probs): (q: Probs)
    ensures x.z.None? ==> q == s
    ensures PositiveScores(s) ==> PositiveScores(q)
    ensures !RedOk(x) ==> q.r == s.r
    ensures !WhiteOk(x) ==> q.w == s.w
    ensures x.z.Some? && x.z.value < SBrAdj(x) ==> q.b > s.b && q.r == s.r
    ensures x.z.Some? && SBrAdj(x) <= x.z.value && WhiteOk(x) ==> q.w > s.w
    ensures x.z.Some? && x.z.value >= SBrAdj(x) && x.z.value >= SR(x) && RedOk(x) ==> q.r > s.r
  {
    match x.z
    case None => s
    case Some(z) =>
      var sbr, sr := SBrAdj(x), SR(x);
      if z < sbr then
        s.(b := s.b + (sbr - z) * 0.8,
           w := if WhiteOk(x) then s.w + Max(0.0, z - (sbr - 1.5)) * 0.4 else s.w)
      else if z < sr then
        s.(b := s.b + Max(0.0, sr - z) * 0.25,
           w := if WhiteOk(x) then s.w + 0.45 + (z - sbr) * 0.85 else s.w,
           r := if RedOk(x) then s.r + Max(0.0, z - (sr - 0.5)) * 0.5 else s.r)
      else
        s.(w := if WhiteOk(x) then s.w + 0.4 + Max(0.0, z - sbr) * 0.55 else s.w,
           r := if RedOk(x) then s.r + 0.35 + Max(0.0, z - sr) * 1.0 else s.r,
           b := s.b + Max(0.0, (sr + 1.0) - z) * 0.25)
  }

  /** Effect B: in the middle zone, when white is allowed, white is boosted and blue slightly penalised. */
  function MidzoneEffect(x: Day, s: Probs): (q: Probs)
    ensures PositiveScores(s) ==> PositiveScores(q)
    ensures q.r == s.r
    ensures x.z.Some? && SBrAdj(x) <= x.z.value < SR(x) && WhiteOk(x) ==>
      q.w == 1.2 * s.w && q.b == 0.85 * s.b
    ensures x.z.Some? && SBrAdj(x) <= x.z.value < SR(x) && WhiteOk(x) && PositiveScores(s) ==>
      q.w >= s.w && q.b < s.b
    ensures !(x.z.Some? && SBrAdj(x) <= x.z.value < SR(x) && WhiteOk(x)) ==> q == s
  {
    if x.z.Some? && SBrAdj(x) <= x.z.value < SR(x) && WhiteOk(x) then
      s.(w := s.w * WhiteMidzoneBoost, b := s.b * BlueMidzonePenalty)
    else s
  }

  /**
   * Outside the core winter, for a moderate `Z` and almost no red, white closes
   * 35% of its gap to blue; it never passes blue.
   */
  function OffWinterWhiteBoost(x: Day, s: Probs): (q: Probs)
    ensures PositiveScores(s) ==> PositiveScores(q)
    ensures q.b == s.b && q.r == s.r
    ensures s.w <= q.w <= Max(s.w, s.b)
    ensures q.w > s.w <==>
      x.z.Some? && !CoreWinter(x.d) && 0.3 <= x.z.value <= 1.0 && s.r < 0.15 && WhiteOk(x) && s.w < s.b
  {
    if x.z.Some? && !CoreWinter(x.d) && 0.3 <= x.z.value <= 1.0 && s.r < 0.15 && WhiteOk(x) && s.w < s.b then
      s.(w := s.w + (s.b - s.w) * 0.35)
    else s
  }

  /** The strict calendar and stock gate: a colour that is not allowed scores zero. */
  function CalendarGate(x: Day, s: Probs): (q: Probs)
    ensures PositiveScores(s) ==> PositiveScores(q)
    ensures q.b == s.b
    ensures q.r == (if RedOk(x) then s.r else 0.0)
    ensures q.w == (if WhiteOk(x) then s.w else 0.0)
  {
    s.(r := if RedOk(x) then s.r else 0.0, w := if WhiteOk(x) then s.w else 0.0)
  }

  // ---------------------------------------------------------------------------
  // The EDF-like red factor

  /** The seasonal profile of red days: weak in November, early December and late March. */
  function SeasonalRedFactor(d: Date): (f: real)
    ensures 0.4 <= f <= 1.05
    ensures !InRedMonths(d.month) ==> f == 1.0
    ensures f > 1.0 <==> d.month == 1 || d.month == 2
  {
    if d.month == 11 then 0.7
    else if d.month == 12 then (if d.day < 10 then 0.5 else if d.day < 20 then 0.7 else 1.0)
    else if d.month == 1 || d.month == 2 then 1.05
    else if d.month == 3 then (if d.day <= 15 then 0.7 else 0.4)
    else 1.0
  }

  /** Red days that should still be left by the target curve: `max(0, 22 - 22 * frac)`. */
  function ExpectedRedRemaining(frac: real): (e: real)
    ensures e >= 0.0
    ensures 0.0 <= frac <= 1.0 ==> e == 22.0 * (1.0 - frac)
  {
    Max(0.0, RedTotal as real - RedTotal as real * frac)
  }

  /**
   * `delta_pressure`: red days to place per eligible day left, minus what the
   * target curve calls for; at least 0.20 when more red days are left than
   * eligible days (`eligible` is already floored at 1).
   */
  function PressureDelta(redRem: int, eligible: int, frac: real): (delta: real)
    requires eligible >= 1
    ensures redRem > eligible ==> delta >= 0.20
    ensures redRem as real > ExpectedRedRemaining(frac) ==> delta > 0.0
    ensures redRem <= eligible ==>
      (delta < 0.0 <==> redRem as real < ExpectedRedRemaining(frac))
  {
    var el := eligible as real;
    var delta := redRem as real / el - ExpectedRedRemaining(frac) / el;
    assert delta == (redRem as real - ExpectedRedRemaining(frac)) / el;
    if redRem > eligible then Max(delta, 0.20) else delta
  }

  /** More red stock means more pressure, all else equal. */
  lemma PressureDeltaMonotone(r1: int, r2: int, eligible: int, frac: real)
    requires eligible >= 1 && r1 <= r2
    ensures PressureDelta(r1, eligible, frac) <= PressureDelta(r2, eligible, frac)
  {
    var el := eligible as real;
    var e := ExpectedRedRemaining(frac);
    var d1, d2 := r1 as real / el - e / el, r2 as real / el - e / el;
    assert d1 <= d2 by {
      DivMonotone(r1 as real - e, r2 as real - e, el);
      assert d1 == (r1 as real - e) / el;
      assert d2 == (r2 as real - e) / el;
    }
    assert PressureDelta(r1, eligible, frac) == if r1 > eligible then Max(d1, 0.20) else d1;
    assert PressureDelta(r2, eligible, frac) == if r2 > eligible then Max(d2, 0.20) else d2;
  }

  /** `debut_saison`: November and the first nine days of December. */
  predicate SeasonStart(d: Date) { d.month == 11 || (d.month == 12 && d.day < 10) }

  /** `coeur_hiver_local`: 10 December to 15 February (narrower than `coeur_hiver`). */
  predicate CoreWinterLocal(d: Date) {
    (d.month == 12 && d.day >= 10) || ((d.month == 1 || d.month == 2) && d.day <= 15)
  }

  /** `fin_saison_local`: from 20 February to the end of March. */
  predicate SeasonEnd(d: Date) { (d.month == 2 && d.day >= 20) || d.month == 3 }

  /**
   * The period adjustment of the red factor. A small pressure gap leaves it
   * alone; only lateness raises it; the start of the season is calmed even
   * when late.
   */
  function PeriodFactor(d: Date, delta: real): (f: real)
    ensures 0.7 <= f <= 1.35
    ensures -0.03 <= delta <= 0.02 ==> f == 1.0
    ensures f > 1.0 ==> delta > 0.02 && !SeasonStart(d)
    ensures f < 1.0 ==> delta < -0.03 || (SeasonStart(d) && delta > 0.03)
  {
    if SeasonStart(d) then (if delta > 0.03 then 0.70 else if delta < -0.03 then 0.85 else 1.0)
    else if CoreWinterLocal(d) then (if delta > 0.03 then 1.25 else if delta < -0.03 then 0.80 else 1.0)
    else if SeasonEnd(d) then (if delta > 0.02 then 1.35 else if delta < -0.03 then 0.85 else 1.0)
    else (if delta > 0.04 then 1.08 else if delta < -0.04 then 0.92 else 1.0)
  }

  /** Half the red factor when fewer than four red days are left, except in January and February. */
  function LowStockFactor(d: Date, redRem: int): (f: real)
    ensures f == 0.5 || f == 1.0
    ensures f == 0.5 <==> redRem < 4 && d.month != 1 && d.month != 2
  {
    if redRem < 4 && d.month != 1 && d.month != 2 then 0.5 else 1.0
  }

  /** `edf_red_factor`: the product of the seasonal, period and low-stock factors, for a pressure gap `delta`. */
  function EdfRedFactor(d: Date, redRem: int, delta: real): (f: real)
    ensures f > 0.0
  {
    var f1 := SeasonalRedFactor(d) * PeriodFactor(d, delta);
    MulPositive(SeasonalRedFactor(d), PeriodFactor(d, delta));
    MulPositive(f1, LowStockFactor(d, redRem));
    f1 * LowStockFactor(d, redRem)
  }

  lemma ScaleKeepsSign(x: real, f: real)
    requires f > 0.0
    ensures x >= 0.0 ==> x * f >= 0.0
    ensures x == 0.0 <==> x * f == 0.0
  {
    if x >= 0.0 {
      MulNonneg(x, f);
    }
  }

  lemma MulPositive(x: real, y: real)
    requires x > 0.0 && y > 0.0
    ensures x * y > 0.0
  {
  }

  /** The red score scaled by the EDF-like factor. */
  function ApplyRedFactor(s: Probs, f: real): (q: Probs)
    requires f > 0.0
    ensures PositiveScores(s) ==> PositiveScores(q)
    ensures q.b == s.b && q.w == s.w
    ensures s.r == 0.0 <==> q.r == 0.0
  {
    ScaleKeepsSign(s.r, f);
    s.(r := s.r * f)
  }

  /** Saturday: never red in the decision. */
  function SaturdayNoRed(x: Day, s: Probs): (q: Probs)
    ensures PositiveScores(s) ==> PositiveScores(q)
    ensures q.b == s.b && q.w == s.w
    ensures q.r == (if Wd(x) == 5 then 0.0 else s.r)
  {
    if Wd(x) == 5 then s.(r := 0.0) else s
  }

  /** Blue days that should still be left by `d` on a straight line over the Tempo year. */
  function ExpectedBlueRemaining(d: Date, total: int): real
    requires total > 0
  {
    var progress := DaysBetween(TempoYearStart(d), d) as real / total as real;
    BlueTotal as real - BlueTotal as real * progress
  }

  /** The length of `d`'s Tempo year, 1 September to 31 August. */
  function TempoDays(d: Date): (n: int)
    ensures n == 365 || n == 366
  {
    TempoYearLength(d);
    DaysBetween(TempoYearStart(d), TempoYearEndInclusive(d)) + 1
  }

  /** The blue score rises by 8% when more than 20 blue days are in excess of the straight line, and falls by 12% when more than 20 are missing. */
  function BlueStockBias(x: Day, s: Probs): (q: Probs)
    ensures PositiveScores(s) ==> PositiveScores(q)
    ensures q.w == s.w && q.r == s.r
    ensures s.b > 0.0 ==>
      (q.b > s.b <==> x.blueRem as real - ExpectedBlueRemaining(x.d, TempoDays(x.d)) > 20.0)
      && (q.b < s.b <==> x.blueRem as real - ExpectedBlueRemaining(x.d, TempoDays(x.d)) < -20.0)
  {
    var total := TempoDays(x.d);
    if total > 0 then
      var deltaBlue := x.blueRem as real - ExpectedBlueRemaining(x.d, total);
      if deltaBlue > 20.0 then s.(b := s.b * 1.08)
      else if deltaBlue < -20.0 then s.(b := s.b * 0.88)
      else s
    else s
  }

  /**
   * Patch 1 on the scores: for `Z` between `s_br_adj + 0.3` and `s_r_adj`,
   * white that trails blue is lifted just above it.
   */
  function WhiteReinforcement(x: Day, s: Probs): (q: Probs)
    ensures PositiveScores(s) ==> PositiveScores(q)
    ensures q.b == s.b && q.r == s.r && q.w >= s.w
    ensures x.z.Some? && WhiteOk(x) && SBrAdj(x) + 0.3 <= x.z.value < SR(x) && s.w < s.b ==>
      s.b < q.w <= s.b + 0.08
    ensures q != s ==> x.z.Some? && WhiteOk(x) && SBrAdj(x) + 0.3 <= x.z.value < SR(x) && s.w < s.b
  {
    match x.z
    case None => s
    case Some(z) =>
      if WhiteOk(x) && z >= SBrAdj(x) + 0.3 && z < SR(x) && s.w < s.b then
        var delta := Min(0.08, Max(0.0, SR(x) - z) * 0.05);
        s.(w := Max(s.w, s.b + delta))
      else s
  }

  /**
   * Patch 2 on the scores: in the last 0.12 below `s_r_adj`, red that trails
   * white is raised to between 45% and 55% of white; never above white.
   */
  function RedAwakening(x: Day, s: Probs): (q: Probs)
    ensures PositiveScores(s) ==> PositiveScores(q)
    ensures q.b == s.b && q.w == s.w && q.r >= s.r
    ensures s.w >= 0.0 ==> q.r <= Max(s.r, s.w)
    ensures !RedOk(x) ==> q == s
    ensures AwakeningDay(x, s) ==> q.r == Max(s.r, s.w * (0.45 + 0.55 * AwakeningProgress(x)))
    ensures !AwakeningDay(x, s) ==> q == s
  {
    if AwakeningDay(x, s) then s.(r := Awakened(s.r, s.w, AwakeningProgress(x)))
    else s
  }

  /** How far `Z` has gone through the last 0.12 below `s_r_adj`: `(z - start) / max(1e-6, s_r_adj - start)`. */
  function AwakeningProgress(x: Day): (t: real)
    requires x.z.Some? && SR(x) - 0.12 <= x.z.value < SR(x)
    ensures t == (x.z.value - (SR(x) - 0.12)) / 0.12
    ensures 0.0 <= t <= 1.0
  {
    var start := SR(x) - 0.12;
    var den := Max(0.000001, SR(x) - start);
    assert den == 0.12;
    DivBetween(x.z.value - start, den);
    (x.z.value - start) / den
  }

  /** The guard of the red awakening: red allowed, `Z` in the last 0.12 below `s_r_adj`, red behind white. */
  predicate AwakeningDay(x: Day, s: Probs) {
    x.z.Some? && RedOk(x) && SR(x) - 0.12 <= x.z.value < SR(x) && s.r < s.w
  }

  /** Red raised to `0.45 + 0.55 t` of white, for `t` between 0 and 1. */
  function Awakened(r: real, w: real, t: real): (r': real)
    requires 0.0 <= t <= 1.0
    ensures r' >= r
    ensures w >= 0.0 ==> r' <= Max(r, w)
  {
    var k := 0.45 + 0.55 * t;
    ScaleAtMostOne(w, k);
    Max(r, w * k)
  }

  lemma ScaleAtMostOne(w: real, k: real)
    requires 0.0 <= k <= 1.0
    ensures w >= 0.0 ==> 0.0 <= w * k <= w
  {
    if w >= 0.0 {
      MulNonneg(w, k);
      MulNonneg(w, 1.0 - k);
    }
  }

  /**
   * Scores to raw probabilities: each score over the total, with a fixed
   * fallback when the total is not positive. Positive scores never reach the
   * fallback.
   */
  function ToProbabilities(s: Probs): (p: Probs)
    ensures s.Sum() <= 0.0 ==> p == Probs(0.7, 0.2, 0.1)
    ensures PositiveScores(s) ==>
      Distribution(p) && p.b * s.Sum() == s.b && p.w * s.Sum() == s.w && p.r * s.Sum() == s.r
    ensures PositiveScores(s) && s.r == 0.0 ==> p.r == 0.0
  {
    var total := s.Sum();
    if total <= 0.0 then Probs(0.7, 0.2, 0.1)
    else
      Normalise(s.b, s.w, s.r);
      DivTimes(s.b, total);
      DivTimes(s.w, total);
      DivTimes(s.r, total);
      if PositiveScores(s) then
        DivNonneg(s.b, total);
        DivNonneg(s.w, total);
        DivNonneg(s.r, total);
        Probs(s.b / total, s.w / total, s.r / total)
      else Probs(s.b / total, s.w / total, s.r / total)
  }
}
