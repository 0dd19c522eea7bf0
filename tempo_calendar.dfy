/**
 * The Tempo calendar: the Tempo year (1 September to 31 August), the red
 * season (1 November to 31 March), which colours a day may take, the
 * red-eligible days left in a season and the target curve of red days used.
 */
module TempoCalendar {
  import opened Dates
  import opened Holidays

  datatype Color = Bleu | Blanc | Rouge

  const RedTotal: int := 22
  const WhiteTotal: int := 43
  const BlueTotal: int := 300

  // ---------------------------------------------------------------------------
  // Tempo year

  /** `tempo_year_start`: the 1 September on or before `d`. */
  function TempoYearStart(d: Date): (s: Date)
    ensures s.month == 9 && s.day == 1
    ensures Ordinal(s) <= Ordinal(d) < Ordinal(Civil(s.year + 1, 9, 1))
  {
    var s: Date := Civil(d.year, 9, 1);
    var prev: Date := Civil(d.year - 1, 9, 1);
    var next: Date := Civil(d.year + 1, 9, 1);
    OrdinalOrder(d, s);
    OrdinalOrder(prev, d);
    OrdinalOrder(d, next);
    if !LexLess(d, s) then s else prev
  }

  /** `tempo_year_end_inclusive`: the 31 August that closes `d`'s Tempo year. */
  function TempoYearEndInclusive(d: Date): (e: Date)
    ensures e.month == 8 && e.day == 31 && e.year == TempoYearStart(d).year + 1
    ensures Ordinal(d) <= Ordinal(e)
    ensures Ordinal(e) + 1 == Ordinal(Civil(e.year, 9, 1))
  {
    var start := TempoYearStart(d);
    Civil(start.year + 1, 8, 31)
  }

  /** A Tempo year has 365 days, or 366 when the February it contains has 29. */
  lemma TempoYearLength(d: Date)
    ensures DaysBetween(TempoYearStart(d), TempoYearEndInclusive(d)) + 1
            == if IsLeap(TempoYearStart(d).year + 1) then 366 else 365
  {
    YearStep(TempoYearStart(d).year);
  }

  /** `day_index`: 1-based position of `d` in its Tempo year. */
  function DayIndex(d: Date): (j: int)
    ensures 1 <= j <= 366
    ensures j == 1 <==> d.month == 9 && d.day == 1
  {
    var s := TempoYearStart(d);
    TempoYearLength(d);
    OrdinalOrder(s, d);
    DaysBetween(s, d) + 1
  }

  // ---------------------------------------------------------------------------
  // Red season

  /** Months in which red may be placed. */
  predicate InRedMonths(m: int) {
    m == 11 || m == 12 || m == 1 || m == 2 || m == 3
  }

  /**
   * `red_season_bounds`: the 1 November and 31 March of the season `d` belongs
   * to, or of the season that ended before it (April to October).
   */
  function RedSeasonBounds(d: Date): (b: (Date, Date))
    ensures b.0.month == 11 && b.0.day == 1 && b.1.month == 3 && b.1.day == 31
    ensures b.1.year == b.0.year + 1
    ensures InRedMonths(d.month) ==> Ordinal(b.0) <= Ordinal(d) <= Ordinal(b.1)
    ensures !InRedMonths(d.month) ==> Ordinal(b.1) < Ordinal(d)
  {
    var b: (Date, Date) :=
      if d.month >= 11 then (Civil(d.year, 11, 1), Civil(d.year + 1, 3, 31))
      else (Civil(d.year - 1, 11, 1), Civil(d.year, 3, 31));
    OrdinalOrder(b.0, d);
    OrdinalOrder(d, b.1);
    b
  }
  // ---------------------------------------------------------------------------
  // Calendar gate

  /**
   * `allowed(color, d)`: blue every day, white every day but Sunday, red only
   * on working days that are not public holidays, from November to March.
   */
  predicate Allowed(color: Color, d: Date)
    ensures color == Bleu ==> Allowed(color, d)
    ensures color == Blanc ==> (Allowed(color, d) <==> Weekday(d) != 6)
    ensures color == Rouge && Allowed(color, d) ==>
      Weekday(d) < 5 && !IsPublicHoliday(d) && (d.month >= 11 || d.month <= 3)
  {
    match color
    case Rouge => Weekday(d) < 5 && !IsPublicHoliday(d) && InRedMonths(d.month)
    case Blanc => Weekday(d) != 6
    case Bleu => true
  }

  /** Red days are white-allowed days, and blue is allowed everywhere: the colours are nested. */
  lemma AllowedNested(d: Date)
    ensures Allowed(Rouge, d) ==> Allowed(Blanc, d)
    ensures Allowed(Blanc, d) ==> Allowed(Bleu, d)
    ensures !Allowed(Blanc, d) <==> Weekday(d) == 6
    ensures Weekday(d) >= 5 || !InRedMonths(d.month) || IsPublicHoliday(d) ==> !Allowed(Rouge, d)
  {
  }

  /** Red-allowed days from `from` to `to`, both included; the count the loop below computes. */
  function RedEligibleIn(from: Date, to: Date): nat
    decreases Ordinal(to) - Ordinal(from) + 1
  {
    if Ordinal(to) < Ordinal(from) then 0
    else (if Allowed(Rouge, from) then 1 else 0) + RedEligibleIn(NextDay(from), to)
  }

  /** No more eligible days than days in the range, and none in an empty range. */
  lemma {:induction false} RedEligibleBound(from: Date, to: Date)
    ensures RedEligibleIn(from, to) <= if Ordinal(to) < Ordinal(from) then 0 else Ordinal(to) - Ordinal(from) + 1
    decreases Ordinal(to) - Ordinal(from) + 1
  {
    if Ordinal(to) >= Ordinal(from) {
      RedEligibleBound(NextDay(from), to);
    }
  }

  /** A range that holds no red month has no eligible day. */
  lemma {:induction false} RedEligibleOutsideSeason(from: Date, to: Date)
    requires forall k :: 0 <= k <= Ordinal(to) - Ordinal(from) ==> !InRedMonths(AddDays(from, k).month)
    ensures RedEligibleIn(from, to) == 0
    decreases Ordinal(to) - Ordinal(from) + 1
  {
    if Ordinal(to) >= Ordinal(from) {
      assert AddDays(from, 0) == from;
      forall k | 0 <= k <= Ordinal(to) - Ordinal(NextDay(from))
        ensures !InRedMonths(AddDays(NextDay(from), k).month)
      {
        assert AddDays(from, k + 1) == AddDays(NextDay(from), k);
      }
      RedEligibleOutsideSeason(NextDay(from), to);
    }
  }

  /** `count_red_eligible_days_left`: red-allowed days from `startDate` to `endDate`, both included. */
  method CountRedEligibleDaysLeft(startDate: Date, endDate: Date) returns (n: int)
    ensures n == RedEligibleIn(startDate, endDate)
  {
    if Ordinal(endDate) < Ordinal(startDate) {
      return 0;
    }
    n := 0;
    var d := startDate;
    while Ordinal(d) <= Ordinal(endDate)
      invariant Ordinal(startDate) <= Ordinal(d) <= Ordinal(endDate) + 1
      invariant n + RedEligibleIn(d, endDate) == RedEligibleIn(startDate, endDate)
      decreases Ordinal(endDate) - Ordinal(d) + 1
    {
      if Allowed(Rouge, d) {
        n := n + 1;
      }
      d := NextDay(d);
    }
  }

  // ---------------------------------------------------------------------------
  // Target curve of red days used

  /** The local `lerp` of `red_target_used_fraction`, on ordinals. */
  function Lerp(o: int, a: int, b: int, av: real, bv: real): real {
    if o <= a then av
    else if o >= b then bv
    else
      var t := (o - a) as real / (if b - a > 1 then b - a else 1) as real;
      av + t * (bv - av)
  }

  /** The interpolation stays between its end values. */
  lemma LerpRange(o: int, a: int, b: int, av: real, bv: real)
    requires av <= bv
    ensures av <= Lerp(o, a, b, av, bv) <= bv
  {
    if a < o < b {
      var t := (o - a) as real / (b - a) as real;
      DivBetween((o - a) as real, (b - a) as real);
      assert 0.0 <= t <= 1.0;
      assert t * (bv - av) <= bv - av;
    }
  }

  lemma DivBetween(x: real, l: real)
    requires 0.0 <= x <= l && l > 0.0
    ensures 0.0 <= x / l <= 1.0
  {
  }

  lemma DivMonotone(x: real, y: real, l: real)
    requires x <= y && l > 0.0
    ensures x / l <= y / l
  {
    assert y / l - x / l == (y - x) / l;
  }

  /** The interpolation does not decrease as the date moves forward. */
  lemma LerpMonotone(o1: int, o2: int, a: int, b: int, av: real, bv: real)
    requires av <= bv && o1 <= o2
    ensures Lerp(o1, a, b, av, bv) <= Lerp(o2, a, b, av, bv)
  {
    LerpRange(o1, a, b, av, bv);
    LerpRange(o2, a, b, av, bv);
    if a < o1 && o2 < b {
      var l := (b - a) as real;
      DivMonotone((o1 - a) as real, (o2 - a) as real, l);
      var t1 := (o1 - a) as real / l;
      var t2 := (o2 - a) as real / l;
      assert t1 * (bv - av) <= t2 * (bv - av);
    }
  }

  /**
   * The piecewise-linear curve through the anchors `(a0, 0)`, `(a1, 0.05)`,
   * `(a2, 0.65)`, `(a3, 0.95)` and `(a4, 1)`, on day numbers.
   */
  function TargetCurve(o: int, a0: int, a1: int, a2: int, a3: int, a4: int): real {
    if o <= a1 then Lerp(o, a0, a1, 0.00, 0.05)
    else if o <= a2 then Lerp(o, a1, a2, 0.05, 0.65)
    else if o <= a3 then Lerp(o, a2, a3, 0.65, 0.95)
    else Lerp(o, a3, a4, 0.95, 1.00)
  }

  lemma TargetCurveRange(o: int, a0: int, a1: int, a2: int, a3: int, a4: int)
    requires a1 <= a2 <= a3
    ensures 0.0 <= TargetCurve(o, a0, a1, a2, a3, a4) <= 1.0
    ensures o <= a1 ==> TargetCurve(o, a0, a1, a2, a3, a4) <= 0.05
    ensures a1 < o ==> 0.05 <= TargetCurve(o, a0, a1, a2, a3, a4)
    ensures o <= a2 ==> TargetCurve(o, a0, a1, a2, a3, a4) <= 0.65
    ensures a2 < o ==> 0.65 <= TargetCurve(o, a0, a1, a2, a3, a4)
    ensures o <= a3 ==> TargetCurve(o, a0, a1, a2, a3, a4) <= 0.95
    ensures a3 < o ==> 0.95 <= TargetCurve(o, a0, a1, a2, a3, a4)
  {
    LerpRange(o, a0, a1, 0.00, 0.05);
    LerpRange(o, a1, a2, 0.05, 0.65);
    LerpRange(o, a2, a3, 0.65, 0.95);
    LerpRange(o, a3, a4, 0.95, 1.00);
  }

  lemma TargetCurveMonotone(o: int, o': int, a0: int, a1: int, a2: int, a3: int, a4: int)
    requires a1 <= a2 <= a3 && o <= o'
    ensures TargetCurve(o, a0, a1, a2, a3, a4) <= TargetCurve(o', a0, a1, a2, a3, a4)
  {
    TargetCurveRange(o, a0, a1, a2, a3, a4);
    TargetCurveRange(o', a0, a1, a2, a3, a4);
    if o' <= a1 {
      LerpMonotone(o, o', a0, a1, 0.00, 0.05);
    } else if o' <= a2 {
      if a1 < o { LerpMonotone(o, o', a1, a2, 0.05, 0.65); }
    } else if o' <= a3 {
      if a2 < o { LerpMonotone(o, o', a2, a3, 0.65, 0.95); }
    } else {
      if a3 < o { LerpMonotone(o, o', a3, a4, 0.95, 1.00); }
    }
  }

  /** The day numbers of the anchors of the season of `d`: 1 November, 10 December, 31 January, 20 February and 31 March. */
  datatype Anchors = Anchors(a0: int, a1: int, a2: int, a3: int, a4: int)

  function SeasonAnchors(d: Date): (a: Anchors)
    ensures a.a0 < a.a1 < a.a2 < a.a3 < a.a4
  {
    AnchorsOfSeason(RedSeasonBounds(d).0.year)
  }

  /** The anchor dates of the season starting in year `y`: 1 November, 10 December, 31 January, 20 February and 31 March. */
  function AnchorDates(y: int): (ds: seq<Date>)
    ensures |ds| == 5
  {
    [Civil(y, 11, 1), Civil(y, 12, 10), Civil(y + 1, 1, 31), Civil(y + 1, 2, 20), Civil(y + 1, 3, 31)]
  }

  /** The anchors of the season starting on 1 November of year `y`. */
  function AnchorsOfSeason(y: int): (a: Anchors)
    ensures a.a0 < a.a1 < a.a2 < a.a3 < a.a4
  {
    var ds := AnchorDates(y);
    OrdinalMonotone(ds[0], ds[1]);
    OrdinalMonotone(ds[1], ds[2]);
    OrdinalMonotone(ds[2], ds[3]);
    OrdinalMonotone(ds[3], ds[4]);
    Anchors(Ordinal(ds[0]), Ordinal(ds[1]), Ordinal(ds[2]), Ordinal(ds[3]), Ordinal(ds[4]))
  }

  /**
   * `red_target_used_fraction`: the share of the red quota that should be used
   * by `d`: 0 at 1 November, 5% at 10 December, 65% at 31 January, 95% at
   * 20 February and 100% at 31 March, linear in between.
   */
  function RedTargetUsedFraction(d: Date): (f: real)
    ensures 0.0 <= f <= 1.0
  {
    var a := SeasonAnchors(d);
    TargetCurveRange(Ordinal(d), a.a0, a.a1, a.a2, a.a3, a.a4);
    TargetCurve(Ordinal(d), a.a0, a.a1, a.a2, a.a3, a.a4)
  }

  /** The curve passes through its anchors. */
  lemma RedTargetAnchors(y: int)
    ensures RedTargetUsedFraction(AnchorDates(y)[0]) == 0.0
    ensures RedTargetUsedFraction(AnchorDates(y)[1]) == 0.05
    ensures RedTargetUsedFraction(AnchorDates(y)[2]) == 0.65
    ensures RedTargetUsedFraction(AnchorDates(y)[3]) == 0.95
    ensures RedTargetUsedFraction(AnchorDates(y)[4]) == 1.0
  {
    var ds := AnchorDates(y);
    var a := AnchorsOfSeason(y);
    assert RedSeasonBounds(ds[0]).0.year == RedSeasonBounds(ds[1]).0.year == y;
    assert RedSeasonBounds(ds[2]).0.year == RedSeasonBounds(ds[3]).0.year == RedSeasonBounds(ds[4]).0.year == y;
    CurveAtAnchors(a);
  }

  /** The curve takes its anchor values at the anchors. */
  lemma CurveAtAnchors(a: Anchors)
    requires a.a0 < a.a1 < a.a2 < a.a3 < a.a4
    ensures TargetCurve(a.a0, a.a0, a.a1, a.a2, a.a3, a.a4) == 0.0
    ensures TargetCurve(a.a1, a.a0, a.a1, a.a2, a.a3, a.a4) == 0.05
    ensures TargetCurve(a.a2, a.a0, a.a1, a.a2, a.a3, a.a4) == 0.65
    ensures TargetCurve(a.a3, a.a0, a.a1, a.a2, a.a3, a.a4) == 0.95
    ensures TargetCurve(a.a4, a.a0, a.a1, a.a2, a.a3, a.a4) == 1.0
  {
  }

  /** Within one season the target only grows as the date moves forward. */
  lemma RedTargetMonotone(d: Date, d': Date)
    requires RedSeasonBounds(d) == RedSeasonBounds(d')
    requires Ordinal(d) <= Ordinal(d')
    ensures RedTargetUsedFraction(d) <= RedTargetUsedFraction(d')
  {
    var a := SeasonAnchors(d);
    assert SeasonAnchors(d') == a;
    TargetCurveMonotone(Ordinal(d), Ordinal(d'), a.a0, a.a1, a.a2, a.a3, a.a4);
  }
}
