/** French public holidays, with the Easter computus as `is_french_public_holiday` writes it. */
module Holidays {
  import opened Dates


  /** The date both computus variants end with: day `v - 92` of March, printed as `(v / 31, v % 31 + 1)`. */
  function EasterFromOffset(year: int, v: int): (e: Date)
    requires 113 <= v <= 149
    ensures e.year == year
    ensures (e.month == 3 && 21 <= e.day) || (e.month == 4 && e.day <= 26)
    ensures Ordinal(e) == DaysBeforeYear(year + 1) - 365 + v - 33
  {
    YearStep(year);
    Civil(year, v / 31, v % 31 + 1)
  }

  /** The intermediate quantities `b`, `d`, `g` and `h` of the computus. */
  datatype ComputusTerms = ComputusTerms(b: int, d0: int, g: int, h: int)

  /** `a` to `h` of `is_french_public_holiday`, shared by both computus variants below. */
  function Terms(year: int): (t: ComputusTerms)
    ensures 0 <= t.b < 100 && 0 <= t.d0 < 4 && 0 <= t.g < 30 && 0 <= t.h <= 1
  {
    var a := year / 100;
    var b := year % 100;
    var c := (3 * (a + 25)) / 4;
    var d0 := (3 * (a + 25)) % 4;
    var e := (8 * (a + 11)) / 25;
    var f := (5 * a + b) % 19;
    var g := (19 * f + c - e) % 30;
    var h := (f + 11 * g) / 319;
    ComputusTerms(b, d0, g, h)
  }

  /**
   * The quantity `g - h + m + 114` exactly as `is_french_public_holiday`
   * computes it: `j` is the remainder and `k` the quotient of `60 * (5 - d) + b`
   * by 4, and `m = (2j + k - g - h) mod 7`.
   */
  function AsWrittenOffset(year: int): (v: int)
    ensures 113 <= v <= 149
  {
    var t := Terms(year);
    var j := (60 * (5 - t.d0) + t.b) % 4;
    var k := (60 * (5 - t.d0) + t.b) / 4;
    var m := (2 * j + k - t.g - t.h) % 7;
    t.g - t.h + m + 114
  }

  /** The Easter Sunday `is_french_public_holiday` derives its movable holidays from, as the code computes it. */
  function EasterAsWritten(year: int): (e: Date)
    ensures e.year == year
    ensures (e.month == 3 && 21 <= e.day) || (e.month == 4 && e.day <= 26)
  {
    EasterFromOffset(year, AsWrittenOffset(year))
  }

  /**
   * Reference: the published compact Gregorian computus the code follows, with
   * `j` the quotient and `k` the remainder, and `m = (2j - k - g + h) mod 7`.
   */
  function CorrectedOffset(year: int): (v: int)
    ensures 113 <= v <= 149
  {
    var t := Terms(year);
    var j := (60 * (5 - t.d0) + t.b) / 4;
    var k := (60 * (5 - t.d0) + t.b) % 4;
    var m := (2 * j - k - t.g + t.h) % 7;
    t.g - t.h + m + 114
  }

  function CorrectedEaster(year: int): (e: Date)
    ensures e.year == year
    ensures (e.month == 3 && 21 <= e.day) || (e.month == 4 && e.day <= 26)
  {
    EasterFromOffset(year, CorrectedOffset(year))
  }

  /** In 2024 the formula as written yields Saturday 30 March; Easter fell on Sunday 31 March. */
  lemma EasterAsWrittenMisses2024()
    ensures EasterAsWritten(2024) == Civil(2024, 3, 30) && Weekday(EasterAsWritten(2024)) == 5
    ensures CorrectedEaster(2024) == Civil(2024, 3, 31) && Weekday(CorrectedEaster(2024)) == 6
  {
    assert 2024 / 100 == 20 && 2024 % 100 == 24;
    assert (3 * (20 + 25)) / 4 == 33 && (3 * (20 + 25)) % 4 == 3;
    assert (8 * (20 + 11)) / 25 == 9 && (5 * 20 + 24) % 19 == 10;
    assert (19 * 10 + 33 - 9) % 30 == 4 && (10 + 11 * 4) / 319 == 0;
    assert Terms(2024) == ComputusTerms(24, 3, 4, 0);
    assert 144 % 4 == 0 && 144 / 4 == 36;
    assert 32 % 7 == 4 && 68 % 7 == 5;
    assert AsWrittenOffset(2024) == 122;
    assert CorrectedOffset(2024) == 123;
    assert 122 / 31 == 3 && 122 % 31 == 29 && 123 / 31 == 3 && 123 % 31 == 30;
  }

  /** In 2025 the formula as written yields Tuesday 15 April; Easter fell on Sunday 20 April. */
  lemma EasterAsWrittenMisses2025()
    ensures EasterAsWritten(2025) == Civil(2025, 4, 15) && Weekday(EasterAsWritten(2025)) == 1
    ensures CorrectedEaster(2025) == Civil(2025, 4, 20) && Weekday(CorrectedEaster(2025)) == 6
  {
    assert 2025 / 100 == 20 && 2025 % 100 == 25;
    assert (3 * (20 + 25)) / 4 == 33 && (3 * (20 + 25)) % 4 == 3;
    assert (8 * (20 + 11)) / 25 == 9 && (5 * 20 + 25) % 19 == 11;
    assert (19 * 11 + 33 - 9) % 30 == 23 && (11 + 11 * 23) / 319 == 0;
    assert Terms(2025) == ComputusTerms(25, 3, 23, 0);
    assert 145 % 4 == 1 && 145 / 4 == 36;
    assert 15 % 7 == 1 && 48 % 7 == 6;
    assert AsWrittenOffset(2025) == 138;
    assert CorrectedOffset(2025) == 143;
    assert 138 / 31 == 4 && 138 % 31 == 14 && 143 / 31 == 4 && 143 % 31 == 19;
  }

  lemma DivBy4(x: int, q: int, r: int)
    requires x == 4 * q + r && 0 <= r < 4
    ensures x / 4 == q && x % 4 == r
  {
  }

  lemma DivBy100(x: int, q: int, r: int)
    requires x == 100 * q + r && 0 <= r < 100
    ensures x / 100 == q
  {
  }

  lemma DivBy400(x: int, q: int, r: int)
    requires x == 400 * q + r && 0 <= r < 400
    ensures x / 400 == q
  {
  }

  /** The year in the terms the computus uses: `year = 100a + b`, `a = 4u + r`, `b = 4q + s`. */
  lemma YearDigits(year: int, a: int, b: int, u: int, r: int, q: int, s: int)
    requires year == 100 * a + b && 0 <= b < 100
    requires a == 4 * u + r && 0 <= r < 4
    requires b == 4 * q + s && 0 <= s < 4
    ensures DaysBeforeYear(year + 1) == 365 * year + 25 * a + q - a + u
    ensures (3 * (a + 25)) % 4 == 3 - r
    ensures (60 * (2 + r) + b) / 4 == 15 * (2 + r) + q && (60 * (2 + r) + b) % 4 == s
  {
    DivBy4(year, 25 * a + q, s);
    DivBy100(year, a, b);
    DivBy400(year, u, 100 * r + b);
    DivBy4(3 * (a + 25), 3 * u + 18 + r, 3 - r);
    DivBy4(60 * (2 + r) + b, 15 * (2 + r) + q, s);
  }

  lemma SixModSeven(t: int, z: int)
    requires t == 7 * z + 6
    ensures t % 7 == 6
  {
  }

  /** The days before the following year plus the corrected offset leave remainder 6 modulo 7. */
  lemma CorrectedOffsetResidue(year: int)
    ensures (DaysBeforeYear(year + 1) + CorrectedOffset(year)) % 7 == 6
  {
    var t := Terms(year);
    var a := year / 100;
    assert t.b == year % 100 && t.d0 == (3 * (a + 25)) % 4;
    var j := (60 * (5 - t.d0) + t.b) / 4;
    var k := (60 * (5 - t.d0) + t.b) % 4;
    var x := 2 * j - k - t.g + t.h;
    var m := x % 7;
    assert CorrectedOffset(year) == t.g - t.h + m + 114;
    YearDigits(year, a, t.b, a / 4, a % 4, t.b / 4, t.b % 4);
    var w := 20871 * (a / 4) + 5222 * (a % 4) + 209 * (t.b / 4) + 52 * (t.b % 4) + 24;
    assert DaysBeforeYear(year + 1) + 2 * j - k + 114 == 7 * w + 6;
    assert x == 7 * (x / 7) + m;
    SixModSeven(DaysBeforeYear(year + 1) + CorrectedOffset(year), w - x / 7);
  }

  /** The corrected computus always lands on a Sunday, whatever the year. */
  lemma CorrectedEasterIsSunday(year: int)
    ensures Weekday(CorrectedEaster(year)) == 6
  {
    CorrectedOffsetResidue(year);
    var total := DaysBeforeYear(year + 1) + CorrectedOffset(year);
    SixModSeven(Ordinal(CorrectedEaster(year)) + 6, total / 7 - 56);
  }

  /** `is_french_public_holiday`: the eight fixed dates, Easter Monday, Ascension and Whit Monday. */
  predicate IsPublicHoliday(d: Date)
    ensures IsPublicHoliday(d) <==>
      (d.month, d.day) in {(1, 1), (5, 1), (5, 8), (7, 14), (8, 15), (11, 1), (11, 11), (12, 25)}
      || DaysBetween(EasterAsWritten(d.year), d) in {1, 39, 50}
  {
    FixedHoliday(d) || MovableHolidayDate(d)
  }

  /** The eight holidays on a fixed date of the year. */
  predicate FixedHoliday(d: Date) {
    var y := d.year;
    var fixed: set<Date> := {
      Civil(y, 1, 1), Civil(y, 5, 1), Civil(y, 5, 8), Civil(y, 7, 14),
      Civil(y, 8, 15), Civil(y, 11, 1), Civil(y, 11, 11), Civil(y, 12, 25)
    };
    d in fixed
  }

  /** One, 39 or 50 days after the year's Easter (`d == easter + timedelta(days=k)` exactly when `d` lies `k` days after it, `OrdinalOrder`). */
  predicate MovableHolidayDate(d: Date) {
    var k := DaysBetween(EasterAsWritten(d.year), d);
    k == 1 || k == 39 || k == 50
  }

  /** A date whose ordinal lies between two dates of one year is in that year, between their months. */
  lemma BetweenInYear(x: Date, lo: Date, hi: Date)
    requires lo.year == hi.year
    requires Ordinal(lo) <= Ordinal(x) <= Ordinal(hi)
    ensures x.year == lo.year && lo.month <= x.month <= hi.month
  {
    OrdinalOrder(x, lo);
    OrdinalOrder(hi, x);
  }

  /** An Easter date the way both computus variants bound it: 21 March to 26 April. */
  predicate InEasterWindow(e: Date) {
    (e.month == 3 && 21 <= e.day) || (e.month == 4 && e.day <= 26)
  }

  /** A date 1 to 50 days after a date in the Easter window falls in the same year, in March to June. */
  lemma SpringOffsets(e: Date, d: Date)
    requires InEasterWindow(e)
    requires 1 <= DaysBetween(e, d) <= 50
    ensures d.year == e.year && 3 <= d.month <= 6
  {
    var y := e.year;
    var lo: Date := Civil(y, 3, 22);
    var hi: Date := Civil(y, 6, 15);
    OrdinalOrder(Civil(y, 3, 21), e);
    OrdinalOrder(e, Civil(y, 4, 26));
    assert Ordinal(lo) <= Ordinal(d) <= Ordinal(hi);
    BetweenInYear(d, lo, hi);
  }

  /** The three movable holidays fall in spring: Easter Monday, Ascension and Whit Monday lie in March to June. */
  lemma MovableHolidaysInSpring(d: Date)
    requires MovableHolidayDate(d)
    ensures 3 <= d.month <= 6
  {
    SpringOffsets(EasterAsWritten(d.year), d);
  }

  /** A date `k` days after Easter of its year, for `k` one of 1, 39 and 50, is a holiday. */
  lemma MovableHoliday(y: int, k: int, d: Date)
    requires k == 1 || k == 39 || k == 50
    requires Ordinal(d) == Ordinal(EasterAsWritten(y)) + k
    ensures d.year == y && IsPublicHoliday(d)
  {
    var e := EasterAsWritten(y);
    SpringOffsets(e, d);
    assert DaysBetween(EasterAsWritten(d.year), d) == k;
    assert MovableHolidayDate(d);
  }

  /** Easter Monday, Ascension and Whit Monday, built as the code builds them, are holidays. */
  lemma MovableHolidays(y: int, k: int)
    requires k == 1 || k == 39 || k == 50
    ensures AddDays(EasterAsWritten(y), k).year == y
    ensures IsPublicHoliday(AddDays(EasterAsWritten(y), k))
  {
    MovableHoliday(y, k, AddDays(EasterAsWritten(y), k));
  }

  /** From November to February the only holidays are 1 and 11 November, 25 December and 1 January. */
  lemma WinterHolidays(d: Date)
    requires d.month == 11 || d.month == 12 || d.month == 1 || d.month == 2
    ensures IsPublicHoliday(d) <==>
      (d.month == 1 && d.day == 1) || (d.month == 11 && (d.day == 1 || d.day == 11))
      || (d.month == 12 && d.day == 25)
  {
    if MovableHolidayDate(d) {
      MovableHolidaysInSpring(d);
    }
  }
}
