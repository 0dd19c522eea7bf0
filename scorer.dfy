/**
 * `decide_color_with_probs` and `decide_color_with_wrappers_no_stock`: the
 * day's colour, its three probabilities and the stocks after the day. The
 * scorer runs the raw-score steps of `RawScores` and the patches of
 * `ProbabilityPatches` in the source's order, then picks the most probable
 * colour with the ties going to blue, then white, and uses one day of its stock.
 */
module Scorer {
  import opened Wrappers
  import opened Dates
  import opened TempoCalendar
  import opened Transforms
  import opened RawScores
  import opened ProbabilityPatches

  /** `max(0, n - 1)`: one day of a stock used, never below zero. */
  function StockAfterUse(n: int): (m: int)
    ensures m >= 0
    ensures n >= 1 ==> m == n - 1
    ensures n <= 0 ==> m == 0
  {
    if n - 1 > 0 then n - 1 else 0
  }

  /**
   * `decide_color_with_probs(d, z, j, red_rem, white_rem, blue_rem)`. Sunday
   * is blue with certainty and uses no stock. On other days the colour has the
   * largest probability, blue winning every tie and white winning a tie with
   * red, and exactly that colour's stock goes down by one (not below zero). Red
   * has probability zero on every day where red is not allowed or none is left.
   */
  method DecideColorWithProbs(d: Date, z: Option<real>, j: int, redRem: int, whiteRem: int, blueRem: int)
    returns (c: Color, red: int, white: int, blue: int, p: Probs)
    ensures Weekday(d) == 6 ==>
      c == Bleu && red == redRem && white == whiteRem && blue == blueRem && p == Probs(1.0, 0.0, 0.0)
    ensures p.Of(c) >= p.b && p.Of(c) >= p.w && p.Of(c) >= p.r
    ensures c == Blanc ==> p.w > p.b
    ensures c == Rouge ==> p.r > p.b && p.r > p.w
    ensures Weekday(d) != 6 ==> Stocks(red, white, blue) == UseDay(Stocks(redRem, whiteRem, blueRem), c)
    ensures !(Allowed(Rouge, d) && redRem > 0) ==> p.r == 0.0
    ensures Weekday(d) != 6 ==> p == ScorerProbs(Day(d, z, j, redRem, whiteRem, blueRem))
  {
    if Weekday(d) == 6 {
      return Bleu, redRem, whiteRem, blueRem, Probs(1.0, 0.0, 0.0);
    }
    c, p := ScoredColor(Day(d, z, j, redRem, whiteRem, blueRem));
    red, white, blue := UseStock(c, redRem, whiteRem, blueRem);
  }

  /** The scorer on a day that is not Sunday: its probabilities and their dominant colour. */
  method ScoredColor(x: Day) returns (c: Color, p: Probs)
    ensures p == ScorerProbs(x)
    ensures !RedOk(x) ==> p.r == 0.0
    ensures p.Of(c) >= p.b && p.Of(c) >= p.w && p.Of(c) >= p.r
    ensures c == Blanc ==> p.w > p.b
    ensures c == Rouge ==> p.r > p.b && p.r > p.w
  {
    var sc := ScoreDay(x);
    p := PatchedProbabilities(x, sc);
    c := DominantColor(p);
  }

  /** The remaining red, white and blue days. */
  datatype Stocks = Stocks(red: int, white: int, blue: int)

  /** One day of colour `c` used: that stock goes down by one, not below zero; the others stay. */
  function UseDay(s: Stocks, c: Color): Stocks {
    match c
    case Rouge => s.(red := StockAfterUse(s.red))
    case Blanc => s.(white := StockAfterUse(s.white))
    case Bleu => s.(blue := StockAfterUse(s.blue))
  }

  /** `UseDay` on the three stocks as the scorer holds them. */
  method UseStock(c: Color, redRem: int, whiteRem: int, blueRem: int) returns (red: int, white: int, blue: int)
    ensures Stocks(red, white, blue) == UseDay(Stocks(redRem, whiteRem, blueRem), c)
  {
    red, white, blue := redRem, whiteRem, blueRem;
    if c == Rouge {
      red := StockAfterUse(redRem);
    } else if c == Blanc {
      white := StockAfterUse(whiteRem);
    } else {
      blue := StockAfterUse(blueRem);
    }
  }

  /** `max(1, count_red_eligible_days_left(d, red_end))`: the red-allowed days from the day to the end of its red season, at least one. */
  function EligibleDaysLeft(x: Day): (n: int)
    ensures n >= 1
    ensures RedEligibleIn(x.d, RedSeasonBounds(x.d).1) >= 1 ==> n == RedEligibleIn(x.d, RedSeasonBounds(x.d).1)
  {
    var n := RedEligibleIn(x.d, RedSeasonBounds(x.d).1);
    if n < 1 then 1 else n
  }

  /** The number of raw-score steps after the starting scores. */
  const StageCount: nat := 9

  /** Red closed once the calendar gate (step 3) has run: red stays at zero from there on. */
  predicate RedClosedBy(k: nat, x: Day, s: Probs) {
    !RedOk(x) && k > 3 ==> s.r == 0.0
  }

  /**
   * Raw-score step `k` of `decide_color_with_probs`, numbered from 0 in the
   * source's order: zone scores, middle zone, off-winter white boost, calendar
   * gate, the EDF red factor, Saturday, blue stock bias, white reinforcement
   * and red awakening.
   */
  function Stage(k: nat, x: Day, s: Probs): (q: Probs)
    requires k < StageCount
    ensures PositiveScores(s) ==> PositiveScores(q)
    ensures RedClosedBy(k, x, s) ==> RedClosedBy(k + 1, x, q)
  {
    if k == 0 then ZoneScores(x, s)
    else if k == 1 then MidzoneEffect(x, s)
    else if k == 2 then OffWinterWhiteBoost(x, s)
    else if k == 3 then CalendarGate(x, s)
    else if k == 4 then
      var delta := PressureDelta(x.redRem, EligibleDaysLeft(x), RedTargetUsedFraction(x.d));
      ApplyRedFactor(s, EdfRedFactor(x.d, x.redRem, delta))
    else if k == 5 then SaturdayNoRed(x, s)
    else if k == 6 then BlueStockBias(x, s)
    else if k == 7 then WhiteReinforcement(x, s)
    else RedAwakening(x, s)
  }

  /** The raw-score steps from number `k` on, applied in order to `s`. */
  function StagesFrom(k: nat, x: Day, s: Probs): (q: Probs)
    requires k <= StageCount
    ensures PositiveScores(s) ==> PositiveScores(q)
    ensures RedClosedBy(k, x, s) ==> RedClosedBy(StageCount, x, q)
    decreases StageCount - k
  {
    if k == StageCount then s else StagesFrom(k + 1, x, Stage(k, x, s))
  }

  /**
   * The raw scores of `decide_color_with_probs`: the starting scores passed
   * through every step. Blue stays positive, white and red non-negative, and
   * red is zero wherever red is not open.
   */
  function RawScoresOf(x: Day): (s: Probs)
    ensures PositiveScores(s)
    ensures !RedOk(x) ==> s.r == 0.0
  {
    StagesFrom(0, x, InitialScores(x))
  }

  /** The number of probability patches of `decide_color_with_probs`. */
  const PatchCount: nat := 14

  /** Patch `k` of `decide_color_with_probs`, numbered from 0 in the source's order. */
  function Patch(k: nat, x: Day, p: Probs): (q: Probs)
    requires k < PatchCount
    ensures NoRedKept(x, p, q)
  {
    if k == 0 then StockEffect(x, p)
    else if k == 1 then WinterWhiteStock(x, p)
    else if k == 2 then EndOfSeason(x, p)
    else if k == 3 then MarchBonus(x, p)
    else if k == 4 then MarchRedBoost(x, p)
    else if k == 5 then WinterRedTransfer(x, p)
    else if k == 6 then FullWinterRedBoost(x, p)
    else if k == 7 then LowZWinter(x, p)
    else if k == 8 then BlueBoostNoRed(x, p)
    else if k == 9 then SaturdayPrior(x, p)
    else if k == 10 then SaturdaySafety(x, p)
    else if k == 11 then PatchA(x, p)
    else if k == 12 then PatchB(x, p)
    else PatchC(x, p)
  }

  /**
   * The patches from number `k` on, applied in order to `p`. Every patch keeps
   * a zero red at zero on a day where red is not open, and so do all of them.
   */
  function PatchesFrom(k: nat, x: Day, p: Probs): (q: Probs)
    requires k <= PatchCount
    ensures NoRedKept(x, p, q)
    decreases PatchCount - k
  {
    if k == PatchCount then p else PatchesFrom(k + 1, x, Patch(k, x, p))
  }

  /** The scorer's probabilities for a day that is not Sunday; red is zero wherever red is not open. */
  function ScorerProbs(x: Day): (p: Probs)
    ensures !RedOk(x) ==> p.r == 0.0
  {
    PatchesFrom(0, x, ToProbabilities(RawScoresOf(x)))
  }

  /**
   * The probabilities of `decide_color_with_wrappers_no_stock`: certain blue on
   * Sunday; the fallback (0.8, 0.2, 0) when red wins on a day that forbids it;
   * the scorer's otherwise. Red is zero wherever the calendar forbids it.
   */
  function WrappedProbs(x: Day): (p: Probs)
    ensures Wd(x) == 6 ==> p == Probs(1.0, 0.0, 0.0)
    ensures !Allowed(Rouge, x.d) ==> p.r == 0.0
    ensures Wd(x) != 6 && Allowed(Rouge, x.d) ==> p == ScorerProbs(x)
  {
    if Wd(x) == 6 then Probs(1.0, 0.0, 0.0)
    else
      var p0 := ScorerProbs(x);
      if p0.r > p0.b && p0.r > p0.w && !Allowed(Rouge, x.d) then Probs(0.8, 0.2, 0.0) else p0
  }

  /** The raw scores of the day, from the zone scores to the red awakening; red stays at zero when red is not open. */
  method ScoreDay(x: Day) returns (s: Probs)
    ensures PositiveScores(s)
    ensures !RedOk(x) ==> s.r == 0.0
    ensures s == RawScoresOf(x)
  {
    s := InitialScores(x);
    ghost var all := StagesFrom(0, x, s);
    s := Stage(0, x, s);  // ZoneScores
    assert all == StagesFrom(1, x, s);
    s := Stage(1, x, s);  // MidzoneEffect
    assert all == StagesFrom(2, x, s);
    s := Stage(2, x, s);  // OffWinterWhiteBoost
    assert all == StagesFrom(3, x, s);
    s := Stage(3, x, s);  // CalendarGate
    assert all == StagesFrom(4, x, s);
    var (_, redEnd) := RedSeasonBounds(x.d);
    var eligible := CountRedEligibleDaysLeft(x.d, redEnd);
    if eligible < 1 {
      eligible := 1;
    }
    assert eligible == EligibleDaysLeft(x);
    var delta := PressureDelta(x.redRem, eligible, RedTargetUsedFraction(x.d));
    ghost var before := s;
    s := ApplyRedFactor(s, EdfRedFactor(x.d, x.redRem, delta));
    assert s == Stage(4, x, before);
    assert all == StagesFrom(5, x, s);
    s := Stage(5, x, s);  // SaturdayNoRed
    assert all == StagesFrom(6, x, s);
    s := Stage(6, x, s);  // BlueStockBias
    assert all == StagesFrom(7, x, s);
    s := Stage(7, x, s);  // WhiteReinforcement
    assert all == StagesFrom(8, x, s);
    s := Stage(8, x, s);  // RedAwakening
    assert StagesFrom(9, x, s) == s;
  }

  /** The scores turned into probabilities and passed through the patches in order; a red at zero stays at zero when red is not open. */
  method PatchedProbabilities(x: Day, s: Probs) returns (p: Probs)
    ensures PositiveScores(s) && s.r == 0.0 && !RedOk(x) ==> p.r == 0.0
    ensures p == PatchesFrom(0, x, ToProbabilities(s))
  {
    p := ToProbabilities(s);
    ghost var all := PatchesFrom(0, x, p);
    p := Patch(0, x, p);  // StockEffect
    assert all == PatchesFrom(1, x, p);
    p := Patch(1, x, p);  // WinterWhiteStock
    assert all == PatchesFrom(2, x, p);
    p := Patch(2, x, p);  // EndOfSeason
    assert all == PatchesFrom(3, x, p);
    p := Patch(3, x, p);  // MarchBonus
    assert all == PatchesFrom(4, x, p);
    p := Patch(4, x, p);  // MarchRedBoost
    assert all == PatchesFrom(5, x, p);
    p := Patch(5, x, p);  // WinterRedTransfer
    assert all == PatchesFrom(6, x, p);
    p := Patch(6, x, p);  // FullWinterRedBoost
    assert all == PatchesFrom(7, x, p);
    p := Patch(7, x, p);  // LowZWinter
    assert all == PatchesFrom(8, x, p);
    p := Patch(8, x, p);  // BlueBoostNoRed
    assert all == PatchesFrom(9, x, p);
    p := Patch(9, x, p);  // SaturdayPrior
    assert all == PatchesFrom(10, x, p);
    p := Patch(10, x, p);  // SaturdaySafety
    assert all == PatchesFrom(11, x, p);
    p := Patch(11, x, p);  // PatchA
    assert all == PatchesFrom(12, x, p);
    p := Patch(12, x, p);  // PatchB
    assert all == PatchesFrom(13, x, p);
    p := Patch(13, x, p);  // PatchC
    assert PatchesFrom(14, x, p) == p;
  }

  /** The dominant colour: the largest probability, blue winning every tie and white winning a tie with red. */
  method DominantColor(p: Probs) returns (c: Color)
    ensures p.Of(c) >= p.b && p.Of(c) >= p.w && p.Of(c) >= p.r
    ensures c == Blanc ==> p.w > p.b
    ensures c == Rouge ==> p.r > p.b && p.r > p.w
  {
    c := Bleu;
    var maxP := p.b;
    if p.w > maxP {
      c := Blanc;
      maxP := p.w;
    }
    if p.r > maxP {
      c := Rouge;
      maxP := p.r;
    }
  }

  /**
   * `decide_color_with_wrappers_no_stock`: the scorer's colour and
   * probabilities, with Sunday forced to certain blue and a red the calendar
   * forbids replaced by blue or white (red set to zero, blue and white
   * rescaled). The stocks are not returned.
   */
  method DecideColorWithWrappersNoStock(d: Date, z: Option<real>, j: int, redRem: int, whiteRem: int, blueRem: int)
    returns (c: Color, p: Probs)
    ensures Weekday(d) == 6 ==> c == Bleu && p == Probs(1.0, 0.0, 0.0)
    ensures c == Rouge ==> Allowed(Rouge, d)
    ensures !Allowed(Rouge, d) ==> p.r == 0.0
    ensures p.Of(c) >= p.b && p.Of(c) >= p.w && p.Of(c) >= p.r
    ensures c == Blanc ==> p.w > p.b
    ensures c == Rouge ==> p.r > p.b && p.r > p.w
    ensures p == WrappedProbs(Day(d, z, j, redRem, whiteRem, blueRem))
  {
    var c0, _, _, _, p0 := DecideColorWithProbs(d, z, j, redRem, whiteRem, blueRem);
    if Weekday(d) == 6 {
      return Bleu, Probs(1.0, 0.0, 0.0);
    }
    c, p := c0, p0;
    if c0 == Rouge && !Allowed(Rouge, d) {
      // The scorer keeps red at zero here, so red can only have won with blue
      // and white both below zero: the source's rescaling by their sum never
      // applies, and its fallback (0.8, 0.2) always does.
      var s := p0.b + p0.w;
      if s > 0.0 {
        assert false;
      }
      p := Probs(0.8, 0.2, 0.0);
      c := Bleu;
    }
  }
}
