/**
 * The second half of `decide_color_with_probs`: the ordered patches that move
 * probability between blue, white and red after the raw scores have been
 * normalised. Most patches end with the source's `s = sum; if s > 0: divide`
 * step, `Renorm` here. Every patch keeps red at zero on a day where red is
 * not allowed (`RawScores.RedOk` false), which is what makes the scorer's
 * promise `p_rouge == 0` hold on such days.
 */
module ProbabilityPatches {
  import opened Wrappers
  import opened Dates
  import opened TempoCalendar
  import opened Transforms
  import opened RawScores

  /** Either nothing changed, or the triple was rescaled to sum to one. */
  predicate KeptOrRescaled(p: Probs, q: Probs) {
    p.Sum() > 0.0 ==> q == p || q.Sum() == 1.0
  }

  /** On a day where red is not allowed, a red entry at zero stays at zero. */
  predicate NoRedKept(x: Day, p: Probs, q: Probs) {
    !RedOk(x) && p.r == 0.0 ==> q.r == 0.0
  }

  /** Taking `shift` from (or giving it to) two entries in proportion to their sizes moves exactly `shift`. */
  lemma SplitShift(shift: real, x: real, y: real)
    requires x + y != 0.0
    ensures shift * (x / (x + y)) + shift * (y / (x + y)) == shift
  {
    var n := x + y;
    assert x / n + y / n == n / n;
    DivSelf(n);
    assert shift * (x / n) + shift * (y / n) == shift * (x / n + y / n);
  }

  function Month(x: Day): int { x.d.month }

  predicate DeepWinterMonth(m: int) { m == 12 || m == 1 || m == 2 }

  /** `days_left`: days of the Tempo year from `j` to its end, at least 1. */
  function DaysLeft(x: Day): (n: int)
    ensures n >= 1
  {
    var n := TempoDays(x.d) - x.j + 1;
    if n > 1 then n else 1
  }

  // ---------------------------------------------------------------------------
  // Stock effects

  /** The blue stock per remaining day of the Tempo year. */
  function BlueShare(x: Day): real {
    Max0(x.blueRem) as real / DaysLeft(x) as real
  }

  /**
   * The blue stock effect: with many blue days left per remaining day, up to
   * 0.05 moves from white to blue; with few, up to 0.05 leaves blue and is
   * shared by white and red in proportion. Nothing is rescaled: when white
   * and red are both zero the mass leaving blue goes nowhere.
   */
  function StockEffect(x: Day, p: Probs): (q: Probs)
    ensures NoRedKept(x, p, q)
    ensures q.Sum() == p.Sum() || (q.Sum() < p.Sum() && q.w + q.r <= 0.0)
    ensures 0.4 <= BlueShare(x) <= 0.8 ==> q == p
    ensures BlueShare(x) > 0.8 && p.b < 0.8 && p.w > 0.0 ==>
      q.b == p.b + Min(0.05, p.w * 0.3) && q.w == p.w - Min(0.05, p.w * 0.3) && q.r == p.r
    ensures BlueShare(x) > 0.8 && !(p.b < 0.8 && p.w > 0.0) ==> q == p
    ensures BlueShare(x) < 0.4 && p.b > 0.0 ==>
      q.b == p.b - Min(0.05, p.b * 0.4) && q.b < p.b
      && (p.w >= 0.0 && p.r >= 0.0 ==> q.w >= p.w && q.r >= p.r)
      && (p.w + p.r > 0.0 ==> q.Sum() == p.Sum())
    ensures BlueShare(x) < 0.4 && p.b <= 0.0 ==> q == p
  {
    var fracBlue := BlueShare(x);
    var p1 := if fracBlue > 0.8 && p.b < 0.8 then BlueGains(p) else p;
    if fracBlue < 0.4 then BlueLoses(p1) else p1
  }

  /** Up to 0.05, and at most 30% of white, moves from white to blue. */
  function BlueGains(p: Probs): (q: Probs)
    ensures q.Sum() == p.Sum() && q.r == p.r
    ensures p.w > 0.0 ==> q.b == p.b + Min(0.05, p.w * 0.3) && q.w == p.w - Min(0.05, p.w * 0.3)
    ensures p.w <= 0.0 ==> q == p
  {
    var shift := Min(0.05, p.w * 0.3);
    if shift > 0.0 then p.(b := p.b + shift, w := p.w - shift) else p
  }

  /** Up to 0.05, and at most 40% of blue, leaves blue, shared by white and red in proportion, or lost when both are zero. */
  function BlueLoses(p: Probs): (q: Probs)
    ensures p.r == 0.0 ==> q.r == 0.0
    ensures q.Sum() == p.Sum() || (q.Sum() < p.Sum() && q.w + q.r <= 0.0)
    ensures p.b > 0.0 ==> q.b == p.b - Min(0.05, p.b * 0.4) && q.b < p.b
    ensures p.b > 0.0 && p.w + p.r > 0.0 ==> q.Sum() == p.Sum()
    ensures p.w >= 0.0 && p.r >= 0.0 ==> q.w >= p.w && q.r >= p.r
    ensures p.b <= 0.0 ==> q == p
  {
    var shift := Min(0.05, p.b * 0.4);
    if shift > 0.0 then
      var nonBlue := p.w + p.r;
      if nonBlue > 0.0 then
        SplitShift(shift, p.w, p.r);
        ShareNonneg(shift, p.w, nonBlue);
        ShareNonneg(shift, p.r, nonBlue);
        Probs(p.b - shift, p.w + shift * (p.w / nonBlue), p.r + shift * (p.r / nonBlue))
      else p.(b := p.b - shift)
    else p
  }

  lemma ShareNonneg(shift: real, v: real, n: real)
    requires shift >= 0.0 && n > 0.0
    ensures v >= 0.0 ==> shift * (v / n) >= 0.0
  {
    if v >= 0.0 {
      MulNonneg(shift, v / n);
    }
  }

  function Max0(n: int): int { if n > 0 then n else 0 }

  /**
   * The winter adjustment on the white stock, 1 November to 31 March: with 38
   * or more white days left a quarter of red goes to blue and white, and white
   * near the blue zone gives up to 0.08 to blue; with 10 or fewer, up to 0.15
   * of blue goes to white.
   */
  function WinterWhiteStock(x: Day, p: Probs): (q: Probs)
    ensures NoRedKept(x, p, q)
    ensures KeptOrRescaled(p, q)
    ensures !WinterWhiteDay(x) || 10 < x.whiteRem < 38 ==> q == p
    ensures WinterWhiteDay(x) && x.whiteRem >= 38 && p.r > 0.0 && p.Sum() > 0.0 ==>
      q.r < p.r / p.Sum()
    ensures WinterWhiteDay(x) && x.whiteRem >= 38 ==> RescaledOf(q, NearBlueWhiteShift(x, RedCut(p)))
    ensures WinterWhiteDay(x) && x.whiteRem <= 10 && p.b > 0.30 ==>
      RescaledOf(q, p.(b := p.b - Min(0.15, p.b - 0.25), w := p.w + Min(0.15, p.b - 0.25)))
    ensures WinterWhiteDay(x) && x.whiteRem <= 10 && p.b <= 0.30 ==> RescaledOf(q, p)
    ensures WinterWhiteDay(x) && x.whiteRem <= 10 && p.b > 0.30 && p.Sum() == 1.0 ==>
      q.w > p.w && q.b >= 0.25 && q.b < p.b && q.r == p.r
  {
    if WinterWhiteDay(x) then
      if x.whiteRem >= 38 then
        var p2 := NearBlueWhiteShift(x, RedCut(p));
        ReducedShare(p.r, p2.r, p.Sum());
        Renorm(p2)
      else if x.whiteRem <= 10 then
        var p1 := if p.b > 0.30 then
            var bs := Min(0.15, p.b - 0.25);
            if bs > 0.0 then p.(b := p.b - bs, w := p.w + bs) else p
          else p;
        Renorm(p1)
      else p
    else p
  }

  /** With many white days left: a quarter of red goes 40% to blue and 60% to white. */
  function RedCut(p: Probs): (q: Probs)
    ensures q.Sum() == p.Sum()
    ensures p.r > 0.0 ==> q == Probs(p.b + 0.1 * p.r, p.w + 0.15 * p.r, 0.75 * p.r)
    ensures p.r <= 0.0 ==> q == p
  {
    if p.r > 0.0 then
      var cut := p.r * 0.25;
      Probs(p.b + cut * 0.4, p.w + cut * 0.6, p.r - cut)
    else p
  }

  /** Then, with `Z` less than 0.5 above the blue/white cut-off, white over 0.45 gives `min(0.08, w - 0.40)` to blue. */
  function NearBlueWhiteShift(x: Day, p: Probs): (q: Probs)
    requires x.z.Some?
    ensures q.Sum() == p.Sum() && q.r == p.r
    ensures x.z.value < SBrAdj(x) + 0.5 && p.w > 0.45 ==>
      q.w == p.w - Min(0.08, p.w - 0.40) && q.b == p.b + Min(0.08, p.w - 0.40) && 0.32 < q.w < p.w
    ensures !(x.z.value < SBrAdj(x) + 0.5 && p.w > 0.45) ==> q == p
  {
    if x.z.value < SBrAdj(x) + 0.5 && p.w > 0.45 then
      var ws := Min(0.08, p.w - 0.40);
      if ws > 0.0 then p.(w := p.w - ws, b := p.b + ws) else p
    else p
  }

  /** The guard of the winter white-stock adjustment: 1 November to 31 March, `Z` known and below 9.5. */
  predicate WinterWhiteDay(x: Day) {
    InRedMonths(Month(x)) && x.z.Some? && x.z.value < 9.5
  }

  lemma ReducedShare(r: real, r': real, s: real)
    requires r' <= 0.75 * r
    ensures r > 0.0 && s > 0.0 ==> r' / s < r / s
  {
    if r > 0.0 && s > 0.0 {
      DivMonotone(r', 0.75 * r, s);
      assert 0.75 * r / s < r / s;
    }
  }

  // ---------------------------------------------------------------------------
  // End of season

  /** How far `d` is through the span `start .. end`: 0 up to `start`, 1 from `end` on, linear in between. */
  function SpanProgress(d: Date, start: Date, end: Date): (f: real)
    ensures 0.0 <= f <= 1.0
    ensures Ordinal(d) <= Ordinal(start) ==> f == 0.0
    ensures Ordinal(start) < Ordinal(d) && Ordinal(d) >= Ordinal(end) ==> f == 1.0
  {
    if Ordinal(d) <= Ordinal(start) then 0.0
    else if Ordinal(d) >= Ordinal(end) then 1.0
    else
      DivBetween(DaysBetween(start, d) as real, DaysBetween(start, end) as real);
      DaysBetween(start, d) as real / DaysBetween(start, end) as real
  }

  /** Red days still expected on `d`, on a straight line over its red season. */
  function ExpectedRedLeftInSeason(d: Date): (e: real)
    ensures 0.0 <= e <= 22.0
  {
    var (start, end) := RedSeasonBounds(d);
    var f := SpanProgress(d, start, end);
    RedTotal as real - RedTotal as real * f
  }

  /** White days still expected on `d`, on a straight line from 1 November to 30 April. */
  function ExpectedWhiteLeftInSeason(d: Date): (e: real)
    ensures 0.0 <= e <= 43.0
  {
    var y := RedSeasonBounds(d).0.year;
    var f := SpanProgress(d, Civil(y, 11, 1), Civil(y + 1, 4, 30));
    WhiteTotal as real - WhiteTotal as real * f
  }

  /**
   * From 15 February to the end of March: white is floored at 0.25 when more
   * than 3 white days are in excess of the straight line, and red (where
   * allowed, on a working day, with more than 5 left) at 0.20 when more than 2
   * red days are in excess; then the triple is rescaled.
   */
  function EndOfSeason(x: Day, p: Probs): (q: Probs)
    ensures NoRedKept(x, p, q)
    ensures KeptOrRescaled(p, q)
    ensures !EndOfSeasonDay(x) || (!WhiteExcess(x) && !RedExcess(x)) ==> q == p
    ensures EndOfSeasonDay(x) && (WhiteExcess(x) || RedExcess(x)) ==>
      RescaledOf(q, Probs(p.b, if WhiteExcess(x) then Max(p.w, 0.25) else p.w,
                               if RedExcess(x) then Max(p.r, 0.20) else p.r))
  {
    if EndOfSeasonDay(x) then
      var boostW := WhiteExcess(x);
      var boostR := RedExcess(x);
      var p1 := if boostW then p.(w := Max(p.w, 0.25)) else p;
      var p2 := if boostR then p1.(r := Max(p1.r, 0.20)) else p1;
      if boostW || boostR then Renorm(p2) else p
    else p
  }

  /** 15 February to 31 March, with `Z` known. */
  predicate EndOfSeasonDay(x: Day) {
    x.z.Some? && ((Month(x) == 2 && x.d.day >= 15) || Month(x) == 3)
  }

  /** More than 3 white days left beyond the straight line. */
  predicate WhiteExcess(x: Day) {
    x.whiteRem as real > ExpectedWhiteLeftInSeason(x.d) + 3.0
  }

  /** More than 2 red days left beyond the straight line, more than 5 left, on a red-allowed working day. */
  predicate RedExcess(x: Day) {
    x.redRem as real > ExpectedRedLeftInSeason(x.d) + 2.0 && x.redRem > 5 && RedOk(x) && Wd(x) < 5
  }

  /** From 10 March: white floored at 0.30 while more than 3 are left, red at 0.22 where allowed with more than 5 left; then rescaled. */
  function MarchBonus(x: Day, p: Probs): (q: Probs)
    ensures NoRedKept(x, p, q)
    ensures KeptOrRescaled(p, q)
    ensures !(Month(x) == 3 && x.d.day >= 10) || (x.whiteRem <= 3 && !MarchRedBonus(x)) ==> q == p
    ensures Month(x) == 3 && x.d.day >= 10 && (x.whiteRem > 3 || MarchRedBonus(x)) ==>
      RescaledOf(q, Probs(p.b, if x.whiteRem > 3 then Max(p.w, 0.30) else p.w,
                               if MarchRedBonus(x) then Max(p.r, 0.22) else p.r))
  {
    if Month(x) == 3 && x.d.day >= 10 then
      var bw := x.whiteRem > 3;
      var br := MarchRedBonus(x);
      var p1 := if bw then p.(w := Max(p.w, 0.30)) else p;
      var p2 := if br then p1.(r := Max(p1.r, 0.22)) else p1;
      if bw || br then Renorm(p2) else p
    else p
  }

  /** More than 5 red days left, on a red-allowed working day. */
  predicate MarchRedBonus(x: Day) {
    x.redRem > 5 && RedOk(x) && Wd(x) < 5
  }

  /** In March, on a red-allowed working day with `Z >= 0.7`, up to 0.12 moves to red, half from blue and half from white; then rescaled. */
  function MarchRedBoost(x: Day, p: Probs): (q: Probs)
    ensures NoRedKept(x, p, q)
    ensures KeptOrRescaled(p, q)
    ensures !MarchRedDay(x) ==> q == p
    ensures MarchRedDay(x) && p.b + p.w > 0.0 ==>
      var add := Min(0.12, (p.b + p.w) * 0.4);
      RescaledOf(q, Probs(p.b - add * 0.5, p.w - add * 0.5, p.r + add))
    ensures MarchRedDay(x) && p.b + p.w > 0.0 && p.Sum() == 1.0 ==>
      var add := Min(0.12, (p.b + p.w) * 0.4);
      q == Probs(p.b - add * 0.5, p.w - add * 0.5, p.r + add) && q.r > p.r
    ensures MarchRedDay(x) && p.b + p.w <= 0.0 ==> RescaledOf(q, p)
  {
    if MarchRedDay(x) then
      var add := Min(0.12, (p.b + p.w) * 0.4);
      var p1 := if add > 0.0 then Probs(p.b - add * 0.5, p.w - add * 0.5, p.r + add) else p;
      Renorm(p1)
    else p
  }

  /** March, a red-allowed working day, `Z >= 0.7`. */
  predicate MarchRedDay(x: Day) {
    Month(x) == 3 && RedOk(x) && Wd(x) < 5 && x.z.Some? && x.z.value >= 0.7
  }

  // ---------------------------------------------------------------------------
  // Core winter

  /** The guard of the winter transfer to red: `Z` known, December to February, a working day, red allowed. */
  predicate WinterRedDay(x: Day) {
    x.z.Some? && DeepWinterMonth(Month(x)) && Wd(x) < 5 && RedOk(x) && x.redRem > 0
  }

  /** The most the first winter step may move to red, by `Z`. */
  function MaxWinterShift(z: real): (m: real)
    ensures 0.03 <= m <= 0.30
  {
    if z >= 1.30 then 0.30 else if z >= 1.00 then 0.10 else if z >= 0.70 then 0.05 else 0.03
  }

  /** Take `amount` from blue and white in proportion to their sizes and give it to red: the sum is kept. */
  function TransferToRed(p: Probs, amount: real): (q: Probs)
    requires p.b + p.w != 0.0
    ensures q.Sum() == p.Sum() && q.r == p.r + amount
  {
    var nonRed := p.b + p.w;
    SplitShift(amount, p.b, p.w);
    Probs(p.b - amount * (p.b / nonRed), p.w - amount * (p.w / nonRed), p.r + amount)
  }

  /** Step 1: up to `MaxWinterShift(Z)`, at most half of blue plus white, moves to red. */
  function WinterStep1(z: real, p: Probs): (q: Probs)
    ensures KeptOrRescaled(p, q)
    ensures p.b + p.w <= 0.0 ==> q == p
    ensures p.b + p.w > 0.0 ==> RescaledOf(q, TransferToRed(p, Min(MaxWinterShift(z), (p.b + p.w) * 0.5)))
    ensures p.Sum() == 1.0 ==> q.Sum() == 1.0 && q.r >= p.r
    ensures p.Sum() == 1.0 && p.b + p.w > 0.0 ==> q.r == p.r + Min(MaxWinterShift(z), (p.b + p.w) * 0.5) > p.r
  {
    var nonRed := p.b + p.w;
    if nonRed > 0.0 then
      var shift := Min(MaxWinterShift(z), nonRed * 0.5);
      Renorm(TransferToRed(p, shift))
    else p
  }

  /** Step 2: from `Z >= 1.2`, red behind blue takes 60% of the gap from blue. */
  function WinterStep2(z: real, p: Probs): (q: Probs)
    ensures KeptOrRescaled(p, q)
    ensures !(z >= 1.20 && p.r < p.b) ==> q == p
    ensures z >= 1.20 && p.r < p.b ==>
      RescaledOf(q, p.(b := p.b - (p.b - p.r) * 0.6, r := p.r + (p.b - p.r) * 0.6))
    ensures z >= 1.20 && p.Sum() > 0.0 ==> q.r >= q.b
    ensures p.Sum() == 1.0 ==> q.Sum() == 1.0 && q.r >= p.r
  {
    if z >= 1.20 && p.r < p.b then
      var diff := (p.b - p.r) * 0.6;
      var p1 := p.(b := p.b - diff, r := p.r + diff);
      var q := Renorm(p1);
      if p.Sum() > 0.0 then
        ScaledOrder(q.r, q.b, p1.Sum());
        q
      else q
    else p
  }

  /** Step 3: red below the floor for `Z` is raised towards it, taking at most 40% of blue plus white in proportion. */
  function WinterStep3(z: real, p: Probs): (q: Probs)
    ensures KeptOrRescaled(p, q)
    ensures !(RedFloorFromZ(Some(z)) > 0.0 && p.r < RedFloorFromZ(Some(z))) ==> q == p
    ensures var floor := RedFloorFromZ(Some(z));
      floor > 0.0 && p.r < floor && p.b + p.w > 0.0 ==>
        RescaledOf(q, TransferToRed(p, Min(floor - p.r, (p.b + p.w) * 0.4)))
    ensures var floor := RedFloorFromZ(Some(z));
      floor > 0.0 && p.r < floor && p.b + p.w <= 0.0 ==> RescaledOf(q, p)
    ensures p.Sum() == 1.0 ==> q.Sum() == 1.0 && q.r >= p.r
    ensures var floor := RedFloorFromZ(Some(z));
      p.Sum() == 1.0 && p.r < floor ==> q.r <= floor
    ensures var floor := RedFloorFromZ(Some(z));
      p.Sum() == 1.0 && 0.0 < floor && p.r < floor <= p.r + (p.b + p.w) * 0.4 ==> q.r == floor
  {
    var floor := RedFloorFromZ(Some(z));
    if floor > 0.0 && p.r < floor then
      var nonRed := p.b + p.w;
      var p1 :=
        if nonRed > 0.0 then
          var add := Min(floor - p.r, nonRed * 0.4);
          if add > 0.0 then TransferToRed(p, add) else p
        else p;
      Renorm(p1)
    else p
  }

  /** The winter transfer from blue and white to red on days of high tension: the three steps in order. */
  function WinterRedTransfer(x: Day, p: Probs): (q: Probs)
    ensures NoRedKept(x, p, q)
    ensures !WinterRedDay(x) ==> q == p
    ensures WinterRedDay(x) && p.Sum() == 1.0 ==> q.Sum() == 1.0 && q.r >= p.r
    ensures WinterRedDay(x) && p.Sum() == 1.0 && p.b + p.w > 0.0 ==> q.r > p.r
  {
    if WinterRedDay(x) then
      WinterStep3(x.z.value, WinterStep2(x.z.value, WinterStep1(x.z.value, p)))
    else p
  }

  /** In the core winter, for `1.25 <= Z <= 1.9` on a red-allowed working day, red behind white takes 45% of the gap from white. */
  function FullWinterRedBoost(x: Day, p: Probs): (q: Probs)
    ensures NoRedKept(x, p, q)
    ensures q.Sum() == p.Sum() && q.b == p.b && q.r >= p.r
    ensures q != p ==> q.r < q.w && q.w - q.r == (p.w - p.r) * 0.1
    ensures FullWinterRedDay(x, p) ==>
      q == Probs(p.b, p.w - 0.45 * (p.w - p.r), p.r + 0.45 * (p.w - p.r)) && q.r > p.r
    ensures !FullWinterRedDay(x, p) ==> q == p
  {
    if FullWinterRedDay(x, p) then
      var diff := (p.w - p.r) * 0.45;
      p.(r := p.r + diff, w := p.w - diff)
    else p
  }

  /** The guard of the full-winter red boost. */
  predicate FullWinterRedDay(x: Day, p: Probs) {
    x.z.Some? && CoreWinter(x.d) && 1.25 <= x.z.value <= 1.9 && RedOk(x) && Wd(x) < 5 && p.r < p.w
  }

  predicate LowZWinterDay(x: Day, p: Probs) {
    x.z.Some? && DeepWinterMonth(Month(x)) && Wd(x) < 5 && p.r < 0.05 && 0.0 <= x.z.value <= 0.6 && p.b > p.w
  }

  /** Low tension in the winter months (`0 <= Z <= 0.6`, red under 0.05): blue ahead of white gives up to half the gap, at most 0.08, to white; then rescaled. */
  function LowZWinter(x: Day, p: Probs): (q: Probs)
    ensures NoRedKept(x, p, q)
    ensures KeptOrRescaled(p, q)
    ensures !LowZWinterDay(x, p) ==> q == p
    ensures LowZWinterDay(x, p) ==> RescaledOf(q, p.(b := p.b - LowZShift(p), w := p.w + LowZShift(p)))
    ensures LowZWinterDay(x, p) && p.Sum() > 0.0 ==> q.b >= q.w
    ensures LowZWinterDay(x, p) && p.Sum() == 1.0 ==> q.w > p.w && q.b < p.b && q.r == p.r
  {
    if LowZWinterDay(x, p) then
      var p1 := p.(b := p.b - LowZShift(p), w := p.w + LowZShift(p));
      var q := Renorm(p1);
      if p.Sum() > 0.0 then
        ScaledOrder(q.b, q.w, p1.Sum());
        q
      else q
    else p
  }

  /** Half the lead of blue over white, at most 0.08. */
  function LowZShift(p: Probs): (s: real)
    ensures p.b > p.w ==> 0.0 < s <= 0.08 && 2.0 * s <= p.b - p.w
  {
    Min((p.b - p.w) * 0.5, 0.08)
  }

  /**
   * The blue boost in a blue/white duel (red exactly zero, white over 0.55),
   * switched off in the core winter once `Z >= 0.62`: a share of white's
   * surplus over 0.45 moves to blue.
   */
  function BlueBoostNoRed(x: Day, p: Probs): (q: Probs)
    ensures q.Sum() == p.Sum() && q.r == p.r
    ensures q.b >= p.b && q.w <= p.w
    ensures q != p ==> q.w > 0.45
    ensures BlueDuelDay(x, p) ==>
      q == Probs(p.b + (p.w - 0.45) * BlueBoostFactor(x, p), p.w - (p.w - 0.45) * BlueBoostFactor(x, p), p.r)
      && q.b > p.b
    ensures !BlueDuelDay(x, p) ==> q == p
  {
    if BlueDuelDay(x, p) then
      var boostFactor := BlueBoostFactor(x, p);
      var surplus := p.w - 0.45;
      if surplus > 0.0 then
        SurplusShift(surplus, boostFactor);
        p.(w := p.w - surplus * boostFactor, b := p.b + surplus * boostFactor)
      else p
    else p
  }

  /** The guard of the blue boost: red zero, white over 0.55, and not the core winter with `Z >= 0.62`. */
  predicate BlueDuelDay(x: Day, p: Probs) {
    p.r == 0.0 && p.w > 0.55 && !(CoreWinter(x.d) && x.z.Some? && x.z.value >= 0.62)
  }

  /** The share of white's surplus moved: 0.2 in November and March, else 0.15, times 0.7 in a near tie. */
  function BlueBoostFactor(x: Day, p: Probs): (f: real)
    ensures Abs(p.w - p.b) >= 0.03 ==> f == (if Month(x) == 11 || Month(x) == 3 then 0.2 else 0.15)
    ensures Abs(p.w - p.b) < 0.03 ==> f == 0.7 * (if Month(x) == 11 || Month(x) == 3 then 0.2 else 0.15)
    ensures 0.0 < f <= 0.2
  {
    var baseBoost := if Month(x) == 11 || Month(x) == 3 then 0.2 else 0.15;
    if Abs(p.w - p.b) < 0.03 then baseBoost * 0.7 else baseBoost
  }

  lemma SurplusShift(surplus: real, factor: real)
    requires surplus > 0.0 && 0.0 <= factor <= 0.2
    ensures 0.0 <= surplus * factor < surplus
  {
    MulNonneg(surplus, factor);
  }

  // ---------------------------------------------------------------------------
  // Saturday

  /** The Saturday prior when red is zero: blue and white rescaled to one, then capped (outside November) or shaped (in November), then rescaled. */
  function SaturdayPrior(x: Day, p: Probs): (q: Probs)
    ensures q.r == p.r
    ensures KeptOrRescaled(p, q)
    ensures !(Wd(x) == 5 && p.r == 0.0) ==> q == p
    ensures Wd(x) == 5 && p.r == 0.0 && Month(x) != 11 ==> RescaledOf(q, SaturdayCaps(RescalePair(p)))
    ensures Wd(x) == 5 && p.r == 0.0 && Month(x) == 11 ==> RescaledOf(q, NovemberSaturday(x, RescalePair(p)))
    ensures Wd(x) == 5 && p.r == 0.0 && p.b + p.w > 0.0 ==> q.Sum() == 1.0
  {
    if Wd(x) == 5 && p.r == 0.0 then
      var p1 := RescalePair(p);
      var p2 := if Month(x) != 11 then SaturdayCaps(p1) else NovemberSaturday(x, p1);
      assert p2.Sum() == p1.Sum();
      Renorm(p2)
    else p
  }

  /** Blue and white divided by their sum when it is positive; red untouched. */
  function RescalePair(p: Probs): (q: Probs)
    ensures q.r == p.r
    ensures p.b + p.w > 0.0 ==> q.b + q.w == 1.0
    ensures p.b + p.w <= 0.0 ==> q == p
  {
    var nb := p.b + p.w;
    if nb > 0.0 then
      ScaledPair(p.b, p.w);
      Probs(p.b * (1.0 / nb), p.w * (1.0 / nb), p.r)
    else p
  }

  lemma ScaledPair(b: real, w: real)
    requires b + w > 0.0
    ensures b * (1.0 / (b + w)) + w * (1.0 / (b + w)) == 1.0
  {
    var n := b + w;
    assert b * (1.0 / n) + w * (1.0 / n) == n * (1.0 / n);
  }

  /** Outside November: blue capped at 0.65, or else white at 0.70, the excess going to the other. */
  function SaturdayCaps(p: Probs): (q: Probs)
    ensures q.Sum() == p.Sum() && q.r == p.r
    ensures p.b > 0.65 ==> q.b == 0.65
    ensures p.b <= 0.65 && p.w > 0.70 ==> q.w == 0.70
  {
    if p.b > 0.65 then p.(b := 0.65, w := p.w + (p.b - 0.65))
    else if p.w > 0.70 then p.(w := 0.70, b := p.b + (p.w - 0.70))
    else p
  }

  /** The most white may gain on a November Saturday: 0.24 when blue stock is high and white stock low, else 0.20. */
  function NovemberBoost(x: Day): (m: real)
    ensures m == 0.20 || m == 0.24
  {
    var fracBlue := x.blueRem as real / DaysLeft(x) as real;
    var fracWhite := x.whiteRem as real / DaysLeft(x) as real;
    if fracBlue >= 0.6 && fracWhite <= 0.25 then 0.24 else 0.20
  }

  /** White under 0.30 gains 60% of its gap to 0.30, at most `NovemberBoost`, from blue: it stays under 0.30. */
  function NovemberWhiteFloor(x: Day, p: Probs): (q: Probs)
    ensures q.Sum() == p.Sum() && q.r == p.r
    ensures p.w < 0.30 ==>
      q.w == p.w + Min(NovemberBoost(x), (0.30 - p.w) * 0.6) && p.w < q.w < 0.30 && q.b == p.b - (q.w - p.w)
    ensures p.w >= 0.30 ==> q == p
  {
    if p.w < 0.30 then
      var shift := Min(NovemberBoost(x), (0.30 - p.w) * 0.6);
      if shift > 0.0 then p.(w := p.w + shift, b := p.b - shift) else p
    else p
  }

  /**
   * In November: white under 0.30 gains from blue, then, for `Z <= 5.3`, white
   * ahead of blue gives 70% of the gap back, so that it ends no higher than blue.
   */
  function NovemberSaturday(x: Day, p: Probs): (q: Probs)
    ensures q.Sum() == p.Sum() && q.r == p.r
    ensures var p1 := NovemberWhiteFloor(x, p);
      x.z.Some? && x.z.value <= 5.3 && p1.w > p1.b ==>
        q.b - q.w == 0.4 * (p1.w - p1.b) && q.w > p1.b
    ensures x.z.Some? && x.z.value <= 5.3 ==> q.w <= q.b
    ensures !(x.z.Some? && x.z.value <= 5.3 && NovemberWhiteFloor(x, p).w > NovemberWhiteFloor(x, p).b) ==>
      q == NovemberWhiteFloor(x, p)
  {
    var p1 := NovemberWhiteFloor(x, p);
    if x.z.Some? && x.z.value <= 5.3 && p1.w > p1.b then
      var shift := (p1.w - p1.b) * 0.7;
      p1.(w := p1.w - shift, b := p1.b + shift)
    else p1
  }

  /** The Saturday safety net: any red left is removed and blue and white rescaled to one. */
  function SaturdaySafety(x: Day, p: Probs): (q: Probs)
    ensures NoRedKept(x, p, q)
    ensures Wd(x) == 5 ==> q.r <= 0.0
    ensures Wd(x) == 5 && p.r > 0.0 && p.b + p.w > 0.0 ==> q.r == 0.0 && q.Sum() == 1.0
    ensures !(Wd(x) == 5 && p.r > 0.0) ==> q == p
  {
    if Wd(x) == 5 && p.r > 0.0 then
      var nb := p.b + p.w;
      if nb > 0.0 then
        ScaledPair(p.b, p.w);
        Probs(p.b * (1.0 / nb), p.w * (1.0 / nb), 0.0)
      else p.(r := 0.0)
    else p
  }

  // ---------------------------------------------------------------------------
  // Patches A, B and C

  /**
   * Patch A, December to February on a red-allowed working day with `Z >= 1.10`:
   * red is raised to `min(white, floor(Z))` when below it, taking half the
   * difference from blue and 30% from white where they can give it; then rescaled.
   */
  function PatchA(x: Day, p: Probs): (q: Probs)
    ensures NoRedKept(x, p, q)
    ensures KeptOrRescaled(p, q)
    ensures !PatchADay(x) ==> q == p
    ensures PatchADay(x) && p.r < PatchATarget(x, p) ==>
      var diff := PatchATarget(x, p) - p.r;
      RescaledOf(q, Probs(Take(p.b, diff * 0.5), Take(p.w, diff * 0.3), PatchATarget(x, p)))
    ensures PatchADay(x) && p.r >= PatchATarget(x, p) ==> RescaledOf(q, p)
    ensures PatchADay(x) && p.Sum() > 0.0 && p.r < p.w <= RedFloorFromZ(x.z) ==> q.r >= q.w
  {
    if PatchADay(x) then
      var target := PatchATarget(x, p);
      var p1 := if p.r < target then
          var diff := target - p.r;
          Probs(Take(p.b, diff * 0.5), Take(p.w, diff * 0.3), p.r + diff)
        else p;
      assert p1.Sum() >= p.Sum();
      var q := Renorm(p1);
      if p.Sum() > 0.0 && p.r < p.w <= RedFloorFromZ(x.z) then
        assert p1.r == p.w >= p1.w;
        RescaledRedOverWhite(q, p1);
        q
      else q
    else p
  }

  /** Rescaling by a positive sum keeps red at or above white. */
  lemma RescaledRedOverWhite(q: Probs, pre: Probs)
    requires RescaledOf(q, pre) && pre.Sum() > 0.0 && pre.r >= pre.w
    ensures q.r >= q.w
  {
    ScaledOrder(q.r, q.w, pre.Sum());
  }

  /** December to February, a red-allowed working day, `Z >= 1.10`. */
  predicate PatchADay(x: Day) {
    x.z.Some? && DeepWinterMonth(Month(x)) && Wd(x) < 5 && RedOk(x) && x.z.value >= 1.10
  }

  /** Red's target in patch A: the floor for `Z`, but never above white, and never below red itself. */
  function PatchATarget(x: Day, p: Probs): (t: real)
    ensures t >= p.r
    ensures t == p.r || t <= p.w
  {
    Max(p.r, Min(p.w, RedFloorFromZ(x.z)))
  }

  /** `amount` taken from `v` when `v` can give all of it; otherwise `v` unchanged. */
  function Take(v: real, amount: real): (t: real)
    ensures v >= amount ==> t == v - amount
    ensures v < amount ==> t == v
  {
    if v >= amount then v - amount else v
  }

  /** Patch B, November with `Z >= 0.75` where red is allowed: red is raised to 0.10, taken from blue and white in proportion; then rescaled. */
  function PatchB(x: Day, p: Probs): (q: Probs)
    ensures NoRedKept(x, p, q)
    ensures KeptOrRescaled(p, q)
    ensures !PatchBDay(x, p) ==> q == p
    ensures PatchBDay(x, p) && p.b + p.w > 0.0 ==> RescaledOf(q, TransferToRed(p, 0.10 - p.r))
    ensures PatchBDay(x, p) && p.b + p.w > 0.0 && p.Sum() == 1.0 ==> q.r == 0.10 && q.Sum() == 1.0
    ensures PatchBDay(x, p) && p.b + p.w <= 0.0 ==> RescaledOf(q, p.(r := 0.10))
  {
    if PatchBDay(x, p) then
      var add := 0.10 - p.r;
      var p1 := if p.b + p.w > 0.0 then TransferToRed(p, add) else p.(r := p.r + add);
      Renorm(p1)
    else p
  }

  /** November with `Z >= 0.75` where red is allowed, and red under 0.10. */
  predicate PatchBDay(x: Day, p: Probs) {
    x.z.Some? && Month(x) == 11 && RedOk(x) && x.z.value >= 0.75 && p.r < 0.10
  }

  /** Patch C, November with `Z >= 0.20` where white is allowed: white is raised to 0.35, taken from blue only when blue can give it all; then rescaled. */
  function PatchC(x: Day, p: Probs): (q: Probs)
    ensures p.r == 0.0 ==> q.r == 0.0
    ensures KeptOrRescaled(p, q)
    ensures !PatchCDay(x, p) ==> q == p
    ensures PatchCDay(x, p) && p.b >= 0.35 - p.w ==> RescaledOf(q, p.(b := p.b - (0.35 - p.w), w := 0.35))
    ensures PatchCDay(x, p) && p.b >= 0.35 - p.w && p.Sum() == 1.0 ==> q.w == 0.35 && q.r == p.r
    ensures PatchCDay(x, p) && p.b < 0.35 - p.w ==> RescaledOf(q, p)
  {
    if PatchCDay(x, p) then
      var add := 0.35 - p.w;
      var p1 := if p.b >= add then p.(b := p.b - add, w := p.w + add) else p;
      Renorm(p1)
    else p
  }

  /** November with `Z >= 0.20` where white is allowed, and white under 0.35. */
  predicate PatchCDay(x: Day, p: Probs) {
    x.z.Some? && Month(x) == 11 && WhiteOk(x) && x.z.value >= 0.20 && p.w < 0.35
  }
}
