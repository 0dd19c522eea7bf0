/**
 * Arithmetic on probability triples (blue, white, red): the decision
 * thresholds, the red floor, shrinking towards the uniform triple, the
 * calendar mask, the weather shift, and the plain argmax decision.
 */
module Transforms {
  import opened Wrappers
  import opened Dates
  import opened TempoCalendar

  /** Probabilities of blue, white and red. */
  datatype Probs = Probs(b: real, w: real, r: real) {
    function Sum(): real { b + w + r }

    function Of(c: Color): real {
      match c
      case Bleu => b
      case Blanc => w
      case Rouge => r
    }
  }

  /** Non-negative entries summing to one. */
  predicate Distribution(p: Probs) {
    p.b >= 0.0 && p.w >= 0.0 && p.r >= 0.0 && p.Sum() == 1.0
  }

  /** Dividing three numbers by their non-zero sum gives three numbers summing to one. */
  lemma Normalise(x: real, y: real, z: real)
    requires x + y + z != 0.0
    ensures x / (x + y + z) + y / (x + y + z) + z / (x + y + z) == 1.0
  {
    DivSum(x, y, z, x + y + z);
    DivSelf(x + y + z);
  }

  /** `q` is `pre` divided by its sum when that sum is positive, and `pre` itself otherwise. */
  predicate RescaledOf(q: Probs, pre: Probs) {
    && (pre.Sum() > 0.0 ==>
          q.Sum() == 1.0 && q.b * pre.Sum() == pre.b && q.w * pre.Sum() == pre.w && q.r * pre.Sum() == pre.r)
    && (pre.Sum() <= 0.0 ==> q == pre)
  }

  /** `s = b + w + r; if s > 0: divide each by s`. */
  function Renorm(p: Probs): (q: Probs)
    ensures RescaledOf(q, p)
    ensures p.r == 0.0 ==> q.r == 0.0
    ensures p.Sum() == 1.0 ==> q == p
  {
    var s := p.Sum();
    if s > 0.0 then
      Normalise(p.b, p.w, p.r);
      DivTimes(p.b, s);
      DivTimes(p.w, s);
      DivTimes(p.r, s);
      Probs(p.b / s, p.w / s, p.r / s)
    else p
  }

  /** Dividing by the same positive sum keeps the order of two entries. */
  lemma ScaledOrder(a: real, b: real, s: real)
    requires s > 0.0 && a * s >= b * s
    ensures a >= b
  {
    assert (a - b) * s >= 0.0;
  }

  lemma DivSum(x: real, y: real, z: real, s: real)
    requires s != 0.0
    ensures x / s + y / s + z / s == (x + y + z) / s
  {
  }

  lemma DivSelf(s: real)
    requires s != 0.0
    ensures s / s == 1.0
  {
  }

  lemma DivTimes(x: real, y: real)
    requires y != 0.0
    ensures x / y * y == x
  {
  }

  lemma MulNonneg(x: real, y: real)
    requires x >= 0.0 && y >= 0.0
    ensures x * y >= 0.0
  {
  }

  function Min(x: real, y: real): real { if x <= y then x else y }
  function Max(x: real, y: real): real { if x >= y then x else y }

  // ---------------------------------------------------------------------------
  // Thresholds and red floor

  /** `thresholds(j, red_rem, white_rem)`: the blue/white and white/red cut-offs for day `j` of the Tempo year. */
  function Thresholds(j: int, redRem: int, whiteRem: int): (t: (real, real))
    ensures j >= 0 && redRem >= 0 && whiteRem >= 0 ==> t.0 <= 4.00 && t.1 <= 3.15
    ensures j == 0 && redRem == 0 && whiteRem == 0 ==> t == (4.00, 3.15)
  {
    var stockBr := redRem + whiteRem;
    (4.00 - 0.015 * j as real - 0.026 * stockBr as real, 3.15 - 0.010 * j as real - 0.031 * redRem as real)
  }

  /** Both cut-offs fall as the Tempo year advances and as more stock remains. */
  lemma ThresholdsMonotone(j: int, j': int, red: int, red': int, white: int, white': int)
    requires j <= j' && red <= red' && white <= white'
    ensures Thresholds(j', red', white').0 <= Thresholds(j, red, white).0
    ensures Thresholds(j', red', white').1 <= Thresholds(j, red, white).1
  {
  }

  /** `red_floor_from_z`: the minimum red probability a high `Z` calls for. */
  function RedFloorFromZ(z: Option<real>): (f: real)
    ensures 0.0 <= f <= 0.22
    ensures z.None? ==> f == 0.0
  {
    match z
    case None => 0.0
    case Some(v) =>
      if v < 1.0 then 0.00
      else if v < 1.10 then 0.10
      else if v < 1.20 then 0.12
      else if v < 1.25 then 0.15
      else if v < 1.30 then 0.18
      else 0.22
  }

  /** A larger `Z` never lowers the floor, and there is no floor below `Z = 1`. */
  lemma RedFloorMonotone(z1: real, z2: real)
    requires z1 <= z2
    ensures RedFloorFromZ(Some(z1)) <= RedFloorFromZ(Some(z2))
    ensures z1 < 1.0 ==> RedFloorFromZ(Some(z1)) == 0.0
    ensures z2 >= 1.30 ==> RedFloorFromZ(Some(z2)) == 0.22
  {
  }

  // ---------------------------------------------------------------------------
  // Shrink

  /** `shrink_probs(p, lam)`: mix with the uniform triple by `lam`, then renormalise. */
  function ShrinkProbs(p: Probs, lam: real): (q: Probs)
    ensures q.Sum() == 1.0
  {
    var u := 1.0 / 3.0;
    var m := Probs((1.0 - lam) * p.b + lam * u, (1.0 - lam) * p.w + lam * u, (1.0 - lam) * p.r + lam * u);
    var s := m.Sum();
    if s <= 0.0 then Probs(u, u, u)
    else
      Normalise(m.b, m.w, m.r);
      Probs(m.b / s, m.w / s, m.r / s)
  }

  /** With `lam = 0` a triple summing to one comes back unchanged. */
  lemma ShrinkNone(p: Probs)
    requires p.Sum() == 1.0
    ensures ShrinkProbs(p, 0.0) == p
  {
  }

  /** With `lam = 1` every triple becomes uniform. */
  lemma ShrinkFull(p: Probs)
    ensures ShrinkProbs(p, 1.0) == Probs(1.0 / 3.0, 1.0 / 3.0, 1.0 / 3.0)
  {
  }

  /** For a distribution and `0 <= lam <= 1` the mix is the distribution moved `lam` of the way to uniform. */
  lemma ShrinkDistribution(p: Probs, lam: real)
    requires Distribution(p) && 0.0 <= lam <= 1.0
    ensures var q := ShrinkProbs(p, lam);
      Distribution(q)
      && q.b == (1.0 - lam) * p.b + lam / 3.0
      && q.w == (1.0 - lam) * p.w + lam / 3.0
      && q.r == (1.0 - lam) * p.r + lam / 3.0
  {
    assert (1.0 - lam) * p.b + (1.0 - lam) * p.w + (1.0 - lam) * p.r == (1.0 - lam) * p.Sum();
    MulNonneg(1.0 - lam, p.b);
    MulNonneg(1.0 - lam, p.w);
    MulNonneg(1.0 - lam, p.r);
  }

  /** Shrinking by at most 1 keeps the order of the three entries. */
  lemma ShrinkKeepsOrder(p: Probs, lam: real, x: Color, y: Color)
    requires Distribution(p) && 0.0 <= lam <= 1.0
    requires p.Of(x) >= p.Of(y)
    ensures ShrinkProbs(p, lam).Of(x) >= ShrinkProbs(p, lam).Of(y)
  {
    ShrinkOf(p, lam, x);
    ShrinkOf(p, lam, y);
    var a, b := p.Of(x), p.Of(y);
    MulNonneg(1.0 - lam, a - b);
    assert (1.0 - lam) * a - (1.0 - lam) * b == (1.0 - lam) * (a - b);
  }

  lemma ShrinkOf(p: Probs, lam: real, c: Color)
    requires Distribution(p) && 0.0 <= lam <= 1.0
    ensures ShrinkProbs(p, lam).Of(c) == (1.0 - lam) * p.Of(c) + lam / 3.0
  {
    ShrinkDistribution(p, lam);
  }

  // ---------------------------------------------------------------------------
  // Calendar mask

  /**
   * The arithmetic of `mask_probs_by_calendar` for a day that is not Sunday,
   * given whether it is a Saturday and whether red and white are allowed.
   */
  function MaskWith(p: Probs, saturday: bool, redOk: bool, whiteOk: bool): (q: Probs)
    ensures !redOk || saturday ==> q.r == 0.0
    ensures q.Sum() == 1.0
  {
    var r := if !redOk then 0.0 else p.r;
    var w := if !whiteOk then 0.0 else p.w;
    var r := if saturday then 0.0 else r;
    var s := p.b + w + r;
    if s <= 0.0 then
      (if saturday then Probs(0.65, 0.35, 0.0) else Probs(0.8, 0.2, 0.0))
    else
      Normalise(p.b, w, r);
      Probs(p.b / s, w / s, r / s)
  }

  /**
   * `mask_probs_by_calendar(d, p)`: Sunday is all blue; otherwise colours the
   * calendar forbids, and red on Saturday, are zeroed and the rest rescaled to
   * one, with fixed fallbacks when nothing is left.
   */
  function MaskProbsByCalendar(d: Date, p: Probs): (q: Probs)
    ensures Weekday(d) == 6 ==> q == Probs(1.0, 0.0, 0.0)
    ensures !Allowed(Rouge, d) || Weekday(d) == 5 ==> q.r == 0.0
    ensures !Allowed(Blanc, d) ==> q.w == 0.0
    ensures q.Sum() == 1.0
  {
    if Weekday(d) == 6 then Probs(1.0, 0.0, 0.0)
    else MaskWith(p, Weekday(d) == 5, Allowed(Rouge, d), Allowed(Blanc, d))
  }

  /** Where some mass is left, the mask rescales what it keeps; where none is, it falls back to a fixed triple. */
  lemma MaskRescales(p: Probs, saturday: bool, redOk: bool, whiteOk: bool)
    ensures var r := if !redOk || saturday then 0.0 else p.r;
      var w := if !whiteOk then 0.0 else p.w;
      var s := p.b + w + r;
      var q := MaskWith(p, saturday, redOk, whiteOk);
      (s <= 0.0 ==> q == (if saturday then Probs(0.65, 0.35, 0.0) else Probs(0.8, 0.2, 0.0)))
      && (s > 0.0 ==> q.b * s == p.b && q.w * s == w && q.r * s == r)
  {
    var r := if !redOk || saturday then 0.0 else p.r;
    var w := if !whiteOk then 0.0 else p.w;
    var s := p.b + w + r;
    if s > 0.0 {
      DivTimes(p.b, s);
      DivTimes(w, s);
      DivTimes(r, s);
    }
  }

  /** A triple that sums to one and already has the forbidden entries at zero is left as it is. */
  lemma MaskWithFixes(p: Probs, saturday: bool, redOk: bool, whiteOk: bool)
    requires p.Sum() == 1.0
    requires !redOk || saturday ==> p.r == 0.0
    requires !whiteOk ==> p.w == 0.0
    ensures MaskWith(p, saturday, redOk, whiteOk) == p
  {
  }

  /** Masking twice is masking once. */
  lemma MaskIdempotent(d: Date, p: Probs)
    ensures MaskProbsByCalendar(d, MaskProbsByCalendar(d, p)) == MaskProbsByCalendar(d, p)
  {
    if Weekday(d) != 6 {
      MaskWithFixes(MaskProbsByCalendar(d, p), Weekday(d) == 5, Allowed(Rouge, d), Allowed(Blanc, d));
    }
  }

  /** Masking a triple with non-negative entries gives a distribution. */
  lemma MaskDistribution(d: Date, p: Probs)
    requires p.b >= 0.0 && p.w >= 0.0 && p.r >= 0.0
    ensures Distribution(MaskProbsByCalendar(d, p))
  {
    if Weekday(d) != 6 {
      MaskWithNonneg(p, Weekday(d) == 5, Allowed(Rouge, d), Allowed(Blanc, d));
    }
  }

  lemma MaskWithNonneg(p: Probs, saturday: bool, redOk: bool, whiteOk: bool)
    requires p.b >= 0.0 && p.w >= 0.0 && p.r >= 0.0
    ensures Distribution(MaskWith(p, saturday, redOk, whiteOk))
  {
    var r := if !redOk || saturday then 0.0 else p.r;
    var w := if !whiteOk then 0.0 else p.w;
    var s := p.b + w + r;
    if s > 0.0 {
      DivNonneg(p.b, s);
      DivNonneg(w, s);
      DivNonneg(r, s);
    }
  }

  lemma DivNonneg(x: real, y: real)
    requires x >= 0.0 && y > 0.0
    ensures x / y >= 0.0
  {
  }

  // ---------------------------------------------------------------------------
  // Weather shift

  function Abs(x: real): real { if x < 0.0 then -x else x }

  /** `meteo_strength_from_delta`: how much probability a temperature gap to the norm may move. */
  function MeteoStrength(deltaT: Option<real>): (s: real)
    ensures s == 0.0 || s == 0.03 || s == 0.06 || s == 0.09
    ensures deltaT.None? || Abs(deltaT.value) < 0.5 <==> s == 0.0
  {
    match deltaT
    case None => 0.0
    case Some(t) =>
      var a := Abs(t);
      if a < 0.5 then 0.00
      else if a < 1.5 then 0.03
      else if a < 3.0 then 0.06
      else 0.09
  }

  /** A larger gap never gives a weaker shift. */
  lemma MeteoStrengthMonotone(t1: real, t2: real)
    requires Abs(t1) <= Abs(t2)
    ensures MeteoStrength(Some(t1)) <= MeteoStrength(Some(t2))
  {
  }

  /**
   * `apply_meteo_shift_probs(p, deltaT)`: a mild day (`deltaT > 0`) moves up to
   * `s` from red to white, then up to `s` from white to blue; a cold day moves
   * blue to white, then white to red; never red to blue directly. The triple is
   * renormalised when its sum is positive; `applied` is the mass moved.
   */
  method ApplyMeteoShift(p: Probs, deltaT: Option<real>) returns (q: Probs, applied: real)
    ensures MeteoStrength(deltaT) == 0.0 ==> q == p && applied == 0.0
    ensures Distribution(p) ==> Distribution(q) && 0.0 <= applied <= 2.0 * MeteoStrength(deltaT)
    ensures var s := MeteoStrength(deltaT);
      Distribution(p) && deltaT.Some? && deltaT.value > 0.0 ==>
        q.r == Max(p.r - s, 0.0) && q.b == p.b + Min(s, p.w + Min(s, p.r))
    ensures var s := MeteoStrength(deltaT);
      Distribution(p) && deltaT.Some? && deltaT.value < 0.0 ==>
        q.b == Max(p.b - s, 0.0) && q.r == p.r + Min(s, p.w + Min(s, p.b))
    ensures (q, applied) == MeteoShifted(p, deltaT)
  {
    var s := MeteoStrength(deltaT);
    if deltaT.None? || s <= 0.0 {
      return p, 0.0;
    }
    var b, w, r;
    if deltaT.value > 0.0 {
      r, w, b, applied := ShiftChain(p.r, p.w, p.b, s);
    } else {
      b, w, r, applied := ShiftChain(p.b, p.w, p.r, s);
    }
    q := Rescaled(b, w, r);
  }

  /**
   * The weather shift as a value: no strength changes nothing; otherwise the
   * two chained moves towards blue (mild) or towards red (cold), the triple
   * rescaled, and the mass moved.
   */
  function MeteoShifted(p: Probs, deltaT: Option<real>): (Probs, real) {
    var s := MeteoStrength(deltaT);
    if deltaT.None? || s <= 0.0 then (p, 0.0)
    else if deltaT.value > 0.0 then
      var (r, w, b, moved) := Chain(p.r, p.w, p.b, s);
      (Renorm(Probs(b, w, r)), moved)
    else
      var (b, w, r, moved) := Chain(p.b, p.w, p.r, s);
      (Renorm(Probs(b, w, r)), moved)
  }

  /** Up to `s` from `src` to `mid`, then up to `s` from `mid` to `dst`, and the total moved. */
  function Chain(src: real, mid: real, dst: real, s: real): (real, real, real, real) {
    var x1 := Min(s, src);
    var x2 := Min(s, mid + x1);
    (src - x1, mid + x1 - x2, dst + x2, x1 + x2)
  }

  /** `s = b + w + r; if s > 0: divide each by s`, on the three values of the meteo shift. */
  method Rescaled(b: real, w: real, r: real) returns (q: Probs)
    ensures b + w + r <= 0.0 || b + w + r == 1.0 ==> q == Probs(b, w, r)
    ensures b + w + r > 0.0 && b >= 0.0 && w >= 0.0 && r >= 0.0 ==> Distribution(q)
    ensures q == Renorm(Probs(b, w, r))
  {
    var tot := b + w + r;
    q := Probs(b, w, r);
    if tot > 0.0 {
      Normalise(b, w, r);
      q := Probs(b / tot, w / tot, r / tot);
    }
  }

  /**
   * The two chained transfers of the weather shift, from `src` through `mid`
   * to `dst`: the sum is kept, and for non-negative entries the source loses
   * at most `s`, the destination gains at most `s`, and nothing goes negative.
   */
  lemma ChainFacts(src: real, mid: real, dst: real, s: real, x1: real, x2: real)
    requires s >= 0.0 && x1 == Min(s, src) && x2 == Min(s, mid + x1)
    ensures (src - x1) + (mid + x1 - x2) + (dst + x2) == src + mid + dst
    ensures src >= 0.0 && mid >= 0.0 && dst >= 0.0 ==>
      src - x1 == Max(src - s, 0.0) && dst + x2 == dst + Min(s, mid + Min(s, src))
      && src - x1 >= 0.0 && mid + x1 - x2 >= 0.0 && dst + x2 >= 0.0
      && 0.0 <= x1 + x2 <= 2.0 * s
  {
  }

  /** The two moves of one meteo shift: up to `s` from `src` to `mid`, then up to `s` from `mid` to `dst`. */
  method ShiftChain(src: real, mid: real, dst: real, s: real) returns (src': real, mid': real, dst': real, moved: real)
    requires s >= 0.0
    ensures src' + mid' + dst' == src + mid + dst
    ensures src >= 0.0 && mid >= 0.0 && dst >= 0.0 ==>
      src' == Max(src - s, 0.0) && dst' == dst + Min(s, mid + Min(s, src))
      && src' >= 0.0 && mid' >= 0.0 && dst' >= 0.0
      && 0.0 <= moved <= 2.0 * s
    ensures (src', mid', dst', moved) == Chain(src, mid, dst, s)
  {
    var x1 := Min(s, src);
    src', mid' := src - x1, mid + x1;
    var x2 := Min(s, mid');
    mid', dst' := mid' - x2, dst + x2;
    moved := x1 + x2;
    ChainFacts(src, mid, dst, s, x1, x2);
  }

  /** On a mild day red never gains and blue never loses; on a cold day the reverse. */
  lemma MeteoShiftDirection(p: Probs, t: real, q: Probs)
    requires Distribution(p)
    requires t > 0.0 ==>
      q.r == Max(p.r - MeteoStrength(Some(t)), 0.0)
      && q.b == p.b + Min(MeteoStrength(Some(t)), p.w + Min(MeteoStrength(Some(t)), p.r))
    requires t < 0.0 ==>
      q.b == Max(p.b - MeteoStrength(Some(t)), 0.0)
      && q.r == p.r + Min(MeteoStrength(Some(t)), p.w + Min(MeteoStrength(Some(t)), p.b))
    ensures t > 0.0 ==> q.r <= p.r && q.b >= p.b
    ensures t < 0.0 ==> q.b <= p.b && q.r >= p.r
  {
  }

  // ---------------------------------------------------------------------------
  // Plain decision

  /**
   * `base_decision_from_probs`: the most probable colour; blue wins every tie,
   * red wins a tie with white.
   */
  function BaseDecisionFromProbs(p: Probs): (c: Color)
    ensures p.Of(c) >= p.b && p.Of(c) >= p.w && p.Of(c) >= p.r
    ensures c == Blanc ==> p.w > p.b && p.w > p.r
    ensures c == Rouge ==> p.r > p.b
  {
    if p.b >= p.w && p.b >= p.r then Bleu
    else if p.r >= p.w then Rouge
    else Blanc
  }

  /** The decision is determined by maximality and the tie order: any colour satisfying both is the one chosen. */
  lemma BaseDecisionUnique(p: Probs, c: Color)
    requires p.Of(c) >= p.b && p.Of(c) >= p.w && p.Of(c) >= p.r
    requires c == Blanc ==> p.w > p.b && p.w > p.r
    requires c == Rouge ==> p.r > p.b
    ensures BaseDecisionFromProbs(p) == c
  {
  }
}
