/**
 * The confidence index of a forecast day: `_compute_confidence_score` (an
 * additive raw score bucketed to 1..5), `_confidence_label` and
 * `_build_confidence_comment`. "Today" is a parameter; the forecast day is
 * `today + offset`.
 */
module Confidence {
  import opened Wrappers
  import opened Dates
  import opened TempoCalendar
  import opened Transforms
  import opened ProbabilityPatches

  /** Where a day's renewable generation came from: published, estimated from J+1's ratio, or carried over. */
  datatype GenSource = Rte | RatioEstimate | Carryover

  /** Position of a colour in the order `bleu`, `blanc`, `rouge` of the source's dictionaries. */
  function Rank(c: Color): int {
    match c
    case Bleu => 0
    case Blanc => 1
    case Rouge => 2
  }

  function Name(c: Color): string {
    match c
    case Bleu => "bleu"
    case Blanc => "blanc"
    case Rouge => "rouge"
  }

  /**
   * `sorted(probs.items(), key=..., reverse=True)`: the colours by decreasing
   * probability; Python's sort is stable, so equal probabilities keep the
   * order blue, white, red.
   */
  function Ranking(p: Probs): (o: (Color, Color, Color))
    ensures o.0 != o.1 && o.1 != o.2 && o.0 != o.2
    ensures p.Of(o.0) >= p.Of(o.1) >= p.Of(o.2)
    ensures p.Of(o.0) == p.Of(o.1) ==> Rank(o.0) < Rank(o.1)
    ensures p.Of(o.1) == p.Of(o.2) ==> Rank(o.1) < Rank(o.2)
  {
    if p.b >= p.w then
      if p.w >= p.r then (Bleu, Blanc, Rouge)
      else if p.b >= p.r then (Bleu, Rouge, Blanc)
      else (Rouge, Bleu, Blanc)
    else
      if p.b >= p.r then (Blanc, Bleu, Rouge)
      else if p.w >= p.r then (Blanc, Rouge, Bleu)
      else (Rouge, Blanc, Bleu)
  }

  /** The stable decreasing order is the only order of three distinct colours that sorts them and keeps ties in place. */
  lemma RankingUnique(p: Probs, o: (Color, Color, Color))
    requires o.0 != o.1 && o.1 != o.2 && o.0 != o.2
    requires p.Of(o.0) >= p.Of(o.1) >= p.Of(o.2)
    requires p.Of(o.0) == p.Of(o.1) ==> Rank(o.0) < Rank(o.1)
    requires p.Of(o.1) == p.Of(o.2) ==> Rank(o.1) < Rank(o.2)
    ensures o == Ranking(p)
  {
  }

  // ---------------------------------------------------------------------------
  // Raw score terms

  /** 1) Strength of the winning colour. */
  function WinnerTerm(p1: real): (t: real)
    ensures 0.7 <= t <= 3.0
    ensures p1 >= 0.75 <==> t == 3.0
  {
    if p1 >= 0.75 then 3.0
    else if p1 >= 0.65 then 2.5
    else if p1 >= 0.55 then 2.0
    else if p1 >= 0.48 then 1.5
    else if p1 >= 0.45 then 1.2
    else 0.7
  }

  /** 2) Gap between the winner and the second. */
  function GapTerm(gap: real): (t: real)
    ensures -1.0 <= t <= 1.0
    ensures gap >= 0.25 <==> t == 1.0
    ensures gap < 0.04 <==> t == -1.0
  {
    if gap >= 0.25 then 1.0
    else if gap >= 0.15 then 0.5
    else if gap >= 0.08 then 0.0
    else if gap >= 0.04 then -0.5
    else -1.0
  }

  /** 3) Distance in time: J+1 is the most reliable. */
  function HorizonTerm(offset: int): (t: real)
    ensures -0.8 <= t <= 1.5
    ensures offset >= 6 ==> t == -0.8
  {
    if offset == 1 then 1.5
    else if offset == 2 then 1.0
    else if offset == 3 then 0.5
    else if offset == 5 then -0.5
    else if offset >= 6 then -0.8
    else 0.0
  }

  /** 4) Broad seasonal effect, by colour and month. */
  function SeasonTerm(c: Color, month: int): (t: real)
    ensures -1.0 <= t <= 0.4
  {
    match c
    case Rouge =>
      if month == 1 || month == 2 then 0.3
      else if month == 12 || month == 3 then 0.0
      else if month == 11 then -0.45
      else -1.0
    case Blanc =>
      if InRedMonths(month) then 0.1
      else if month == 4 || month == 10 then 0.0
      else -0.6
    case Bleu =>
      if 5 <= month <= 9 then 0.4
      else if month == 4 || month == 10 || month == 11 then 0.1
      else if month == 12 || month == 1 || month == 2 || month == 3 then -0.1
      else 0.0
  }

  /** 4 bis) Finer red adjustment by month, day and red stock; it only ever lowers the score, and only for red. */
  function RedRefinement(c: Color, month: int, day: int, redRem: int): (t: real)
    ensures -0.8 <= t <= 0.0
    ensures c != Rouge ==> t == 0.0
  {
    if c != Rouge then 0.0
    else if month == 11 then -0.4
    else if month == 12 then
      (if day < 10 then -0.3 else if day > 28 then (if redRem <= 6 then -0.4 else -0.1) else 0.0)
    else if month == 2 then
      (if day > 25 && redRem <= 8 then -0.5 else if day > 20 && redRem <= 8 then -0.3 else 0.0)
    else if month == 3 then
      (if day > 20 && redRem <= 8 then -0.8 else if day > 15 && redRem <= 8 then -0.5 else 0.0)
    else 0.0
  }

  /** 5) Remaining red and white stock against the straight line of the season. */
  function StockTerm(c: Color, d: Date, redRem: int, whiteRem: int): (t: real)
    ensures -0.7 <= t <= 0.0
  {
    var deltaRed := redRem as real - ExpectedRedLeftInSeason(d);
    var deltaWhite := whiteRem as real - ExpectedWhiteLeftInSeason(d);
    var tRed := if deltaRed > 4.0 && c != Rouge then -0.4 else if deltaRed < -4.0 && c == Rouge then -0.4 else 0.0;
    var tBlue := if deltaWhite > 6.0 && c == Bleu then -0.3 else 0.0;
    var tWhite := if deltaWhite < -6.0 && (c == Blanc || c == Rouge) then -0.3 else 0.0;
    tRed + tBlue + tWhite
  }

  /** 5 bis) A close blue/white duel with little red. */
  predicate BlueWhiteDuel(p: Probs) {
    p.r < 0.15 && Max(p.b, p.w) >= 0.45 && Abs(p.b - p.w) < 0.15
  }

  /** 5 ter) Estimated or carried-over generation lowers confidence, most for far days. */
  function SourceTerm(gen: Option<GenSource>, offset: int): (t: real)
    ensures -1.0 <= t <= 0.0
    ensures gen.None? || gen == Some(Rte) ==> t == 0.0
    ensures offset <= 2 ==> t >= -0.3
  {
    if gen == Some(Carryover) || gen == Some(RatioEstimate) then
      if offset >= 4 then -1.0 else if offset == 3 then -0.6 else -0.3
    else 0.0
  }

  /** 6) A small boost for J+1 and J+2 when the model is fairly clear and the raw score is still under 3. */
  function NearBoost(offset: int, p1: real, gap: real, raw: real): (t: real)
    ensures t == 0.0 || t == 0.5
    ensures t == 0.5 ==> raw < 3.0
    ensures offset != 1 && offset != 2 ==> t == 0.0
  {
    if (offset == 1 || offset == 2) && p1 >= 0.46 && gap >= 0.03 && raw < 3.0 then 0.5 else 0.0
  }

  /**
   * The raw score of a day with all three probabilities known, before
   * bucketing: the sum of the terms above, from -5 with every term at its
   * lowest to 5.9 with every term at its highest (the near boost only applies
   * below 3).
   */
  function RawScore(d: Date, c: Color, p: Probs, redRem: int, whiteRem: int, offset: int, gen: Option<GenSource>): (r: real)
    ensures -5.0 <= r <= 5.9
  {
    var (c1, c2, _) := Ranking(p);
    var p1 := p.Of(c1);
    var gap := p1 - p.Of(c2);
    var raw := WinnerTerm(p1) + GapTerm(gap) + HorizonTerm(offset)
      + SeasonTerm(c, d.month) + RedRefinement(c, d.month, d.day, redRem)
      + StockTerm(c, d, redRem, whiteRem)
      + (if BlueWhiteDuel(p) then -0.4 else 0.0)
      + SourceTerm(gen, offset);
    raw + NearBoost(offset, p1, gap, raw)
  }

  /** 7) The raw score to a score of 1 to 5. */
  function Bucket(raw: real): (s: int)
    ensures 1 <= s <= 5
    ensures s == 1 <==> raw <= 0.5
    ensures s == 2 <==> 0.5 < raw <= 1.5
    ensures s == 3 <==> 1.5 < raw <= 2.5
    ensures s == 4 <==> 2.5 < raw <= 3.5
    ensures s == 5 <==> raw > 3.5
  {
    if raw <= 0.5 then 1
    else if raw <= 1.5 then 2
    else if raw <= 2.5 then 3
    else if raw <= 3.5 then 4
    else 5
  }

  /** A higher raw score never gives a lower score. */
  lemma BucketMonotone(r1: real, r2: real)
    requires r1 <= r2
    ensures Bucket(r1) <= Bucket(r2)
  {
  }

  /**
   * `_compute_confidence_score(couleur, p_bleu, p_blanc, p_rouge, red_rem,
   * white_rem, offset, gen_source)`: unavailable when a probability is missing,
   * 5 for blue on a Sunday, otherwise the bucketed raw score.
   */
  function ComputeConfidenceScore(today: Date, c: Color, pb: Option<real>, pw: Option<real>, pr: Option<real>,
                                  redRem: int, whiteRem: int, offset: int, gen: Option<GenSource>): (s: Option<int>)
    ensures s.None? <==> pb.None? || pw.None? || pr.None?
    ensures s.Some? ==> 1 <= s.value <= 5
    ensures s.Some? && c == Bleu && Weekday(AddDays(today, offset)) == 6 ==> s.value == 5
    ensures s.Some? && !(c == Bleu && Weekday(AddDays(today, offset)) == 6) ==>
      s.value == Bucket(RawScore(AddDays(today, offset), c, Probs(pb.value, pw.value, pr.value), redRem, whiteRem, offset, gen))
  {
    if pb.None? || pw.None? || pr.None? then None
    else
      var d := AddDays(today, offset);
      if c == Bleu && Weekday(d) == 6 then Some(5)
      else Some(Bucket(RawScore(d, c, Probs(pb.value, pw.value, pr.value), redRem, whiteRem, offset, gen)))
  }

  /** A clear J+1 forecast (winner at 0.75 or more, 0.25 ahead of the second) always scores at least 4. */
  lemma ClearNextDayIsStrong(d: Date, c: Color, p: Probs, redRem: int, whiteRem: int, gen: Option<GenSource>)
    requires var (c1, c2, _) := Ranking(p); p.Of(c1) >= 0.75 && p.Of(c1) - p.Of(c2) >= 0.25
    ensures Bucket(RawScore(d, c, p, redRem, whiteRem, 1, gen)) >= 4
  {
    var (c1, c2, _) := Ranking(p);
    assert !BlueWhiteDuel(p);
    var raw := RawScore(d, c, p, redRem, whiteRem, 1, gen);
    assert raw > 2.5;
  }

  /** A far (J+6 or later) forecast with a winner under 0.45 and a gap under 0.04 always scores 1. */
  lemma UndecidedFarDayIsVeryWeak(d: Date, c: Color, p: Probs, redRem: int, whiteRem: int, offset: int, gen: Option<GenSource>)
    requires offset >= 6
    requires var (c1, c2, _) := Ranking(p); p.Of(c1) < 0.45 && p.Of(c1) - p.Of(c2) < 0.04
    ensures Bucket(RawScore(d, c, p, redRem, whiteRem, offset, gen)) == 1
  {
    var raw := RawScore(d, c, p, redRem, whiteRem, offset, gen);
    assert raw <= 0.5;
  }

  /** `_confidence_label(score)`. */
  function ConfidenceLabel(score: Option<int>): (l: string)
    ensures score.None? ==> l == "Indisponible"
    ensures score.Some? && score.value >= 5 ==> l == "Très forte"
    ensures score == Some(4) ==> l == "Forte"
    ensures score == Some(3) ==> l == "Moyenne"
    ensures score == Some(2) ==> l == "Faible"
    ensures score.Some? && score.value <= 1 ==> l == "Très faible"
  {
    match score
    case None => "Indisponible"
    case Some(s) =>
      if s as real >= 4.5 then "Très forte"
      else if s as real >= 3.5 then "Forte"
      else if s as real >= 2.5 then "Moyenne"
      else if s as real >= 1.5 then "Faible"
      else "Très faible"
  }

  // ---------------------------------------------------------------------------
  // Comment

  /** How far ahead the day is: J+1 and J+2 are near, J+3 middle, the rest far. */
  datatype Distance = Near | Middle | Far

  function DistanceOf(offset: int): Distance {
    if offset <= 2 then Near else if offset <= 3 then Middle else Far
  }

  /**
   * The messages of `_build_confidence_comment`, one constructor per message,
   * and the forecast's message for a J+1 colour published by RTE; `Text` gives
   * the wording.
   */
  datatype Comment =
    | Missing
    | SundayBlue
    | DuelLead(leader: Color)
    | DuelTight
    | RedRiskBehind(leader: Color)
    | RedRiskOpen
    | VeryStrong(dist: Distance, leader: Color)
    | Strong(dist: Distance, leader: Color)
    | Sensitive(leader: Color, second: Color)
    | FarLikely(leader: Color)
    | Likely(leader: Color)
    | FarUncertain
    | SmallGap(second: Color)
    | Open
    | VeryFar
    | Hesitant
    | ConfirmedByRte

  function Text(m: Comment): string {
    match m
    case Missing => "Indice de confiance indisponible (données manquantes)."
    case SundayBlue => "Dimanche, bleu certain."
    case DuelLead(c1) => "Duel bleu/blanc :  avance " + Name(c1) + "."
    case DuelTight => "Duel bleu/blanc très serré, prévision sensible."
    case RedRiskBehind(c1) => Name(c1) + " devant, mais risque rouge en embuscade."
    case RedRiskOpen => "Risque rouge marqué, plusieurs scénarios restent ouverts."
    case VeryStrong(dist, c1) =>
      (match dist
       case Near => "Jour proche, " + Name(c1) + " nettement probable."
       case Middle => "Couleur clairement en tête, à surveiller."
       case Far => "Couleur en tête. Prévision lointaine.")
    case Strong(dist, c1) =>
      (match dist
       case Near => "Jour proche : " + Name(c1) + " clairement favori."
       case Middle => "Couleur en tête, à surveiller."
       case Far => "Prévision lointaine, une autre couleur reste crédible.")
    case Sensitive(c1, c2) => "Duel " + Name(c1) + "/" + Name(c2) + ", prévision sensible."
    case FarLikely(c1) => "Jour éloigné, " + Name(c1) + " probable, bascule possible."
    case Likely(c1) => Name(c1) + " probable, mais bascule possible."
    case FarUncertain => "Jour lointain, beaucoup d’incertitude."
    case SmallGap(c2) => "Écart faible : " + Name(c2) + " reste une vraie option."
    case Open => "Plusieurs scénarios restent ouverts."
    case VeryFar => "Prévision très lointaine, fiabilité très faible."
    case Hesitant => "Couleurs très proches, modèle hésitant."
    case ConfirmedByRte => "Couleur J+1 confirmée par RTE."
  }

  /** The duel messages. */
  predicate IsDuel(m: Comment) { m.DuelLead? || m == DuelTight }

  /**
   * `_build_confidence_comment(couleur, p_bleu, p_blanc, p_rouge, score, offset)`:
   * missing data first, then certain blue on Sunday, then the blue/white duel
   * (the same condition that costs the raw score 0.4), then a red risk behind
   * another colour, then the ladder by score and distance.
   */
  function ConfidenceComment(today: Date, c: Color, pb: Option<real>, pw: Option<real>, pr: Option<real>,
                             score: int, offset: int): (m: Comment)
    ensures m == Missing <==> pb.None? || pw.None? || pr.None?
    ensures m == SundayBlue <==> pb.Some? && pw.Some? && pr.Some? && c == Bleu && Weekday(AddDays(today, offset)) == 6
    ensures pb.Some? && pw.Some? && pr.Some? && m != SundayBlue ==>
      (IsDuel(m) <==> BlueWhiteDuel(Probs(pb.value, pw.value, pr.value)))
    ensures IsDuel(m) ==> (m == DuelTight <==> score < 3)
    ensures m.DuelLead? || m.RedRiskBehind? || m.VeryStrong? || m.Strong? || m.Sensitive? || m.FarLikely? || m.Likely? ==>
      m.leader == Ranking(Probs(pb.value, pw.value, pr.value)).0
    ensures m.RedRiskBehind? || m == RedRiskOpen ==> c != Rouge && pr.value >= 0.25
    ensures m.VeryStrong? ==> score == 5 && m.dist == DistanceOf(offset)
    ensures m.Strong? ==> score == 4 && m.dist == DistanceOf(offset)
    ensures m.Sensitive? || m.FarLikely? || m.Likely? ==> score == 3
    ensures m == FarUncertain || m.SmallGap? || m == Open ==> score == 2
    ensures m == VeryFar || m == Hesitant ==> score != 2 && score != 3 && score != 4 && score != 5
    ensures pb.Some? && pw.Some? && pr.Some? && m != SundayBlue ==>
      m == ProbabilityComment(c, Probs(pb.value, pw.value, pr.value), score, DistanceOf(offset))
  {
    if pb.None? || pw.None? || pr.None? then Missing
    else if c == Bleu && Weekday(AddDays(today, offset)) == 6 then SundayBlue
    else ProbabilityComment(c, Probs(pb.value, pw.value, pr.value), score, DistanceOf(offset))
  }

  /** The gap between the two most probable colours. */
  function LeadGap(p: Probs): (g: real)
    ensures g >= 0.0
  {
    var (c1, c2, _) := Ranking(p);
    p.Of(c1) - p.Of(c2)
  }

  /** Neither a blue/white duel nor a red risk: the comment comes from the ladder by score and distance. */
  predicate OnLadder(c: Color, p: Probs) {
    !BlueWhiteDuel(p) && !(c != Rouge && p.r >= 0.25)
  }

  /**
   * The comment once the probabilities are known and the day is not a certain
   * blue Sunday. On the ladder: score 3 is "sensitive" when the two leaders are
   * within 0.15, else "likely" (far or not); score 2 is "uncertain" when far,
   * else "small gap" when the leaders are within 0.08, else "open"; below 2,
   * "very far" when far, else "hesitant".
   */
  function ProbabilityComment(c: Color, p: Probs, score: int, dist: Distance): (m: Comment)
    ensures m != Missing && m != SundayBlue
    ensures IsDuel(m) <==> BlueWhiteDuel(p)
    ensures IsDuel(m) ==> (m == DuelTight <==> score < 3)
    ensures !BlueWhiteDuel(p) ==> (m.RedRiskBehind? || m == RedRiskOpen <==> c != Rouge && p.r >= 0.25)
    ensures m.RedRiskBehind? || m == RedRiskOpen ==> (m == RedRiskOpen <==> score < 3)
    ensures OnLadder(c, p) && score == 5 ==> m == VeryStrong(dist, Ranking(p).0)
    ensures OnLadder(c, p) && score == 4 ==> m == Strong(dist, Ranking(p).0)
    ensures OnLadder(c, p) && score == 3 ==>
      && (m.Sensitive? <==> LeadGap(p) <= 0.15)
      && (m.FarLikely? <==> LeadGap(p) > 0.15 && dist == Far)
      && (m.Likely? <==> LeadGap(p) > 0.15 && dist != Far)
    ensures m.Sensitive? ==> m.second == Ranking(p).1
    ensures OnLadder(c, p) && score == 2 ==>
      && (m == FarUncertain <==> dist == Far)
      && (m.SmallGap? <==> dist != Far && LeadGap(p) <= 0.08)
      && (m == Open <==> dist != Far && LeadGap(p) > 0.08)
    ensures m.SmallGap? ==> m.second == Ranking(p).1
    ensures OnLadder(c, p) && !(2 <= score <= 5) ==> (m == VeryFar <==> dist == Far) && (m == Hesitant <==> dist != Far)
    ensures m.DuelLead? || m.RedRiskBehind? || m.VeryStrong? || m.Strong? || m.Sensitive? || m.FarLikely? || m.Likely? ==>
      m.leader == Ranking(p).0
    ensures m.RedRiskBehind? || m == RedRiskOpen ==> c != Rouge && p.r >= 0.25
    ensures m.VeryStrong? ==> score == 5 && m.dist == dist
    ensures m.Strong? ==> score == 4 && m.dist == dist
    ensures m.Sensitive? || m.FarLikely? || m.Likely? ==> score == 3
    ensures m == FarUncertain || m.SmallGap? || m == Open ==> score == 2
    ensures m == VeryFar || m == Hesitant ==> score != 2 && score != 3 && score != 4 && score != 5
  {
    var (c1, c2, _) := Ranking(p);
    var gap := p.Of(c1) - p.Of(c2);
    if BlueWhiteDuel(p) then (if score >= 3 then DuelLead(c1) else DuelTight)
    else if c != Rouge && p.r >= 0.25 then (if score >= 3 then RedRiskBehind(c1) else RedRiskOpen)
    else if score == 5 then VeryStrong(dist, c1)
    else if score == 4 then Strong(dist, c1)
    else if score == 3 then
      if Abs(gap) <= 0.15 then Sensitive(c1, c2)
      else if dist == Far then FarLikely(c1)
      else Likely(c1)
    else if score == 2 then
      if dist == Far then FarUncertain
      else if Abs(gap) <= 0.08 then SmallGap(c2)
      else Open
    else if dist == Far then VeryFar
    else Hesitant
  }
}
