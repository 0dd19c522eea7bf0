/**
 * `build_forecast`: the six days J+1 to J+6 after `today`. A first pass gathers
 * each day's inputs: consumption, renewable generation and where it came from,
 * the temperature gap to the norm, net consumption and its anomaly score. A
 * second pass takes the days in order, with the stocks the earlier days left:
 * it runs the scorer, pulls the further days towards uniform, shifts for the
 * temperature, masks by the calendar, lets RTE's published J+1 colour win
 * after 06:45, uses one day of the final colour's stock and rates the
 * forecast's confidence. The fetched series, the clock test and `sqrt` are
 * parameters.
 */
module Forecast {
  import opened Wrappers
  import opened Dates
  import opened TempoCalendar
  import opened TemperatureNorms
  import Anomaly
  import opened Transforms
  import opened Scorer
  import opened RawScores
  import opened Confidence

  /** The series the driver fetches: consumption (short term and weekly), generation, the annual daily series, temperatures. */
  datatype Inputs = Inputs(
    consShort: map<Date, real>,
    consWeek: map<Date, real>,
    gen: map<Date, real>,
    daily: seq<Anomaly.DailyRow>,
    tnat: map<Date, real>)

  /** `m.get(d)`. */
  function Get(m: map<Date, real>, d: Date): Option<real> {
    if d in m then Some(m[d]) else None
  }

  /** `cons_short.get(d) or cons_week.get(d)`. */
  function Consumption(inp: Inputs, d: Date): Option<real> {
    OrElse(Get(inp.consShort, d), Get(inp.consWeek, d))
  }

  /** `max(0.0, min(0.5, ratio))`. */
  function ClampRatio(x: real): (r: real)
    ensures 0.0 <= r <= 0.5
    ensures 0.0 <= x <= 0.5 ==> r == x
    ensures x < 0.0 ==> r == 0.0
    ensures x > 0.5 ==> r == 0.5
  {
    Max(0.0, Min(0.5, x))
  }

  /**
   * J+1's generation over J+1's consumption, clamped to [0, 0.5]: defined
   * exactly when J+1 has a published generation and a positive consumption.
   */
  function NextDayRatio(today: Date, inp: Inputs): (r: Option<real>)
    ensures r.Some? <==>
      NextDay(today) in inp.gen && Consumption(inp, NextDay(today)).Some? && Consumption(inp, NextDay(today)).value > 0.0
    ensures r.Some? ==> 0.0 <= r.value <= 0.5
  {
    var d1 := NextDay(today);
    var c1 := Consumption(inp, d1);
    var g1 := Get(inp.gen, d1);
    if c1.Some? && g1.Some? && c1.value > 0.0 then Some(ClampRatio(g1.value / c1.value)) else None
  }

  /** Which anomaly score a day got: from the annual series, or the fixed-constant fallback. */
  datatype ZSource = AnnualForecast | FallbackStd

  /** A day of the first pass. */
  datatype Entry = Entry(
    offset: int,
    d: Date,
    conso: Option<real>,
    gen: Option<real>,
    source: Option<GenSource>,
    tNat: Option<real>,
    tNorm: Option<real>,
    deltaT: Option<real>,
    cNet: Option<real>,
    z: Option<real>,
    zSource: Option<ZSource>)

  /** `last_gen_val` after the days `es`: the latest generation that was published or estimated, never a carried one. */
  function LastKnownGen(es: seq<Entry>): Option<real> {
    if |es| == 0 then None
    else if es[|es| - 1].source == Some(Rte) || es[|es| - 1].source == Some(RatioEstimate) then es[|es| - 1].gen
    else LastKnownGen(es[..|es| - 1])
  }

  /** `T_nat - T_norm` when both are known. */
  function TemperatureGap(tNat: Option<real>, tNorm: Option<real>): (g: Option<real>)
    ensures g.Some? <==> tNat.Some? && tNorm.Some?
    ensures g.Some? ==> g.value + tNorm.value == tNat.value
  {
    if tNat.Some? && tNorm.Some? then Some(tNat.value - tNorm.value) else None
  }

  /** A day's net consumption: its consumption less its generation, or the consumption alone when it has none. */
  function NetConsumption(conso: real, gen: Option<real>): (c: real)
    ensures gen.None? ==> c == conso
    ensures gen.Some? ==> c + gen.value == conso
  {
    conso - gen.GetOr(0.0)
  }

  /** The day's anomaly score: over the annual series when it is non-empty, else the fixed-constant score. */
  function ZScore(inp: Inputs, d: Date, cNet: real, sqrtFn: real -> real): real {
    if |inp.daily| > 0 then Anomaly.ZFromHistory(Anomaly.HistoryValues(inp.daily, Ordinal(d), 365), cNet, sqrtFn).z
    else Anomaly.ComputeZ(cNet)
  }

  /**
   * Where a day's generation comes from, given the last value published or
   * estimated on the days before it (`lastKnown`): a published
   * value wins; failing that, J+2 and J+3 with a consumption estimate theirs as
   * their consumption times J+1's clamped ratio; failing that, a day with a
   * consumption carries over the last value published or estimated; otherwise
   * the day has none.
   */
  predicate GenerationResolved(today: Date, inp: Inputs, lastKnown: Option<real>, e: Entry) {
    GenerationFrom(today, inp, lastKnown, e.offset, e.d, e.conso, e.gen, e.source)
  }

  /** `GenerationResolved` on the fields of a day: its offset, date, consumption, generation and source. */
  predicate GenerationFrom(today: Date, inp: Inputs, lastKnown: Option<real>, offset: int, d: Date,
                           conso: Option<real>, gen: Option<real>, source: Option<GenSource>) {
    var mayEstimate := (offset == 2 || offset == 3) && NextDayRatio(today, inp).Some?;
    && (source == Some(Rte) <==> d in inp.gen)
    && (source == Some(Rte) ==> gen == Some(inp.gen[d]))
    && (source == Some(RatioEstimate) <==> d !in inp.gen && conso.Some? && mayEstimate)
    && (source == Some(RatioEstimate) ==> gen == Some(conso.value * NextDayRatio(today, inp).value))
    && (source == Some(Carryover) <==> d !in inp.gen && conso.Some? && !mayEstimate && lastKnown.Some?)
    && (source == Some(Carryover) ==> gen == lastKnown)
    && (source.None? ==> gen.None?)
  }

  /**
   * The first pass's record for the day `offset` days after `today`: its
   * consumption, its generation as `GenerationResolved` says, its temperature
   * gap and, exactly on days with a consumption, its net consumption and
   * anomaly score.
   */
  predicate DayInputsResolved(today: Date, inp: Inputs, sqrtFn: real -> real, offset: int, lastKnown: Option<real>, e: Entry) {
    && e.offset == offset
    && e.d == AddDays(today, offset)
    && e.conso == Consumption(inp, e.d)
    && GenerationResolved(today, inp, lastKnown, e)
    && e.tNat == Get(inp.tnat, e.d)
    && e.tNorm == RteNormTemp(e.d)
    && e.deltaT == TemperatureGap(e.tNat, e.tNorm)
    && (e.conso.None? ==> e.cNet.None? && e.z.None? && e.zSource.None?)
    && (e.conso.Some? ==> e.cNet == Some(NetConsumption(e.conso.value, e.gen)))
    && (e.conso.Some? ==> e.z == Some(ZScore(inp, e.d, e.cNet.value, sqrtFn)))
    && (e.conso.Some? ==> e.zSource == Some(if |inp.daily| > 0 then AnnualForecast else FallbackStd))
  }

  /** `P` holds of every day of `es`, given its offset and the last generation published or estimated before it. */
  predicate EachDay(P: (int, Option<real>, Entry) -> bool, es: seq<Entry>) {
    forall i :: 0 <= i < |es| ==> P(i + 1, LastKnownGen(es[..i]), es[i])
  }

  lemma EachDaySnoc(P: (int, Option<real>, Entry) -> bool, es: seq<Entry>, e: Entry)
    requires EachDay(P, es)
    requires P(|es| + 1, LastKnownGen(es), e)
    ensures EachDay(P, es + [e])
    ensures LastKnownGen(es + [e]) ==
      (if e.source == Some(Rte) || e.source == Some(RatioEstimate) then e.gen else LastKnownGen(es))
  {
    var es' := es + [e];
    assert es'[..|es|] == es;
    forall i | 0 <= i < |es'|
      ensures P(i + 1, LastKnownGen(es'[..i]), es'[i])
    {
      if i < |es| {
        assert es'[..i] == es[..i];
      }
    }
  }

  /** The first pass's record, as a predicate on a day's offset, last known generation and record. */
  function Resolver(today: Date, inp: Inputs, sqrtFn: real -> real): (int, Option<real>, Entry) -> bool {
    (offset: int, lastKnown: Option<real>, e: Entry) => DayInputsResolved(today, inp, sqrtFn, offset, lastKnown, e)
  }

  /** Every day of `es` is the first pass's record for its offset, given the days before it. */
  predicate DaysResolved(today: Date, inp: Inputs, sqrtFn: real -> real, es: seq<Entry>) {
    EachDay(Resolver(today, inp, sqrtFn), es)
  }

  lemma DaysResolvedSnoc(today: Date, inp: Inputs, sqrtFn: real -> real, es: seq<Entry>, e: Entry)
    requires DaysResolved(today, inp, sqrtFn, es)
    requires DayInputsResolved(today, inp, sqrtFn, |es| + 1, LastKnownGen(es), e)
    ensures DaysResolved(today, inp, sqrtFn, es + [e])
    ensures LastKnownGen(es + [e]) ==
      (if e.source == Some(Rte) || e.source == Some(RatioEstimate) then e.gen else LastKnownGen(es))
  {
    EachDaySnoc(Resolver(today, inp, sqrtFn), es, e);
  }

  /** The generation part of one iteration of the first loop: the day's value, its source and the new `last_gen_val`. */
  method ResolveGeneration(today: Date, inp: Inputs, offset: int, d: Date, conso: Option<real>, lastGen: Option<real>)
    returns (genVal: Option<real>, source: Option<GenSource>, lastGen': Option<real>)
    ensures GenerationFrom(today, inp, lastGen, offset, d, conso, genVal, source)
    ensures lastGen' == (if source == Some(Rte) || source == Some(RatioEstimate) then genVal else lastGen)
  {
    lastGen' := lastGen;
    genVal := Get(inp.gen, d);
    source := None;
    if genVal.Some? {
      source := Some(Rte);
      lastGen' := genVal;
    }
    if genVal.None? && conso.Some? && (offset == 2 || offset == 3) {
      var ratio := NextDayRatio(today, inp);
      if ratio.Some? {
        var estimate := conso.value * ratio.value;
        genVal := Some(estimate);
        source := Some(RatioEstimate);
        lastGen' := genVal;
        assert genVal.value == conso.value * NextDayRatio(today, inp).value;
      }
    }
    if genVal.None? && conso.Some? && lastGen'.Some? {
      genVal := lastGen';
      source := if source.Some? then source else Some(Carryover);
    }
  }

  /** The net consumption and anomaly score part of one iteration of the first loop. */
  method NetAndScore(inp: Inputs, d: Date, conso: Option<real>, genVal: Option<real>, sqrtFn: real -> real)
    returns (cNet: Option<real>, z: Option<real>, zSource: Option<ZSource>)
    ensures conso.None? ==> cNet.None? && z.None? && zSource.None?
    ensures conso.Some? ==> cNet == Some(NetConsumption(conso.value, genVal))
    ensures conso.Some? ==> z == Some(ZScore(inp, d, cNet.value, sqrtFn))
    ensures conso.Some? ==> zSource == Some(if |inp.daily| > 0 then AnnualForecast else FallbackStd)
  {
    cNet, z, zSource := None, None, None;
    if conso.Some? {
      var c := NetConsumption(conso.value, genVal);
      cNet := Some(c);
      if |inp.daily| > 0 {
        var target := Ordinal(d);
        var out := Anomaly.ComputeZRteLike(target, c, inp.daily, 365, sqrtFn);
        assert out.z == ZScore(inp, d, c, sqrtFn);
        z, zSource := Some(out.z), Some(AnnualForecast);
      } else {
        z, zSource := Some(Anomaly.ComputeZ(c)), Some(FallbackStd);
      }
    }
  }

  /** One iteration of the first loop of `build_forecast`, with `last_gen_val` before and after the day. */
  method ResolveDay(today: Date, inp: Inputs, sqrtFn: real -> real, offset: int, lastGen: Option<real>)
    returns (e: Entry, lastGen': Option<real>)
    ensures DayInputsResolved(today, inp, sqrtFn, offset, lastGen, e)
    ensures lastGen' == (if e.source == Some(Rte) || e.source == Some(RatioEstimate) then e.gen else lastGen)
  {
    var d := AddDays(today, offset);
    var conso := Consumption(inp, d);
    var genVal, source;
    genVal, source, lastGen' := ResolveGeneration(today, inp, offset, d, conso, lastGen);
    var tNat := Get(inp.tnat, d);
    var tNorm := RteNormTemp(d);
    var cNet, z, zSource := NetAndScore(inp, d, conso, genVal, sqrtFn);
    e := Entry(offset, d, conso, genVal, source, tNat, tNorm, TemperatureGap(tNat, tNorm), cNet, z, zSource);
  }

  /** The first loop of `build_forecast`: the inputs of J+1 to J+6. */
  method ResolveDays(today: Date, inp: Inputs, sqrtFn: real -> real) returns (es: seq<Entry>)
    ensures |es| == 6
    ensures DaysResolved(today, inp, sqrtFn, es)
  {
    es := [];
    var lastGen: Option<real> := None;
    var offset := 1;
    while offset <= 6
      invariant 1 <= offset <= 7
      invariant |es| == offset - 1
      invariant lastGen == LastKnownGen(es)
      invariant DaysResolved(today, inp, sqrtFn, es)
    {
      var e;
      e, lastGen := ResolveDay(today, inp, sqrtFn, offset, lastGen);
      DaysResolvedSnoc(today, inp, sqrtFn, es, e);
      es := es + [e];
      offset := offset + 1;
    }
  }

  // ---------------------------------------------------------------------------
  // Second pass

  /** The three stocks: red, white and blue days left. */
  /** How a forecast day was decided: the internal model, or RTE's published J+1 colour. */
  datatype ModelKind = Internal | OverrideRte

  /**
   * A day of the result: its first-pass record, its colour (`None` for
   * `inconnue`), how it was decided, the stocks after it, its probabilities,
   * its confidence score, label and comment, and the temperature shift applied.
   */
  datatype DayResult = DayResult(
    entry: Entry,
    color: Option<Color>,
    model: Option<ModelKind>,
    after: Stocks,
    p: Option<Probs>,
    score: Option<int>,
    grade: string,
    comment: Comment,
    meteoBias: real)

  /**
   * The weight towards uniform for a day: none at J+1, 0.20 at J+2, 0.35 at
   * J+3, and 0.40, 0.50, 0.60 at J+4 to J+6 with 0.10 more when the day's
   * generation was estimated or carried over, capped at 0.75.
   */
  function ShrinkLambda(offset: int, source: Option<GenSource>): (lam: Option<real>)
    ensures lam.Some? <==> 2 <= offset <= 6
    ensures lam.Some? ==> 0.2 <= lam.value <= 0.7
    ensures offset == 2 ==> lam == Some(0.20)
    ensures offset == 3 ==> lam == Some(0.35)
    ensures 4 <= offset <= 6 ==>
      lam == Some((if offset == 4 then 0.40 else if offset == 5 then 0.50 else 0.60)
                  + (if source == Some(Carryover) || source == Some(RatioEstimate) then 0.10 else 0.0))
  {
    if offset == 2 then Some(0.20)
    else if offset == 3 then Some(0.35)
    else if 4 <= offset <= 6 then
      var base := if offset == 4 then 0.40 else if offset == 5 then 0.50 else 0.60;
      var extra := if source == Some(Carryover) || source == Some(RatioEstimate) then 0.10 else 0.0;
      Some(Min(0.75, base + extra))
    else None
  }

  /**
   * A later day is never pulled towards uniform less than an earlier one,
   * whatever either day's generation source; on the same day, an estimated or
   * carried generation never lowers the weight, and from J+4 on it adds 0.10.
   */
  lemma ShrinkLambdaOrder(o1: int, s1: Option<GenSource>, o2: int, s2: Option<GenSource>)
    requires 2 <= o1 < o2 <= 6
    ensures ShrinkLambda(o1, s1).value <= ShrinkLambda(o2, s2).value
    ensures ShrinkLambda(o1, None).value <= ShrinkLambda(o1, Some(Carryover)).value
    ensures ShrinkLambda(o1, Some(Rte)).value <= ShrinkLambda(o1, Some(RatioEstimate)).value
    ensures o1 >= 4 ==>
      ShrinkLambda(o1, Some(Carryover)).value == ShrinkLambda(o1, None).value + 0.10
      && ShrinkLambda(o1, Some(RatioEstimate)).value == ShrinkLambda(o1, Some(Rte)).value + 0.10
  {
  }

  /** The probabilities of RTE's published colour: one for it, zero for the others. */
  function OneHot(c: Color): (p: Probs)
    ensures p.Of(c) == 1.0 && p.Sum() == 1.0
    ensures forall c' :: c' != c ==> p.Of(c') == 0.0
  {
    Probs(if c == Bleu then 1.0 else 0.0, if c == Blanc then 1.0 else 0.0, if c == Rouge then 1.0 else 0.0)
  }

  /** J+1 with a consumption takes RTE's published colour once the clock has passed 06:45. */
  predicate Overrides(e: Entry, realJ1: Option<Color>, afterCutoff: bool) {
    e.offset == 1 && e.conso.Some? && realJ1.Some? && afterCutoff
  }

  /** How a day moves the stocks: an unknown day leaves them; any other day uses one day of its colour. */
  predicate DayStepped(before: Stocks, r: DayResult) {
    r.after == (if r.color.None? then before else UseDay(before, r.color.value))
  }

  /** A day without consumption: colour, model, probabilities and score unknown, no temperature shift. */
  predicate UnknownDay(r: DayResult) {
    && r.color.None? && r.model.None? && r.p.None? && r.score.None?
    && r.grade == ConfidenceLabel(None) && r.comment == Missing && r.meteoBias == 0.0
  }

  /** J+1 as RTE published it: that colour with certainty, confidence 5. */
  predicate OverriddenDay(r: DayResult, c: Color) {
    && r.color == Some(c) && r.model == Some(OverrideRte) && r.p == Some(OneHot(c))
    && r.score == Some(5) && r.grade == ConfidenceLabel(Some(5)) && r.comment == ConfirmedByRte
  }

  /**
   * A day the model decides: its probabilities and temperature shift are the
   * model's chain on the stocks before the day; they sum to one and the calendar
   * mask leaves them as they are; the colour is the most probable one under
   * the base decision's tie order, and is one the day allows; the confidence
   * is rated on those probabilities and on the stocks left after the day.
   */
  predicate ModelDay(today: Date, before: Stocks, r: DayResult) {
    && r.model == Some(Internal) && r.color.Some? && r.p.Some?
    && var (c, p, d) := (r.color.value, r.p.value, r.entry.d);
    && p.Sum() == 1.0
    && MaskProbsByCalendar(d, p) == p
    && c == BaseDecisionFromProbs(p)
    && (c == Rouge ==> Allowed(Rouge, d) && Weekday(d) != 5)
    && (c == Blanc ==> Allowed(Blanc, d))
    && (Weekday(d) == 6 ==> c == Bleu)
    && r.score == ComputeConfidenceScore(today, c, Some(p.b), Some(p.w), Some(p.r), r.after.red, r.after.white, r.entry.offset, r.entry.source)
    && r.grade == ConfidenceLabel(r.score)
    && r.comment == ConfidenceComment(today, c, Some(p.b), Some(p.w), Some(p.r), r.score.value, r.entry.offset)
    && (p, r.meteoBias) == ModelChain(r.entry, before)
  }

  /**
   * What the second pass promises about one day, from the stocks `before` it.
   * J+1 taken from RTE keeps the temperature shift the model computed.
   */
  predicate DayForecast(today: Date, realJ1: Option<Color>, afterCutoff: bool, before: Stocks, r: DayResult) {
    && (r.entry.conso.None? ==> UnknownDay(r))
    && (Overrides(r.entry, realJ1, afterCutoff) ==>
          OverriddenDay(r, realJ1.value) && r.meteoBias == ModelChain(r.entry, before).1)
    && (r.entry.conso.Some? && !Overrides(r.entry, realJ1, afterCutoff) ==> ModelDay(today, before, r))
    && (MeteoStrength(r.entry.deltaT) == 0.0 ==> r.meteoBias == 0.0)
  }

  /** The scorer's day for a record: its date, `Z`, day index and the stocks before it. */
  function ScorerInput(e: Entry, before: Stocks): Day {
    Day(e.d, e.z, DayIndex(e.d), before.red, before.white, before.blue)
  }

  /** From J+2 on, the probabilities pulled towards uniform by the day's weight and masked by the calendar. */
  function Shrunk(e: Entry, p: Probs): (q: Probs)
    ensures ShrinkLambda(e.offset, e.source).None? ==> q == p
    ensures ShrinkLambda(e.offset, e.source).Some? ==> q.Sum() == 1.0 && MaskProbsByCalendar(e.d, q) == q
  {
    var lam := ShrinkLambda(e.offset, e.source);
    if lam.Some? then
      var q := MaskProbsByCalendar(e.d, ShrinkProbs(p, lam.value));
      MaskIdempotent(e.d, ShrinkProbs(p, lam.value));
      q
    else p
  }

  /**
   * The model's chain for one record, step by step: step 0 is the wrapped
   * scorer on the stocks before the day, step 1 the shrink towards the
   * climatology, step 2 the shift by the temperature gap (with the mass it
   * moved), step 3 the calendar mask.
   */
  function ChainStep(k: nat, e: Entry, pb: (Probs, real)): (Probs, real)
    requires 1 <= k <= 3
  {
    if k == 1 then (Shrunk(e, pb.0), pb.1)
    else if k == 2 then MeteoShifted(pb.0, e.deltaT)
    else (MaskProbsByCalendar(e.d, pb.0), pb.1)
  }

  /** The chain after its first `k` steps. */
  function ChainUpTo(k: nat, e: Entry, before: Stocks): (Probs, real)
    requires k <= 3
  {
    if k == 0 then (WrappedProbs(ScorerInput(e, before)), 0.0)
    else ChainStep(k, e, ChainUpTo(k - 1, e, before))
  }

  /** The model's whole chain for one record: probabilities and the mass the shift moved. */
  function ModelChain(e: Entry, before: Stocks): (Probs, real) {
    ChainUpTo(3, e, before)
  }

  /**
   * The model's part of one iteration of the second loop: the wrapped scorer's
   * probabilities, shrunk towards uniform from J+2 on, shifted by the
   * temperature gap and masked by the calendar, with the colour they decide.
   */
  method ModelProbabilities(e: Entry, before: Stocks) returns (c: Color, p: Probs, bias: real)
    ensures p.Sum() == 1.0
    ensures MaskProbsByCalendar(e.d, p) == p
    ensures c == BaseDecisionFromProbs(p)
    ensures c == Rouge ==> Allowed(Rouge, e.d) && Weekday(e.d) != 5
    ensures c == Blanc ==> Allowed(Blanc, e.d)
    ensures Weekday(e.d) == 6 ==> c == Bleu
    ensures MeteoStrength(e.deltaT) == 0.0 ==> bias == 0.0
    ensures (p, bias) == ModelChain(e, before)
  {
    c, p := DecideColorWithWrappersNoStock(e.d, e.z, DayIndex(e.d), before.red, before.white, before.blue);
    assert (p, 0.0) == ChainUpTo(0, e, before);
    var lam := ShrinkLambda(e.offset, e.source);
    if lam.Some? {
      p := MaskProbsByCalendar(e.d, ShrinkProbs(p, lam.value));
      c := BaseDecisionFromProbs(p);
    }
    assert (p, 0.0) == ChainUpTo(1, e, before);
    p, bias := ApplyMeteoShift(p, e.deltaT);
    assert (p, bias) == ChainUpTo(2, e, before);
    var masked := MaskProbsByCalendar(e.d, p);
    MaskIdempotent(e.d, p);
    p := masked;
    c := BaseDecisionFromProbs(p);
  }

  /** One iteration of the second loop of `build_forecast`, from the stocks `before` the day. */
  method ForecastDay(today: Date, e: Entry, before: Stocks, realJ1: Option<Color>, afterCutoff: bool)
    returns (r: DayResult)
    ensures r.entry == e
    ensures DayStepped(before, r)
    ensures DayForecast(today, realJ1, afterCutoff, before, r)
  {
    if e.conso.None? {
      r := DayResult(e, None, None, before, None, None, "Indisponible", Missing, 0.0);
      UnknownForecast(today, realJ1, afterCutoff, before, r);
      return;
    }
    var c, p, bias := ModelProbabilities(e, before);

    if e.offset == 1 && realJ1.Some? && afterCutoff {
      r := OverrideDay(e, before, realJ1.value, bias);
      OverrideForecast(today, realJ1, afterCutoff, before, r);
    } else {
      r := ScoredDay(today, e, before, c, p, bias);
      ModelForecast(today, realJ1, afterCutoff, before, r);
    }
  }

  lemma UnknownForecast(today: Date, realJ1: Option<Color>, afterCutoff: bool, before: Stocks, r: DayResult)
    requires r.entry.conso.None? && UnknownDay(r)
    ensures DayForecast(today, realJ1, afterCutoff, before, r)
  {
  }

  lemma OverrideForecast(today: Date, realJ1: Option<Color>, afterCutoff: bool, before: Stocks, r: DayResult)
    requires Overrides(r.entry, realJ1, afterCutoff) && OverriddenDay(r, realJ1.value)
    requires r.meteoBias == ModelChain(r.entry, before).1
    requires MeteoStrength(r.entry.deltaT) == 0.0 ==> r.meteoBias == 0.0
    ensures DayForecast(today, realJ1, afterCutoff, before, r)
  {
  }

  lemma ModelForecast(today: Date, realJ1: Option<Color>, afterCutoff: bool, before: Stocks, r: DayResult)
    requires r.entry.conso.Some? && !Overrides(r.entry, realJ1, afterCutoff) && ModelDay(today, before, r)
    requires MeteoStrength(r.entry.deltaT) == 0.0 ==> r.meteoBias == 0.0
    ensures DayForecast(today, realJ1, afterCutoff, before, r)
  {
  }

  /** J+1 replaced by RTE's published colour `c`: certain, confidence 5, one day of `c` used. */
  method OverrideDay(e: Entry, before: Stocks, c: Color, bias: real) returns (r: DayResult)
    ensures r.entry == e && r.meteoBias == bias
    ensures DayStepped(before, r)
    ensures OverriddenDay(r, c)
  {
    var after := UseDay(before, c);
    r := DayResult(e, Some(c), Some(OverrideRte), after, Some(OneHot(c)), Some(5), "Très forte", ConfirmedByRte, bias);
  }

  /** A day the model decides, once its probabilities and colour are known: the stocks after it and its confidence. */
  method ScoredDay(today: Date, e: Entry, before: Stocks, c: Color, p: Probs, bias: real) returns (r: DayResult)
    requires (p, bias) == ModelChain(e, before)
    requires p.Sum() == 1.0 && MaskProbsByCalendar(e.d, p) == p && c == BaseDecisionFromProbs(p)
    requires c == Rouge ==> Allowed(Rouge, e.d) && Weekday(e.d) != 5
    requires c == Blanc ==> Allowed(Blanc, e.d)
    requires Weekday(e.d) == 6 ==> c == Bleu
    ensures r.entry == e && r.meteoBias == bias
    ensures DayStepped(before, r)
    ensures ModelDay(today, before, r)
  {
    var after := UseDay(before, c);
    var score := ComputeConfidenceScore(today, c, Some(p.b), Some(p.w), Some(p.r), after.red, after.white, e.offset, e.source);
    var grade := ConfidenceLabel(score);
    var comment := ConfidenceComment(today, c, Some(p.b), Some(p.w), Some(p.r), score.value, e.offset);
    r := DayResult(e, Some(c), Some(Internal), after, Some(p), score, grade, comment, bias);
  }

  /** The stocks before day `i` of `rs`: the initial ones for the first day, else those the previous day left. */
  function StocksBefore(init: Stocks, rs: seq<DayResult>, i: int): Stocks
    requires 0 <= i <= |rs|
  {
    if i == 0 then init else rs[i - 1].after
  }

  /** Each day starts from the stocks the day before left. */
  predicate Threaded(init: Stocks, rs: seq<DayResult>) {
    forall i :: 0 <= i < |rs| ==> DayStepped(StocksBefore(init, rs, i), rs[i])
  }

  /** Every day of `rs` keeps the second pass's promises, from the stocks the days before it left. */
  predicate AllForecast(today: Date, realJ1: Option<Color>, afterCutoff: bool, init: Stocks, rs: seq<DayResult>) {
    forall i :: 0 <= i < |rs| ==> DayForecast(today, realJ1, afterCutoff, StocksBefore(init, rs, i), rs[i])
  }

  lemma ForecastSnoc(today: Date, realJ1: Option<Color>, afterCutoff: bool, init: Stocks, rs: seq<DayResult>, r: DayResult)
    requires AllForecast(today, realJ1, afterCutoff, init, rs)
    requires DayForecast(today, realJ1, afterCutoff, Final(init, rs), r)
    ensures AllForecast(today, realJ1, afterCutoff, init, rs + [r])
  {
    var rs' := rs + [r];
    forall i | 0 <= i < |rs'|
      ensures DayForecast(today, realJ1, afterCutoff, StocksBefore(init, rs', i), rs'[i])
    {
      StocksBeforeSnoc(init, rs, r, i);
    }
  }

  /** Appending a day changes neither the earlier days nor the stocks before them. */
  lemma StocksBeforeSnoc(init: Stocks, rs: seq<DayResult>, r: DayResult, i: int)
    requires 0 <= i <= |rs|
    ensures i < |rs| ==> (rs + [r])[i] == rs[i] && StocksBefore(init, rs + [r], i) == StocksBefore(init, rs, i)
    ensures i == |rs| ==> (rs + [r])[i] == r && StocksBefore(init, rs + [r], i) == Final(init, rs)
  {
    if 0 < i {
      assert (rs + [r])[i - 1] == rs[i - 1];
    }
  }

  lemma ThreadedSnoc(init: Stocks, rs: seq<DayResult>, r: DayResult)
    requires Threaded(init, rs)
    requires DayStepped(Final(init, rs), r)
    ensures Threaded(init, rs + [r])
    ensures Final(init, rs + [r]) == r.after
  {
    var rs' := rs + [r];
    forall i | 0 <= i < |rs'|
      ensures DayStepped(StocksBefore(init, rs', i), rs'[i])
    {
      if i < |rs| {
        assert rs'[i] == rs[i];
        assert StocksBefore(init, rs', i) == StocksBefore(init, rs, i);
      }
    }
  }

  /** The second loop of `build_forecast`: the days `es` in order, threading the stocks. */
  method ForecastDays(today: Date, es: seq<Entry>, init: Stocks, realJ1: Option<Color>, afterCutoff: bool)
    returns (rs: seq<DayResult>)
    ensures Entries(rs) == es
    ensures Threaded(init, rs)
    ensures AllForecast(today, realJ1, afterCutoff, init, rs)
  {
    rs := [];
    var stocks := init;
    var k := 0;
    while k < |es|
      invariant 0 <= k <= |es|
      invariant Entries(rs) == es[..k]
      invariant stocks == Final(init, rs)
      invariant Threaded(init, rs)
      invariant AllForecast(today, realJ1, afterCutoff, init, rs)
    {
      var r := ForecastDay(today, es[k], stocks, realJ1, afterCutoff);
      ForecastSnoc(today, realJ1, afterCutoff, init, rs, r);
      ThreadedSnoc(init, rs, r);
      EntriesSnoc(rs, r, es, k);
      rs := rs + [r];
      stocks := r.after;
      k := k + 1;
    }
  }

  lemma EntriesSnoc(rs: seq<DayResult>, r: DayResult, es: seq<Entry>, k: int)
    requires 0 <= k < |es| && Entries(rs) == es[..k] && r.entry == es[k]
    ensures Entries(rs + [r]) == es[..k + 1]
  {
    assert Entries(rs + [r]) == Entries(rs) + [r.entry];
  }

  /** The first-pass records of `rs`. */
  function Entries(rs: seq<DayResult>): (es: seq<Entry>)
    ensures |es| == |rs|
    ensures forall i :: 0 <= i < |rs| ==> es[i] == rs[i].entry
  {
    seq(|rs|, i requires 0 <= i < |rs| => rs[i].entry)
  }

  /**
   * `build_forecast`: J+1 to J+6, each with its first-pass record, decided
   * with the stocks the days before it left. The annual daily series is the
   * date-sorted one `DataPrep.BuildDailyData` produces (the driver sorts it
   * again), so the early stop of the history scan loses no day.
   */
  method BuildForecast(today: Date, inp: Inputs, init: Stocks, realJ1: Option<Color>, afterCutoff: bool, sqrtFn: real -> real)
    returns (rs: seq<DayResult>)
    requires Anomaly.SortedByDay(inp.daily)
    ensures |rs| == 6
    ensures DaysResolved(today, inp, sqrtFn, Entries(rs))
    ensures Threaded(init, rs)
    ensures AllForecast(today, realJ1, afterCutoff, init, rs)
  {
    var es := ResolveDays(today, inp, sqrtFn);
    rs := ForecastDays(today, es, init, realJ1, afterCutoff);
  }

  // ---------------------------------------------------------------------------
  // Stocks over the whole forecast

  /** The stocks after the last day of `rs`. */
  function Final(init: Stocks, rs: seq<DayResult>): Stocks {
    if |rs| == 0 then init else rs[|rs| - 1].after
  }

  /** The number of days of `rs` forecast as `c`. */
  function Uses(rs: seq<DayResult>, c: Color): nat {
    if |rs| == 0 then 0
    else Uses(rs[..|rs| - 1], c) + (if rs[|rs| - 1].color == Some(c) then 1 else 0)
  }

  /** A stock of `n` after `k` days of its colour: unchanged when `k` is zero, else `max(0, n - k)`. */
  function StockAfterUses(n: int, k: nat): int {
    if k == 0 then n else if n - k > 0 then n - k else 0
  }

  /**
   * Over the whole forecast each stock goes down by the number of days of its
   * colour, never below zero: unknown days use nothing and no day uses twice.
   */
  lemma {:induction false} FinalStocks(init: Stocks, rs: seq<DayResult>)
    requires Threaded(init, rs)
    ensures Final(init, rs) ==
      Stocks(StockAfterUses(init.red, Uses(rs, Rouge)),
             StockAfterUses(init.white, Uses(rs, Blanc)),
             StockAfterUses(init.blue, Uses(rs, Bleu)))
  {
    if |rs| > 0 {
      var n := |rs| - 1;
      var front := rs[..n];
      assert Threaded(init, front) by {
        forall i | 0 <= i < |front|
          ensures DayStepped(StocksBefore(init, front, i), front[i])
        {
          assert StocksBefore(init, front, i) == StocksBefore(init, rs, i);
          assert DayStepped(StocksBefore(init, rs, i), rs[i]);
        }
      }
      FinalStocks(init, front);
      assert StocksBefore(init, rs, n) == Final(init, front);
      assert DayStepped(Final(init, front), rs[n]);
      UseDayCounts(init, Final(init, front), Uses(front, Rouge), Uses(front, Blanc), Uses(front, Bleu), rs[n].color);
    }
  }

  /** One more day, of colour `c` or unknown, adds one to that colour's count of days used. */
  lemma UseDayCounts(init: Stocks, s: Stocks, kr: nat, kw: nat, kb: nat, c: Option<Color>)
    requires s == Stocks(StockAfterUses(init.red, kr), StockAfterUses(init.white, kw), StockAfterUses(init.blue, kb))
    ensures (if c.None? then s else UseDay(s, c.value)) ==
      Stocks(StockAfterUses(init.red, kr + (if c == Some(Rouge) then 1 else 0)),
             StockAfterUses(init.white, kw + (if c == Some(Blanc) then 1 else 0)),
             StockAfterUses(init.blue, kb + (if c == Some(Bleu) then 1 else 0)))
  {
  }
}
