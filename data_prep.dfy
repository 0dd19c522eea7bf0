/**
 * Data preparation: the load value of a weekly record
 * (`_extract_load_value`), the daily series built from RTE's annual
 * forecasts (`build_daily_data_from_annual_forecasts`), daily averages of
 * timestamped values (`group_daily_avg`) and the per-timestamp sum of the
 * generation forecasts (`get_generation`). Records arrive parsed: a date is a
 * day number, and a value field is absent, a number, or something `float()`
 * rejects.
 */
module DataPrep {
  import opened Wrappers
  import Anomaly

  /** A scalar field: absent (`None`), a number `float()` accepts, or anything it rejects. */
  datatype Scalar = Absent | Num(x: real) | Unreadable

  /** A load field of a weekly record: the scalar itself, or a dictionary holding it under `value`. */
  datatype LoadField = Plain(s: Scalar) | Boxed(s: Scalar)

  /** `_extract_load_value`: the field as a number when it reads as one and is positive, else `None`. */
  function ExtractLoadValue(f: LoadField): (v: Option<real>)
    ensures v.Some? <==> f.s.Num? && f.s.x > 0.0
    ensures v.Some? ==> v.value == f.s.x
  {
    match f.s
    case Num(x) => if x <= 0.0 then None else Some(x)
    case _ => None
  }

  // ---------------------------------------------------------------------------
  // Weekly records

  /**
   * A weekly record of an annual forecast: its start day (`None` when the
   * start date is missing or unreadable), the two weekly average loads and
   * the weekly minimum and maximum.
   */
  datatype Week = Week(start: Option<int>, monToSun: LoadField, satToFri: LoadField, weeklyMin: LoadField, weeklyMax: LoadField)

  /**
   * The week's mean load: the Monday-to-Sunday average, failing that the
   * Saturday-to-Friday average, failing that the midpoint of the weekly
   * minimum and maximum when both are there; always positive.
   */
  function MeanLoad(w: Week): (m: Option<real>)
    ensures m.Some? ==> m.value > 0.0
    ensures ExtractLoadValue(w.monToSun).Some? ==> m == ExtractLoadValue(w.monToSun)
    ensures ExtractLoadValue(w.monToSun).None? && ExtractLoadValue(w.satToFri).Some? ==> m == ExtractLoadValue(w.satToFri)
    ensures m.None? <==>
      && ExtractLoadValue(w.monToSun).None?
      && ExtractLoadValue(w.satToFri).None?
      && (ExtractLoadValue(w.weeklyMin).None? || ExtractLoadValue(w.weeklyMax).None?)
    ensures var (lo, hi) := (ExtractLoadValue(w.weeklyMin), ExtractLoadValue(w.weeklyMax));
      ExtractLoadValue(w.monToSun).None? && ExtractLoadValue(w.satToFri).None? && lo.Some? && hi.Some? ==>
        m.value - lo.value == hi.value - m.value
  {
    var mean := ExtractLoadValue(w.monToSun);
    var mean := if mean.None? then ExtractLoadValue(w.satToFri) else mean;
    if mean.Some? then mean
    else
      var lo := ExtractLoadValue(w.weeklyMin);
      var hi := ExtractLoadValue(w.weeklyMax);
      if lo.Some? && hi.Some? then Some(0.5 * (lo.value + hi.value)) else None
  }

  /** The sort key order of the weeks: a missing start (key `""`) first, then by start day. */
  predicate KeyLe(a: Option<int>, b: Option<int>) {
    a.None? || (b.Some? && a.value <= b.value)
  }

  predicate WeeksSorted(ws: seq<Week>) {
    forall i, j :: 0 <= i < j < |ws| ==> KeyLe(ws[i].start, ws[j].start)
  }

  /** Insert `w` before the first week whose key is at least its own. */
  function InsertWeek(w: Week, ws: seq<Week>): (r: seq<Week>)
    requires WeeksSorted(ws)
    ensures WeeksSorted(r) && |r| == |ws| + 1
    ensures multiset(r) == multiset(ws) + multiset{w}
  {
    if |ws| == 0 then [w]
    else if KeyLe(w.start, ws[0].start) then [w] + ws
    else
      assert ws == [ws[0]] + ws[1..];
      var rest := InsertWeek(w, ws[1..]);
      forall k | 0 <= k < |rest|
        ensures KeyLe(ws[0].start, rest[k].start)
      {
        assert rest[k] in multiset(rest);
        assert rest[k] in multiset(ws[1..]) || rest[k] == w;
      }
      [ws[0]] + rest
  }

  /** `sorted(weekly_values, key=start_date)`: the weeks in ascending order of start, as a permutation. */
  function SortWeeks(ws: seq<Week>): (r: seq<Week>)
    ensures WeeksSorted(r) && |r| == |ws|
    ensures multiset(r) == multiset(ws)
  {
    if |ws| == 0 then []
    else
      assert ws == [ws[0]] + ws[1..];
      InsertWeek(ws[0], SortWeeks(ws[1..]))
  }

  // ---------------------------------------------------------------------------
  // Daily rows of a year block

  /** A day of the annual series and its mean load. */
  datatype LoadRow = LoadRow(day: int, mean: real)

  /** The seven days from `start`, all with the week's mean. */
  function WeekRows(start: int, mean: real): (rows: seq<LoadRow>)
    ensures |rows| == 7
    ensures forall k :: 0 <= k < 7 ==> rows[k] == LoadRow(start + k, mean)
  {
    seq(7, k => LoadRow(start + k, mean))
  }

  /** The rows a week contributes: seven when it has a start and a mean load, none otherwise. */
  function RowsOfWeek(w: Week): seq<LoadRow> {
    if w.start.Some? && MeanLoad(w).Some? then WeekRows(w.start.value, MeanLoad(w).value) else []
  }

  function RowsOfWeeks(ws: seq<Week>): seq<LoadRow> {
    if |ws| == 0 then [] else RowsOfWeeks(ws[..|ws| - 1]) + RowsOfWeek(ws[|ws| - 1])
  }

  /**
   * A year block: its weekly records (`None` when the block is not a
   * dictionary or its values are not a list) and its `[start, end)` day
   * bounds (`None` when either is missing or unreadable).
   */
  datatype YearBlock = YearBlock(weeks: Option<seq<Week>>, bounds: Option<(int, int)>)

  /** The rows of `rows` dated in `[lo, hi)`, in order. */
  function WithinBounds(rows: seq<LoadRow>, lo: int, hi: int): seq<LoadRow> {
    if |rows| == 0 then []
    else
      WithinBounds(rows[..|rows| - 1], lo, hi)
      + (if lo <= rows[|rows| - 1].day < hi then [rows[|rows| - 1]] else [])
  }

  /** The rows a year block contributes: its sorted weeks expanded to days, kept within its bounds when it has them. */
  function BlockRows(b: YearBlock): seq<LoadRow> {
    if b.weeks.None? then []
    else
      var rows := RowsOfWeeks(SortWeeks(b.weeks.value));
      if b.bounds.None? then rows else WithinBounds(rows, b.bounds.value.0, b.bounds.value.1)
  }

  /** All blocks' rows, block after block. */
  function AnnualRows(blocks: seq<YearBlock>): seq<LoadRow> {
    if |blocks| == 0 then [] else AnnualRows(blocks[..|blocks| - 1]) + BlockRows(blocks[|blocks| - 1])
  }

  /** The week loop of `build_daily_data_from_annual_forecasts`: seven rows for each usable week, in order. */
  method ExpandWeeks(ws: seq<Week>) returns (blockData: seq<LoadRow>)
    ensures blockData == RowsOfWeeks(ws)
  {
    blockData := [];
    var i := 0;
    while i < |ws|
      invariant 0 <= i <= |ws|
      invariant blockData == RowsOfWeeks(ws[..i])
    {
      var w := ws[i];
      var mean := MeanLoad(w);
      assert ws[..i + 1][..i] == ws[..i];
      if w.start.Some? && mean.Some? {
        var base := blockData;
        var k := 0;
        while k < 7
          invariant 0 <= k <= 7
          invariant blockData == base + WeekRows(w.start.value, mean.value)[..k]
        {
          assert WeekRows(w.start.value, mean.value)[..k + 1] == WeekRows(w.start.value, mean.value)[..k] + [LoadRow(w.start.value + k, mean.value)];
          blockData := blockData + [LoadRow(w.start.value + k, mean.value)];
          k := k + 1;
        }
        assert WeekRows(w.start.value, mean.value)[..7] == WeekRows(w.start.value, mean.value);
      }
      i := i + 1;
    }
    assert ws[..|ws|] == ws;
  }

  /** The block filter: the rows dated in `[lo, hi)`. */
  method KeepWithin(blockData: seq<LoadRow>, lo: int, hi: int) returns (rows: seq<LoadRow>)
    ensures rows == WithinBounds(blockData, lo, hi)
  {
    rows := [];
    var j := 0;
    while j < |blockData|
      invariant 0 <= j <= |blockData|
      invariant rows == WithinBounds(blockData[..j], lo, hi)
    {
      assert blockData[..j + 1][..j] == blockData[..j];
      if lo <= blockData[j].day < hi {
        rows := rows + [blockData[j]];
      }
      j := j + 1;
    }
    assert blockData[..|blockData|] == blockData;
  }

  /** One iteration of the block loop of `build_daily_data_from_annual_forecasts`: a block's rows. */
  method ExpandBlock(b: YearBlock) returns (rows: seq<LoadRow>)
    ensures rows == BlockRows(b)
  {
    if b.weeks.None? {
      return [];
    }
    rows := ExpandWeeks(SortWeeks(b.weeks.value));
    if b.bounds.Some? {
      rows := KeepWithin(rows, b.bounds.value.0, b.bounds.value.1);
    }
  }

  // ---------------------------------------------------------------------------
  // One row per day, the last one winning, sorted by day

  predicate StrictlySorted(rows: seq<LoadRow>) {
    forall i, j :: 0 <= i < j < |rows| ==> rows[i].day < rows[j].day
  }

  /** The value of `day` in `rows`, `None` when no row has that day. */
  function ValueAt(rows: seq<LoadRow>, day: int): Option<real> {
    if |rows| == 0 then None
    else if rows[0].day == day then Some(rows[0].mean)
    else ValueAt(rows[1..], day)
  }

  /** The value of the last row of `rows` dated `day`: `by_date[day]` after the loop, `None` when there is none. */
  function LastValue(rows: seq<LoadRow>, day: int): Option<real> {
    if |rows| == 0 then None
    else if rows[|rows| - 1].day == day then Some(rows[|rows| - 1].mean)
    else LastValue(rows[..|rows| - 1], day)
  }

  /** `by_date[row.date] = row` on a series kept sorted by day: a new day is inserted in place, an old one replaced. */
  function Upsert(out: seq<LoadRow>, row: LoadRow): (r: seq<LoadRow>)
    requires StrictlySorted(out)
    ensures StrictlySorted(r) && |r| > 0
    ensures r[0].day == (if |out| == 0 || row.day < out[0].day then row.day else out[0].day)
    ensures ValueAt(r, row.day) == Some(row.mean)
    ensures forall d :: d != row.day ==> ValueAt(r, d) == ValueAt(out, d)
  {
    if |out| == 0 then [row]
    else if row.day < out[0].day then [row] + out
    else if row.day == out[0].day then [row] + out[1..]
    else
      var rest := Upsert(out[1..], row);
      [out[0]] + rest
  }

  /** The rows of `rows` folded into the sorted series, in order. */
  function Dedup(rows: seq<LoadRow>): (out: seq<LoadRow>)
    ensures StrictlySorted(out)
  {
    if |rows| == 0 then [] else Upsert(Dedup(rows[..|rows| - 1]), rows[|rows| - 1])
  }

  /** Each day of the de-duplicated series carries the value of the last row with that day, and no other day appears. */
  lemma {:induction false} DedupKeepsLast(rows: seq<LoadRow>, day: int)
    ensures ValueAt(Dedup(rows), day) == LastValue(rows, day)
  {
    if |rows| > 0 {
      DedupKeepsLast(rows[..|rows| - 1], day);
    }
  }

  /** A looked-up day is a day of the series, with that value. */
  lemma {:induction false} ValueAtFound(rows: seq<LoadRow>, day: int)
    requires ValueAt(rows, day).Some?
    ensures exists i :: 0 <= i < |rows| && rows[i] == LoadRow(day, ValueAt(rows, day).value)
  {
    if rows[0].day != day {
      ValueAtFound(rows[1..], day);
      var i :| 0 <= i < |rows[1..]| && rows[1..][i] == LoadRow(day, ValueAt(rows, day).value);
      assert rows[i + 1] == rows[1..][i];
    }
  }

  /** On a series sorted without repeats, the value looked up for a row's day is that row's value. */
  lemma {:induction false} ValueAtOfRow(rows: seq<LoadRow>, i: int)
    requires StrictlySorted(rows) && 0 <= i < |rows|
    ensures ValueAt(rows, rows[i].day) == Some(rows[i].mean)
  {
    if i > 0 {
      assert rows[0].day < rows[i].day;
      assert rows[1..][i - 1] == rows[i];
      ValueAtOfRow(rows[1..], i - 1);
    }
  }

  /** Every row of an annual forecast has a positive mean load. */
  lemma {:induction false} AnnualRowsPositive(blocks: seq<YearBlock>)
    ensures forall i :: 0 <= i < |AnnualRows(blocks)| ==> AnnualRows(blocks)[i].mean > 0.0
  {
    if |blocks| > 0 {
      AnnualRowsPositive(blocks[..|blocks| - 1]);
      var b := blocks[|blocks| - 1];
      if b.weeks.Some? {
        var ws := SortWeeks(b.weeks.value);
        WeeksPositive(ws);
        if b.bounds.Some? {
          WithinBoundsPositive(RowsOfWeeks(ws), b.bounds.value.0, b.bounds.value.1);
        }
      }
    }
  }

  lemma {:induction false} WeeksPositive(ws: seq<Week>)
    ensures forall i :: 0 <= i < |RowsOfWeeks(ws)| ==> RowsOfWeeks(ws)[i].mean > 0.0
  {
    if |ws| > 0 {
      WeeksPositive(ws[..|ws| - 1]);
    }
  }

  lemma {:induction false} WithinBoundsPositive(rows: seq<LoadRow>, lo: int, hi: int)
    requires forall i :: 0 <= i < |rows| ==> rows[i].mean > 0.0
    ensures forall i :: 0 <= i < |WithinBounds(rows, lo, hi)| ==> WithinBounds(rows, lo, hi)[i].mean > 0.0
  {
    if |rows| > 0 {
      WithinBoundsPositive(rows[..|rows| - 1], lo, hi);
    }
  }

  /** The last row of a day has a positive value when all rows do. */
  lemma {:induction false} LastValuePositive(rows: seq<LoadRow>, day: int)
    requires forall i :: 0 <= i < |rows| ==> rows[i].mean > 0.0
    ensures LastValue(rows, day).Some? ==> LastValue(rows, day).value > 0.0
  {
    if |rows| > 0 && rows[|rows| - 1].day != day {
      LastValuePositive(rows[..|rows| - 1], day);
    }
  }

  /** The output rows: date and mean load. */
  function AsDailyRows(out: seq<LoadRow>): (daily: seq<Anomaly.DailyRow>)
    ensures |daily| == |out|
    ensures forall i :: 0 <= i < |out| ==> daily[i] == Anomaly.DailyRow(out[i].day, Some(out[i].mean))
  {
    seq(|out|, i requires 0 <= i < |out| => Anomaly.DailyRow(out[i].day, Some(out[i].mean)))
  }

  /**
   * `build_daily_data_from_annual_forecasts`: one row per day of the annual
   * forecasts, in ascending day order without repeats; a day's value is that
   * of the last row produced for it, and is positive; every day produced is
   * there.
   */
  method BuildDailyData(blocks: seq<YearBlock>) returns (daily: seq<Anomaly.DailyRow>)
    ensures forall i, j :: 0 <= i < j < |daily| ==> daily[i].day < daily[j].day
    ensures Anomaly.SortedByDay(daily)
    ensures forall i :: 0 <= i < |daily| ==> daily[i].cNetMean == LastValue(AnnualRows(blocks), daily[i].day)
    ensures forall i :: 0 <= i < |daily| ==> daily[i].cNetMean.Some? && daily[i].cNetMean.value > 0.0
    ensures forall day :: LastValue(AnnualRows(blocks), day).Some? ==> exists i :: 0 <= i < |daily| && daily[i].day == day
  {
    var rows := CollectRows(blocks);
    var out := DedupRows(rows);
    DedupFacts(blocks, out);
    daily := AsDailyRows(out);
  }

  /** The block loop of `build_daily_data_from_annual_forecasts`: every block's rows, block after block. */
  method CollectRows(blocks: seq<YearBlock>) returns (rows: seq<LoadRow>)
    ensures rows == AnnualRows(blocks)
  {
    rows := [];
    var bi := 0;
    while bi < |blocks|
      invariant 0 <= bi <= |blocks|
      invariant rows == AnnualRows(blocks[..bi])
    {
      var blockRows := ExpandBlock(blocks[bi]);
      rows := rows + blockRows;
      assert blocks[..bi + 1][..bi] == blocks[..bi];
      bi := bi + 1;
    }
    assert blocks[..|blocks|] == blocks;
  }

  /** The de-duplication loop: `by_date[d] = v` for each row in order, then the days in ascending order. */
  method DedupRows(rows: seq<LoadRow>) returns (out: seq<LoadRow>)
    ensures out == Dedup(rows)
  {
    out := [];
    var k := 0;
    while k < |rows|
      invariant 0 <= k <= |rows|
      invariant out == Dedup(rows[..k])
    {
      out := Upsert(out, rows[k]);
      assert rows[..k + 1][..k] == rows[..k];
      k := k + 1;
    }
    assert rows[..|rows|] == rows;
  }

  /** The de-duplicated rows of the annual forecasts: each the last positive value of its day, every such day present. */
  lemma DedupFacts(blocks: seq<YearBlock>, out: seq<LoadRow>)
    requires out == Dedup(AnnualRows(blocks))
    ensures forall i :: 0 <= i < |out| ==> Some(out[i].mean) == LastValue(AnnualRows(blocks), out[i].day) && out[i].mean > 0.0
    ensures forall day :: LastValue(AnnualRows(blocks), day).Some? ==> exists i :: 0 <= i < |out| && out[i].day == day
  {
    var rows := AnnualRows(blocks);
    AnnualRowsPositive(blocks);
    forall i | 0 <= i < |out|
      ensures Some(out[i].mean) == LastValue(rows, out[i].day) && out[i].mean > 0.0
    {
      ValueAtOfRow(out, i);
      DedupKeepsLast(rows, out[i].day);
      LastValuePositive(rows, out[i].day);
    }
    forall day | LastValue(rows, day).Some?
      ensures exists i :: 0 <= i < |out| && out[i].day == day
    {
      DedupKeepsLast(rows, day);
      ValueAtFound(out, day);
    }
  }

  // ---------------------------------------------------------------------------
  // Daily averages and generation totals

  /** A timestamped value: its `start_date` (`None` when absent) and its `value`. */
  datatype Sample = Sample(start: Option<string>, value: Scalar)

  /**
   * The values `group_daily_avg` collects for day `d`, in order: samples with
   * a start date whose day (`dayOf`, the date part of the timestamp) is `d`
   * and a value that reads as a number.
   */
  function ValuesOn(samples: seq<Sample>, dayOf: string -> Option<int>, d: int): seq<real> {
    if |samples| == 0 then []
    else
      var s := samples[|samples| - 1];
      ValuesOn(samples[..|samples| - 1], dayOf, d)
      + (if s.start.Some? && dayOf(s.start.value) == Some(d) && s.value.Num? then [s.value.x] else [])
  }

  function Sum(s: seq<real>): real {
    if |s| == 0 then 0.0 else Sum(s[..|s| - 1]) + s[|s| - 1]
  }

  /** `sum(lst) / len(lst)`. */
  function Mean(s: seq<real>): real
    requires |s| > 0
  {
    Sum(s) / |s| as real
  }

  /** `group_daily_avg`: for each day with at least one readable value, the mean of that day's values. */
  method GroupDailyAvg(samples: seq<Sample>, dayOf: string -> Option<int>) returns (avg: map<int, real>)
    ensures forall d :: d in avg <==> |ValuesOn(samples, dayOf, d)| > 0
    ensures forall d :: d in avg ==> avg[d] == Mean(ValuesOn(samples, dayOf, d))
  {
    var byDay: map<int, seq<real>> := map[];
    var i := 0;
    while i < |samples|
      invariant 0 <= i <= |samples|
      invariant forall d :: d in byDay <==> |ValuesOn(samples[..i], dayOf, d)| > 0
      invariant forall d :: d in byDay ==> byDay[d] == ValuesOn(samples[..i], dayOf, d)
    {
      var v := samples[i];
      assert samples[..i + 1][..i] == samples[..i];
      if v.value != Absent && v.start.Some? {
        var day := dayOf(v.start.value);
        if day.Some? && v.value.Num? {
          var lst := if day.value in byDay then byDay[day.value] else [];
          byDay := byDay[day.value := lst + [v.value.x]];
        }
      }
      i := i + 1;
    }
    assert samples[..|samples|] == samples;
    avg := map d | d in byDay && |byDay[d]| > 0 :: Sum(byDay[d]) / |byDay[d]| as real;
  }

  lemma {:induction false} SumBounds(s: seq<real>, lo: real, hi: real)
    requires forall i :: 0 <= i < |s| ==> lo <= s[i] <= hi
    ensures |s| as real * lo <= Sum(s) <= |s| as real * hi
  {
    if |s| > 0 {
      SumBounds(s[..|s| - 1], lo, hi);
    }
  }

  /** A day's average lies between the smallest and the largest of that day's values. */
  lemma AverageWithinValues(s: seq<real>, lo: real, hi: real)
    requires |s| > 0
    requires forall i :: 0 <= i < |s| ==> lo <= s[i] <= hi
    ensures lo <= Mean(s) <= hi
  {
    SumBounds(s, lo, hi);
    var n := |s| as real;
    assert Mean(s) * n == Sum(s);
  }

  /** The sum of the readable values stamped `ts`, in order. */
  function TimestampTotal(readings: seq<Sample>, ts: string): real {
    if |readings| == 0 then 0.0
    else
      var s := readings[|readings| - 1];
      TimestampTotal(readings[..|readings| - 1], ts) + (if s.start == Some(ts) && s.value.Num? then s.value.x else 0.0)
  }

  /** Without a readable value stamped `ts`, the total at `ts` is zero. */
  lemma {:induction false} NoReadingNoTotal(readings: seq<Sample>, ts: string)
    requires !HasReading(readings, ts)
    ensures TimestampTotal(readings, ts) == 0.0
  {
    if |readings| > 0 {
      var front := readings[..|readings| - 1];
      forall k | 0 <= k < |front|
        ensures !(front[k].start == Some(ts) && front[k].value.Num?)
      {
        assert readings[k] == front[k];
      }
      NoReadingNoTotal(front, ts);
      assert !(readings[|readings| - 1].start == Some(ts) && readings[|readings| - 1].value.Num?);
    }
  }

  /** Some reading stamped `ts` has a readable value. */
  predicate HasReading(readings: seq<Sample>, ts: string) {
    exists i :: 0 <= i < |readings| && readings[i].start == Some(ts) && readings[i].value.Num?
  }

  /** The readings of all blocks, block after block. */
  function AllReadings(blocks: seq<seq<Sample>>): seq<Sample> {
    if |blocks| == 0 then [] else AllReadings(blocks[..|blocks| - 1]) + blocks[|blocks| - 1]
  }

  /** `perTs` holds, for each timestamp with a readable value in `readings`, the total at that timestamp. */
  ghost predicate Summarises(perTs: map<string, real>, readings: seq<Sample>) {
    && (forall ts :: ts in perTs <==> HasReading(readings, ts))
    && (forall ts :: ts in perTs ==> perTs[ts] == TimestampTotal(readings, ts))
  }

  /** `per_ts[sd] = per_ts.get(sd, 0.0) + fv` for a reading with a start date and a readable value. */
  function AddReading(perTs: map<string, real>, v: Sample): map<string, real> {
    if v.start.Some? && v.value.Num? then
      perTs[v.start.value := (if v.start.value in perTs then perTs[v.start.value] else 0.0) + v.value.x]
    else perTs
  }

  /** Adding one reading keeps the totals. */
  lemma AddReadingStep(perTs: map<string, real>, readings: seq<Sample>, v: Sample)
    requires Summarises(perTs, readings)
    ensures Summarises(AddReading(perTs, v), readings + [v])
  {
    var after := readings + [v];
    assert after[..|after| - 1] == readings;
    assert after[|after| - 1] == v;
    forall ts | HasReading(readings, ts)
      ensures HasReading(after, ts)
    {
      var k :| 0 <= k < |readings| && readings[k].start == Some(ts) && readings[k].value.Num?;
      assert after[k] == readings[k];
    }
    forall ts | HasReading(after, ts)
      ensures HasReading(readings, ts) || (v.start == Some(ts) && v.value.Num?)
    {
      var k :| 0 <= k < |after| && after[k].start == Some(ts) && after[k].value.Num?;
      if k < |readings| {
        assert readings[k] == after[k];
      }
    }
    if v.start.Some? && v.value.Num? && v.start.value !in perTs {
      NoReadingNoTotal(readings, v.start.value);
    }
  }

  /**
   * The summation loop of `get_generation`: for each timestamp with a
   * readable value in some block, the sum of all blocks' values at that
   * timestamp (the generation sources add up).
   */
  method SumPerTimestamp(blocks: seq<seq<Sample>>) returns (perTs: map<string, real>)
    ensures Summarises(perTs, AllReadings(blocks))
  {
    perTs := map[];
    var bi := 0;
    while bi < |blocks|
      invariant 0 <= bi <= |blocks|
      invariant Summarises(perTs, AllReadings(blocks[..bi]))
    {
      assert blocks[..bi + 1][..bi] == blocks[..bi];
      perTs := AddBlock(perTs, AllReadings(blocks[..bi]), blocks[bi]);
      bi := bi + 1;
    }
    assert blocks[..|blocks|] == blocks;
  }

  /** The inner loop of the summation: the readings of one block `vals` added to the totals of the readings `seen` before it. */
  method AddBlock(perTs: map<string, real>, ghost seen: seq<Sample>, vals: seq<Sample>) returns (perTs': map<string, real>)
    requires Summarises(perTs, seen)
    ensures Summarises(perTs', seen + vals)
  {
    perTs' := perTs;
    assert seen + vals[..0] == seen;
    var i := 0;
    while i < |vals|
      invariant 0 <= i <= |vals|
      invariant Summarises(perTs', seen + vals[..i])
    {
      var v := vals[i];
      AddReadingStep(perTs', seen + vals[..i], v);
      ghost var next := AddReading(perTs', v);
      assert seen + vals[..i + 1] == seen + vals[..i] + [v];
      if v.start.Some? && v.value.Num? {
        var sd := v.start.value;
        perTs' := perTs'[sd := (if sd in perTs' then perTs'[sd] else 0.0) + v.value.x];
      }
      assert perTs' == next;
      i := i + 1;
    }
    assert vals[..|vals|] == vals;
  }

  /** `merged`: one sample per timestamp of `perTs`, carrying that timestamp's total. */
  method MergeTotals(perTs: map<string, real>) returns (merged: seq<Sample>)
    ensures forall i :: 0 <= i < |merged| ==>
      merged[i].start.Some? && merged[i].start.value in perTs && merged[i].value == Num(perTs[merged[i].start.value])
    ensures forall ts :: ts in perTs ==> exists i :: 0 <= i < |merged| && merged[i].start == Some(ts)
    ensures forall i, j :: 0 <= i < j < |merged| ==> merged[i].start != merged[j].start
  {
    merged := [];
    var left := perTs.Keys;
    while left != {}
      invariant left <= perTs.Keys
      invariant forall i :: 0 <= i < |merged| ==>
        merged[i].start.Some? && merged[i].start.value in perTs && merged[i].start.value !in left
        && merged[i].value == Num(perTs[merged[i].start.value])
      invariant forall ts :: ts in perTs && ts !in left ==> exists i :: 0 <= i < |merged| && merged[i].start == Some(ts)
      invariant forall i, j :: 0 <= i < j < |merged| ==> merged[i].start != merged[j].start
      decreases |left|
    {
      var ts :| ts in left;
      var merged' := merged + [Sample(Some(ts), Num(perTs[ts]))];
      forall t | t in perTs && t !in left - {ts}
        ensures exists i :: 0 <= i < |merged'| && merged'[i].start == Some(t)
      {
        if t == ts {
          assert merged'[|merged|].start == Some(t);
        } else {
          var i :| 0 <= i < |merged| && merged[i].start == Some(t);
          assert merged'[i] == merged[i];
        }
      }
      merged := merged';
      left := left - {ts};
    }
  }

  /**
   * `get_generation` past the fetch: the generation values of all blocks
   * summed per timestamp into `merged`, one sample per timestamp, then
   * averaged per day.
   */
  method GetGeneration(blocks: seq<seq<Sample>>, dayOf: string -> Option<int>)
    returns (merged: seq<Sample>, gen: map<int, real>)
    ensures forall i :: 0 <= i < |merged| ==>
      && merged[i].start.Some?
      && HasReading(AllReadings(blocks), merged[i].start.value)
      && merged[i].value == Num(TimestampTotal(AllReadings(blocks), merged[i].start.value))
    ensures forall ts :: HasReading(AllReadings(blocks), ts) ==> exists i :: 0 <= i < |merged| && merged[i].start == Some(ts)
    ensures forall i, j :: 0 <= i < j < |merged| ==> merged[i].start != merged[j].start
    ensures forall d :: d in gen <==> |ValuesOn(merged, dayOf, d)| > 0
    ensures forall d :: d in gen ==> gen[d] == Mean(ValuesOn(merged, dayOf, d))
  {
    var perTs := SumPerTimestamp(blocks);
    merged := MergeTotals(perTs);
    gen := GroupDailyAvg(merged, dayOf);
  }
}
