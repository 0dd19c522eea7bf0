/** The 1991-2020 daily temperature norms of the red months, as `rte_norm_temp` tabulates them. */
module TemperatureNorms {
  import opened Dates
  import opened Wrappers
  import opened TempoCalendar

  // The 1991-2020 norms of `rte_norm_temp`, one sequence per month, day 1 first.
  const NovemberNorms: seq<real> := [
    11.14, 10.08, 10.92, 10.26, 9.69, 9.16, 9.16, 9.63, 9.71, 9.51,
    9.59, 9.43, 9.33, 8.63, 7.74, 7.92, 7.61, 7.57, 7.44, 7.30,
    7.18, 7.01, 6.89, 6.84, 7.16, 6.93, 6.60, 6.36, 6.53, 6.73
  ]

  const DecemberNorms: seq<real> := [
    6.53, 6.41, 6.42, 6.63, 6.79, 6.20, 5.84, 5.96, 5.72, 5.35,
    5.26, 5.37, 5.28, 4.72, 4.62, 5.27, 5.48, 5.59, 5.75, 5.45,
    5.51, 5.61, 5.41, 5.49, 5.39, 4.85, 4.71, 4.58, 4.61, 4.96,
    4.81
  ]

  const JanuaryNorms: seq<real> := [
    4.73, 5.10, 4.88, 4.57, 4.79, 5.12, 4.35, 4.31, 4.85, 4.92,
    4.83, 4.30, 4.54, 4.71, 4.59, 4.85, 5.31, 5.23, 5.70, 5.64,
    5.55, 5.73, 5.38, 5.00, 4.80, 4.49, 4.49, 4.91, 4.87, 4.68,
    4.57
  ]

  const FebruaryNorms: seq<real> := [
    5.01, 5.13, 5.57, 5.80, 6.17, 6.34, 5.96, 6.11, 5.77, 5.19,
    5.27, 5.54, 4.76, 4.76, 4.90, 4.73, 5.04, 5.31, 5.24, 5.40,
    5.30, 5.46, 6.00, 6.16, 6.27, 6.39, 6.52, 7.03
  ]

  const MarchNorms: seq<real> := [
    6.90, 6.85, 6.78, 6.65, 6.61, 6.97, 7.46, 7.83, 7.96, 8.03,
    8.45, 8.47, 8.30, 8.65, 9.04, 9.32, 9.24, 9.32, 9.12, 9.34,
    9.39, 9.23, 9.38, 9.63, 9.51, 9.23, 9.26, 9.23, 9.37, 9.35,
    9.90
  ]

  /** `NORMS.get((m, d))`: the table has an entry for every day of November to March except 29 February. */
  function NormLookup(m: int, d: int): Option<real> {
    var days :=
      if m == 11 then NovemberNorms else if m == 12 then DecemberNorms
      else if m == 1 then JanuaryNorms else if m == 2 then FebruaryNorms
      else if m == 3 then MarchNorms else [];
    if 1 <= d <= |days| then Some(days[d - 1]) else None
  }

  /** `rte_norm_temp`: the norm for `d`'s calendar day; 29 February falls back to 28 February. */
  function RteNormTemp(d: Date): (t: Option<real>)
    ensures t.Some? <==> InRedMonths(d.month)
  {
    if d.month == 2 && d.day == 29 then
      (match NormLookup(2, 29)
       case Some(v) => Some(v)
       case None => NormLookup(2, 28))
    else NormLookup(d.month, d.day)
  }

  /** 29 February takes the norm of 28 February. */
  lemma NormLeapDay(y: int)
    requires IsLeap(y)
    ensures RteNormTemp(Civil(y, 2, 29)) == Some(7.03) == RteNormTemp(Civil(y, 2, 28))
  {
  }
}