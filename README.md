# Tempo colour forecast — a verified model

This project is a Dafny model of the decision engine of `tempo_prevision_simple.py`. That is a
single-file forecaster for the colours of EDF's *Tempo* tariff. Each day of the Tempo year
(1 September to 31 August) is *bleu*, *blanc* or *rouge*, with 300 blue, 43 white and 22 red days
a year. The forecaster predicts the colours of the next six days, J+1 to J+6:

* **Per day:** it takes RTE's consumption forecasts and renewable-generation forecasts and derives
  a net consumption and a tension score `Z`. `Z` is computed against a one-year history built from
  RTE's annual forecasts, or against a fixed mean and spread when there is no history.
* **Colour scoring:** a hand-tuned scorer turns `Z`, the calendar rules and the remaining stocks
  into three probabilities and a colour.
* **Adjustments:** the probabilities are shrunk towards uniform for far days, shifted by the
  national temperature gap to the RTE norm, and masked by the calendar. Red is only allowed on
  working days of November to March that are not public holidays. White is never allowed on
  Sunday, and Sunday is always blue.
* **Output:** each day gets a confidence score from 1 to 5, with a label and a comment. After
  06:45, RTE's published J+1 colour overrides the model.

Modules, in dependency order:

| module | file | models |
|---|---|---|
| `Wrappers` | wrappers.dfy | `Option`, Python's `a or b` on optional numbers |
| `Dates` | dates.dfy | proleptic Gregorian dates as Python's `datetime.date` counts them: ordinals, weekdays, adding days |
| `Holidays` | holidays.dfy | `is_french_public_holiday`, with Easter computed by the source's formula |
| `TempoCalendar` | tempo_calendar.dfy | Tempo year, day index, red season, `allowed`, red-eligible day count, red target curve |
| `TemperatureNorms` | norms.dfy | `rte_norm_temp`, the RTE 1991–2020 daily norm table |
| `Anomaly` | anomaly.dfy | `_quantile`, `compute_z`, `compute_z_rte_like` |
| `Transforms` | transforms.dfy | thresholds, red floor, shrink, calendar mask, temperature shift, base decision |
| `RawScores` | raw_scores.dfy | the raw-score half of `decide_color_with_probs` |
| `ProbabilityPatches` | probability_patches.dfy | the probability patches of `decide_color_with_probs` |
| `Scorer` | scorer.dfy | `decide_color_with_probs`, `decide_color_with_wrappers_no_stock` |
| `Confidence` | confidence.dfy | `_compute_confidence_score`, `_confidence_label`, `_build_confidence_comment` |
| `DataPrep` | data_prep.dfy | `_extract_load_value`, `build_daily_data_from_annual_forecasts`, `group_daily_avg`, the aggregation of `get_generation` |
| `Forecast` | forecast.dfy | `build_forecast`: the first pass over the six days and the second pass that colours them |

How the source is represented:

* Dates are a `Civil` datatype restricted to valid dates. Data-prep rows carry the day's ordinal.
* Probabilities are a triple `Probs(b, w, r)`.
* Stocks are unbounded integers, as the command line allows.
* Pure code is written as functions with lemmas. Loops are methods proved against recursive
  specification functions.

The Easter computation in `is_french_public_holiday` is modelled as written
(`Holidays.EasterAsWritten`). It does not always give Easter Sunday. It gives 30 March 2024 (a
Saturday; Easter was 31 March) and 15 April 2025 (a Tuesday; Easter was 20 April). Both are proved
by `Holidays.EasterAsWrittenMisses2024` and `Holidays.EasterAsWrittenMisses2025`. The shifted
Easter Monday, Ascension and Whit Monday therefore reach `allowed` and the red-eligible count
exactly as in the source. The code follows a compact Gregorian computus but swaps
the quotient `j` and the remainder `k` of `60 * (5 - d) + b` by 4, and uses `2j + k - g - h`
instead of `2j - k - g + h` in the weekday term `m`. `Holidays.CorrectedEaster` is that computus
with both put right and is proved to be a Sunday for every year
(`Holidays.CorrectedEasterIsSunday`). It serves as a reference only: the rest of the model follows
the code's formula.

## Model

| member | source | states |
|---|---|---|
| Wrappers.OrElse | tempo_prevision_simple.py:1933 | `a or b` on optional numbers: `a` when present and non-zero, otherwise `b` (so a zero short-term consumption falls through to the weekly one) |
| Dates.AddDays | tempo_prevision_simple.py:1928 | `d + timedelta(days=n)` is the date whose ordinal is `n` more |
| Dates.Weekday | tempo_prevision_simple.py:879 | `weekday()` lies in 0..6 (Monday 0, Sunday 6) |
| Dates.OrdinalOrder | tempo_prevision_simple.py:395 | Python's date comparison (lexicographic on year, month, day) agrees with ordinal order, and equal dates have equal ordinals |
| Holidays.EasterAsWritten | tempo_prevision_simple.py:427-440 | the source's Easter date is a valid date of that year, between 21 March and 26 April |
| Holidays.EasterAsWrittenMisses2024 | tempo_prevision_simple.py:427-440 | for 2024 the formula gives Saturday 30 March, where the computus gives Sunday 31 March |
| Holidays.EasterAsWrittenMisses2025 | tempo_prevision_simple.py:427-440 | for 2025 the formula gives Tuesday 15 April, where the computus gives Sunday 20 April |
| Holidays.CorrectedEasterIsSunday | tempo_prevision_simple.py:427-440 | the reference computus always falls on a Sunday |
| Holidays.IsPublicHoliday | tempo_prevision_simple.py:414-448 | a day is a public holiday exactly when it is one of the eight fixed dates (1 January, 1 and 8 May, 14 July, 15 August, 1 and 11 November, 25 December) or lies 1, 39 or 50 days after the computed Easter |
| Holidays.MovableHolidays | tempo_prevision_simple.py:442-447 | the days 1, 39 and 50 after the computed Easter are in the same year and are public holidays |
| Holidays.MovableHolidaysInSpring | tempo_prevision_simple.py:442-447 | the movable holidays fall in March to June |
| Holidays.WinterHolidays | tempo_prevision_simple.py:414-448 | from November to February the only public holidays are 1 January, 1 and 11 November and 25 December |
| TempoCalendar.TempoYearStart | tempo_prevision_simple.py:393-395 | the Tempo year of `d` starts on the latest 1 September on or before `d` |
| TempoCalendar.TempoYearEndInclusive | tempo_prevision_simple.py:398-400 | it ends on the 31 August after that start, on or after `d`, the day before the next 1 September |
| TempoCalendar.TempoYearLength | tempo_prevision_simple.py:1115-1117 | a Tempo year has 366 days exactly when the February it contains is a leap one, else 365 |
| TempoCalendar.DayIndex | tempo_prevision_simple.py:403-404 | the day index lies in 1..366 and is 1 exactly on 1 September |
| TempoCalendar.RedSeasonBounds | tempo_prevision_simple.py:464-471 | 1 November to 31 March of the season containing `d`, or of the last season before it (April to October) |
| TempoCalendar.Allowed | tempo_prevision_simple.py:450-461 | blue is allowed on every day; white exactly on days that are not Sunday; red only on working days that are not public holidays, from November to March |
| TempoCalendar.AllowedNested | tempo_prevision_simple.py:450-461 | a red-allowed day is white-allowed; white is refused exactly on Sunday; red is refused on weekends, holidays and outside November to March |
| TempoCalendar.CountRedEligibleDaysLeft | tempo_prevision_simple.py:474-483 | the loop counts exactly the red-allowed days from start to end inclusive (zero when end is before start) |
| TempoCalendar.RedEligibleBound | tempo_prevision_simple.py:474-483 | the count never exceeds the number of days in the span |
| TempoCalendar.RedEligibleOutsideSeason | tempo_prevision_simple.py:474-483 | a span with no day in November to March has no eligible day |
| TempoCalendar.LerpRange | tempo_prevision_simple.py:494-500 | the interpolation stays between its end values |
| TempoCalendar.LerpMonotone | tempo_prevision_simple.py:494-500 | for rising end values the interpolation never decreases with the date |
| TempoCalendar.TargetCurveRange | tempo_prevision_simple.py:502-508 | the piecewise target curve stays in 0..1 and inside each segment's values |
| TempoCalendar.TargetCurveMonotone | tempo_prevision_simple.py:502-508 | the piecewise target curve never decreases |
| TempoCalendar.RedTargetUsedFraction | tempo_prevision_simple.py:486-508 | the expected used fraction of red days lies in 0..1 |
| TempoCalendar.RedTargetAnchors | tempo_prevision_simple.py:486-508 | it is 0 on 1 November, 0.05 on 10 December, 0.65 on 31 January, 0.95 on 20 February and 1 on 31 March |
| TempoCalendar.RedTargetMonotone | tempo_prevision_simple.py:486-508 | within one red season it never decreases with the date |
| TemperatureNorms.RteNormTemp | tempo_prevision_simple.py:682-845 | a norm exists exactly for the days of November to March |
| TemperatureNorms.NormLeapDay | tempo_prevision_simple.py:841-843 | 29 February takes the norm of 28 February |
| Anomaly.Sort | tempo_prevision_simple.py:141 | `sorted(values)` is sorted and a permutation of its input |
| Anomaly.Quantile | tempo_prevision_simple.py:139-152 | defined exactly on non-empty lists; one value gives that value; otherwise the result lies between the sorted values at the floor and ceiling of `p*(n-1)` |
| Anomaly.QuantileWithinRange | tempo_prevision_simple.py:139-152 | a quantile lies between the minimum and the maximum |
| Anomaly.QuantileMonotone | tempo_prevision_simple.py:139-152 | a higher `p` never gives a lower quantile (so q40 ≤ q80) |
| Anomaly.HistoryValuesSound | tempo_prevision_simple.py:248-264 | every history value is a positive value of a row before the target and within the window |
| Anomaly.HistoryOfSortedSeries | tempo_prevision_simple.py:248-264 | on a date-sorted series, stopping at the first row on or after the target loses no row before it |
| Anomaly.CollectHistory | tempo_prevision_simple.py:248-264 | the loop with its early `break` collects exactly the specified history |
| Anomaly.ComputeZ | tempo_prevision_simple.py:233-234 | `z * C_STD + C_MEAN` is the net consumption; `z ≥ 0` exactly when it is at least the mean |
| Anomaly.ComputeZMonotone | tempo_prevision_simple.py:233-234 | more net consumption never gives a lower score |
| Anomaly.ZFromHistory | tempo_prevision_simple.py:275-300 | the small-sample branch is taken exactly for fewer than three values; the divisor is never zero |
| Anomaly.QuantileBranch | tempo_prevision_simple.py:287-300 | with at least three values, `z * denom = c_net - q40` with `denom ≥ 1e-6` |
| Anomaly.EmptyHistoryScoresZero | tempo_prevision_simple.py:275-285 | with no history the day is centred on itself and scores zero |
| Anomaly.ComputeZRteLike | tempo_prevision_simple.py:237-302 | the method's score is the specified score of the collected history, with the branch chosen by its size |
| Transforms.Thresholds | tempo_prevision_simple.py:407-411 | with non-negative day index and stocks both cut-offs are at most their base values 4.00 and 3.15, which they take on day 0 with no stock left |
| Transforms.ThresholdsMonotone | tempo_prevision_simple.py:407-411 | both cut-offs fall as the day index and the stocks grow |
| Transforms.RedFloorFromZ | tempo_prevision_simple.py:511-525 | the red floor lies in 0..0.22 and is 0 without a `Z` |
| Transforms.RedFloorMonotone | tempo_prevision_simple.py:511-525 | the floor never decreases with `Z`; it is 0 below 1 and 0.22 from 1.30 |
| Transforms.ShrinkProbs | tempo_prevision_simple.py:848-856 | the shrunk probabilities sum to one |
| Transforms.ShrinkDistribution | tempo_prevision_simple.py:848-856 | on a distribution with `0 ≤ λ ≤ 1` each entry is `(1-λ)p + λ/3` and the result is a distribution |
| Transforms.ShrinkNone | tempo_prevision_simple.py:848-856 | `λ = 0` leaves a distribution unchanged |
| Transforms.ShrinkFull | tempo_prevision_simple.py:848-856 | `λ = 1` gives the uniform distribution |
| Transforms.ShrinkKeepsOrder | tempo_prevision_simple.py:848-856 | shrinking never swaps the order of two colours |
| Transforms.MaskProbsByCalendar | tempo_prevision_simple.py:859-874 | Sunday is certain blue; red is zero where not allowed and on Saturday; white is zero where not allowed; the result sums to one |
| Transforms.MaskRescales | tempo_prevision_simple.py:863-874 | the kept entries are divided by their sum when it is positive, else the fixed fallbacks (0.65, 0.35, 0) on Saturday and (0.8, 0.2, 0) otherwise |
| Transforms.MaskWithFixes | tempo_prevision_simple.py:859-874 | an already-masked distribution is left unchanged |
| Transforms.MaskIdempotent | tempo_prevision_simple.py:859-874 | masking twice is masking once |
| Transforms.MaskDistribution | tempo_prevision_simple.py:859-874 | masked non-negative probabilities form a distribution |
| Transforms.MeteoStrength | tempo_prevision_simple.py:620-633 | the strength is 0, 0.03, 0.06 or 0.09, and 0 exactly without a gap or with one under 0.5 °C |
| Transforms.MeteoStrengthMonotone | tempo_prevision_simple.py:620-633 | a larger gap never gives a weaker shift |
| Transforms.ApplyMeteoShift | tempo_prevision_simple.py:636-679 | no strength leaves the probabilities unchanged; a distribution stays one; mild weather moves red to white then white to blue, cold weather blue to white then white to red, by the stated amounts; the applied total is at most twice the strength |
| Transforms.MeteoShiftDirection | tempo_prevision_simple.py:636-679 | mild weather never raises red nor lowers blue; cold weather the reverse |
| Transforms.ShiftChain | tempo_prevision_simple.py:653-670 | the two chained transfers keep the total; on non-negative values the first colour loses `min(s, its mass)`, the last gains `min(s, middle + that loss)`, all three stay non-negative and the applied amount is at most `2s` |
| Transforms.Rescaled | tempo_prevision_simple.py:672-675 | a positive total of non-negative values gives a distribution; a non-positive total, or one already equal to 1, leaves the values |
| Transforms.Renorm | tempo_prevision_simple.py:1160-1164 | a positive sum gives the proportional distribution; a non-positive one leaves the values; a distribution is left unchanged; red zero stays zero |
| Transforms.BaseDecisionFromProbs | tempo_prevision_simple.py:68-73 | the chosen colour has the largest probability; white only when strictly above blue and red; red only when strictly above blue |
| Transforms.BaseDecisionUnique | tempo_prevision_simple.py:68-73 | that tie order determines the colour uniquely |
| RawScores.InitialScores | tempo_prevision_simple.py:893-909 | the starting scores sum to one with blue ahead; red is non-zero exactly on working, non-holiday days of the core winter |
| RawScores.ZoneScores | tempo_prevision_simple.py:911-940 | no `Z` changes nothing; blue gains below the adjusted blue/white cut-off; white gains at and above it when allowed; red gains in the tense zone when allowed; a colour not allowed gains nothing |
| RawScores.MidzoneEffect | tempo_prevision_simple.py:942-945 | in the middle zone with white allowed, white is multiplied by 1.2 and blue by 0.85 (so on non-negative scores white never falls and positive blue falls); red is kept; otherwise nothing changes |
| RawScores.OffWinterWhiteBoost | tempo_prevision_simple.py:947-955 | white rises, never beyond blue, exactly outside the core winter for `0.3 ≤ Z ≤ 1`, red under 0.15, white allowed and behind blue |
| RawScores.CalendarGate | tempo_prevision_simple.py:957-961 | a colour that is not allowed, or whose stock is out, has score zero; the others are kept |
| RawScores.SeasonalRedFactor | tempo_prevision_simple.py:963-982 | the seasonal red factor lies in 0.4..1.05, is 1 outside November to March and goes above 1 only in January and February |
| RawScores.ExpectedRedRemaining | tempo_prevision_simple.py:986-989 | the expected red stock is non-negative and `22 * (1 - fraction)` for a fraction in 0..1 |
| RawScores.PressureDelta | tempo_prevision_simple.py:991-1009 | more red left than eligible days forces a delta of at least 0.20; otherwise the delta is negative exactly when fewer reds are left than expected |
| RawScores.PressureDeltaMonotone | tempo_prevision_simple.py:991-1009 | more red left never lowers the pressure delta |
| RawScores.PeriodFactor | tempo_prevision_simple.py:1012-1041 | the period factor lies in 0.7..1.35; a small delta leaves it at 1; it rises only when late and outside the season start |
| RawScores.LowStockFactor | tempo_prevision_simple.py:1043-1044 | the red factor halves exactly when fewer than 4 reds are left outside January and February |
| RawScores.ApplyRedFactor | tempo_prevision_simple.py:1046 | the red factor changes only red, and red stays zero exactly when it was zero |
| RawScores.SaturdayNoRed | tempo_prevision_simple.py:1048-1050 | red has score zero on Saturday; the other scores are kept |
| RawScores.BlueStockBias | tempo_prevision_simple.py:1052-1067 | blue rises exactly when more than 20 blue days above the expected stock are left, and falls exactly when more than 20 below |
| RawScores.WhiteReinforcement | tempo_prevision_simple.py:1073-1085 | in its zone white is raised just above blue, by at most 0.08; outside it nothing changes |
| RawScores.RedAwakening | tempo_prevision_simple.py:1087-1098 | exactly on its guard (red allowed, `Z` in the last 0.12 below `s_r_adj`, red behind white) red becomes `max(r, w (0.45 + 0.55 t))`; otherwise nothing changes; red never falls, never passes white, and blue and white are kept |
| RawScores.AwakeningProgress | tempo_prevision_simple.py:1089-1093 | the progress `t` through the approach zone is `(z - (s_r_adj - 0.12)) / 0.12`, in 0..1 |
| RawScores.ToProbabilities | tempo_prevision_simple.py:1101-1109 | non-positive totals give (0.7, 0.2, 0.1); positive scores give the proportional distribution, with red still zero when it was |
| ProbabilityPatches.StockEffect | tempo_prevision_simple.py:1115-1142 | with a blue share of the days left in 0.4..0.8 nothing changes; above 0.8, with blue under 0.8 and white positive, blue gains `min(0.05, 0.3 w)` taken from white, else nothing changes; below 0.4 with blue positive, blue loses `min(0.05, 0.4 b)`, white and red never fall and the sum is kept when white or red has mass; red zero stays zero |
| ProbabilityPatches.BlueGains | tempo_prevision_simple.py:1127-1132 | blue gains `min(0.05, 0.3 w)` taken from white when white is positive, else nothing changes; the sum and red are kept |
| ProbabilityPatches.BlueLoses | tempo_prevision_simple.py:1134-1142 | blue loses exactly `min(0.05, 0.4 b)` when positive, split over white and red, which never fall; the sum is kept when they have mass; otherwise nothing changes |
| ProbabilityPatches.WinterWhiteStock | tempo_prevision_simple.py:1144-1177 | nothing changes outside November to March (or without a `Z` under 9.5) or for 11 to 37 white days left; with 38 or more, the red cut and then the near-blue white shift apply and the result is renormalised, and red's share of the total falls; with 10 or fewer and blue above 0.30, up to 0.15 of blue (never below 0.25) moves to white and the result is renormalised, so on a distribution white rises and blue stays at least 0.25 |
| ProbabilityPatches.RedCut | tempo_prevision_simple.py:1147-1151 | a quarter of positive red moves out, 40% of it to blue and 60% to white, keeping the sum; non-positive red changes nothing |
| ProbabilityPatches.NearBlueWhiteShift | tempo_prevision_simple.py:1153-1158 | with `Z` less than 0.5 above the blue/white cut-off and white over 0.45, `min(0.08, w - 0.40)` moves from white to blue, keeping the sum and red; otherwise nothing changes |
| ProbabilityPatches.SpanProgress | tempo_prevision_simple.py:1185-1203 | season progress lies in 0..1, 0 on or before the start and 1 from the end |
| ProbabilityPatches.EndOfSeason | tempo_prevision_simple.py:1179-1228 | from 15 February to March with a `Z`: white is raised to at least 0.25 when more white days are left than expected plus 3, red to at least 0.20 when more red days are left than expected plus 2 (with more than 5 left, on a red-allowed working day), and the result is renormalised; otherwise nothing changes |
| ProbabilityPatches.MarchBonus | tempo_prevision_simple.py:1231-1245 | from 10 March: white is raised to at least 0.30 with more than 3 white days left, red to at least 0.22 with more than 5 red days left on a red-allowed working day, and the result renormalised; otherwise nothing changes |
| ProbabilityPatches.MarchRedBoost | tempo_prevision_simple.py:1247-1265 | on March working days with red allowed and `Z ≥ 0.7`, `min(0.12, 0.4 (b + w))` moves to red, half from blue and half from white, then renormalised (exactly that triple on a distribution, with red strictly higher); on other days nothing changes |
| ProbabilityPatches.TransferToRed | tempo_prevision_simple.py:1290-1296 | moving an amount from blue and white, proportionally, to red keeps the sum and adds exactly that amount to red |
| ProbabilityPatches.WinterStep1 | tempo_prevision_simple.py:1280-1302 | with blue or white mass, `min(max shift, (b + w)/2)` moves to red proportionally from blue and white and the result is renormalised; on a distribution red gains exactly that amount; without mass nothing changes |
| ProbabilityPatches.WinterStep2 | tempo_prevision_simple.py:1304-1314 | for `Z ≥ 1.2` with red behind blue, 60% of the gap moves from blue to red and the result is renormalised; after it red is at least blue; otherwise nothing changes |
| ProbabilityPatches.WinterStep3 | tempo_prevision_simple.py:1316-1332 | when red is below a positive floor, `min(floor - r, 0.4 (b + w))` moves to red and the result is renormalised; on a distribution red never passes the floor and reaches it when that much mass can move; otherwise nothing changes |
| ProbabilityPatches.WinterRedTransfer | tempo_prevision_simple.py:1267-1332 | only on winter working days with red allowed, a `Z` and stock left; on a distribution it keeps a distribution and raises red, strictly when blue or white has mass; red not allowed stays zero |
| ProbabilityPatches.FullWinterRedBoost | tempo_prevision_simple.py:1335-1347 | exactly on its guard (core winter, `1.25 ≤ Z ≤ 1.9`, red allowed, working day, red behind white) 45% of the white–red gap moves from white to red, so red rises and ends just under white with the gap cut to a tenth; otherwise nothing changes; the sum and blue are kept |
| ProbabilityPatches.LowZWinter | tempo_prevision_simple.py:1354-1372 | on low-tension winter working days with red under 0.05 and blue ahead of white, a shift of at most 0.08 and at most half the gap moves from blue to white and the result is renormalised; blue stays at least white; otherwise nothing changes |
| ProbabilityPatches.LowZShift | tempo_prevision_simple.py:1362-1366 | when blue is ahead of white the shift is positive, at most 0.08, and at most half their gap |
| ProbabilityPatches.BlueBoostNoRed | tempo_prevision_simple.py:1374-1400 | exactly on its guard (red zero, white over 0.55, not the core winter with `Z ≥ 0.62`) `(w - 0.45) × factor` moves from white to blue, so blue rises; otherwise nothing changes; the sum and red are kept |
| ProbabilityPatches.BlueBoostFactor | tempo_prevision_simple.py:1385-1394 | the factor is 0.2 in November and March and 0.15 otherwise, times 0.7 when white and blue are within 0.03 |
| ProbabilityPatches.SaturdayPrior | tempo_prevision_simple.py:1401-1447 | only on Saturdays with red zero: blue and white are rescaled to one, then capped outside November or shaped in November, and the result renormalised (a distribution when blue or white has mass); red is kept; otherwise nothing changes |
| ProbabilityPatches.SaturdayCaps | tempo_prevision_simple.py:1407-1416 | outside November blue is capped at 0.65, else white at 0.70, with the sum kept |
| ProbabilityPatches.NovemberSaturday | tempo_prevision_simple.py:1417-1440 | the sum and red are kept; on a November Saturday with `Z ≤ 5.3` white ends at most blue, and when it was ahead the new gap is 0.4 times the old one; otherwise only the white floor applies |
| ProbabilityPatches.NovemberWhiteFloor | tempo_prevision_simple.py:1422-1435 | white under 0.30 rises by `min(boost, 0.6 (0.30 - w))`, staying under 0.30, taken from blue, with the boost 0.20 or 0.24; otherwise nothing changes |
| ProbabilityPatches.SaturdaySafety | tempo_prevision_simple.py:1450-1457 | on Saturday red ends at zero; it is removed with blue and white rescaled to one when there is mass to rescale |
| ProbabilityPatches.PatchA | tempo_prevision_simple.py:1459-1485 | on winter working days with red allowed and `Z ≥ 1.10`, red is raised to its target, with half the difference taken from blue and 0.3 of it from white where each can give it, then renormalised; when white is ahead of red but not above the red floor of `Z`, red ends at least white; otherwise nothing changes |
| ProbabilityPatches.PatchATarget | tempo_prevision_simple.py:1467-1468 | the target is never below red, and it is either red itself or at most white |
| ProbabilityPatches.PatchB | tempo_prevision_simple.py:1487-1507 | in November with red allowed, `Z ≥ 0.75` and red under 0.10, red is raised to 0.10 from blue and white proportionally and the result is renormalised (exactly 0.10 on a distribution); otherwise nothing changes |
| ProbabilityPatches.PatchC | tempo_prevision_simple.py:1509-1528 | in November with white allowed, `Z ≥ 0.20` and white under 0.35, white is raised to 0.35 from blue when blue can give it and the result is renormalised (exactly 0.35 on a distribution, red kept); otherwise nothing changes |
| Scorer.StockAfterUse | tempo_prevision_simple.py:1542-1547 | one day used: `n - 1` from a positive stock, else 0, never negative |
| Scorer.EligibleDaysLeft | tempo_prevision_simple.py:995-996 | the red-eligible days left in the season, at least 1 |
| Scorer.RawScoresOf | tempo_prevision_simple.py:890-1109 | the raw scores after the nine scoring stages are non-negative, and red is zero on a day where red is not allowed or its stock is out |
| Scorer.ScoreDay | tempo_prevision_simple.py:890-1109 | the scoring stages run in order compute exactly the specified raw scores, non-negative with red zero where red is closed |
| Scorer.ScorerProbs | tempo_prevision_simple.py:1101-1528 | the scorer's probabilities: red is zero where red is not allowed or its stock is out |
| Scorer.PatchedProbabilities | tempo_prevision_simple.py:1111-1528 | the patches run in order compute exactly the specified chain of patches on the normalised scores, and keep red zero where it is closed |
| Scorer.DominantColor | tempo_prevision_simple.py:1530-1538 | the chosen colour has the largest probability; white only when strictly above blue, red only when strictly above both |
| Scorer.ScoredColor | tempo_prevision_simple.py:1530-1538 | the probabilities are the scorer's, and the colour is the most probable with ties to blue and then white |
| Scorer.UseStock | tempo_prevision_simple.py:1542-1547 | the three stocks after the day are `UseDay` of those before it: only the chosen colour's stock goes down by one, never below zero |
| Scorer.DecideColorWithProbs | tempo_prevision_simple.py:877-1549 | Sunday is certain blue with the stocks unchanged; otherwise the probabilities are the scorer's, the colour is the most probable, with ties to blue and then white, and the stocks are `UseDay` of the chosen colour; red has probability zero where not allowed or out of stock |
| Scorer.WrappedProbs | tempo_prevision_simple.py:1553-1576 | Sunday is certain blue; red has probability zero on a day that does not allow it; any other day gets the scorer's probabilities |
| Scorer.DecideColorWithWrappersNoStock | tempo_prevision_simple.py:1553-1576 | the probabilities are the wrapped ones: Sunday is certain blue, red has probability zero and is never chosen where not allowed; the colour is the most probable under the same tie order |
| Confidence.Ranking | tempo_prevision_simple.py:1602 | the colours in decreasing probability, ties in the order blue, white, red (a stable sort) |
| Confidence.RankingUnique | tempo_prevision_simple.py:1602 | any ordering with those properties is that ranking |
| Confidence.WinnerTerm | tempo_prevision_simple.py:1608-1621 | the winner term lies in 0.7..3 and is 3 exactly from 0.75 |
| Confidence.GapTerm | tempo_prevision_simple.py:1622-1633 | the gap term lies in -1..1; it is 1 exactly from 0.25 and -1 exactly below 0.04 |
| Confidence.HorizonTerm | tempo_prevision_simple.py:1634-1645 | the horizon term lies in -0.8..1.5 and is -0.8 from J+6 |
| Confidence.SeasonTerm | tempo_prevision_simple.py:1656-1681 | the seasonal term lies in -1..0.4 |
| Confidence.RedRefinement | tempo_prevision_simple.py:1682-1704 | the red refinement lies in -0.8..0 and is 0 for blue and white |
| Confidence.StockTerm | tempo_prevision_simple.py:1705-1743 | the stock term lies in -0.7..0 |
| Confidence.SourceTerm | tempo_prevision_simple.py:1754-1761 | published or absent generation costs nothing; estimated or carried-over generation costs at most 1, at most 0.3 up to J+2 |
| Confidence.NearBoost | tempo_prevision_simple.py:1764-1767 | the boost is 0 or 0.5, only at J+1 and J+2 and only below a raw score of 3 |
| Confidence.RawScore | tempo_prevision_simple.py:1608-1767 | the raw score, the sum of the winner, gap, horizon, season, red, stock, source and near-day terms, lies in -5..5.9 |
| Confidence.Bucket | tempo_prevision_simple.py:1769-1782 | each score 1..5 corresponds exactly to its interval of the raw score: up to 0.5, then (0.5, 1.5], (1.5, 2.5], (2.5, 3.5], above 3.5 |
| Confidence.BucketMonotone | tempo_prevision_simple.py:1769-1782 | a higher raw score never gives a lower score |
| Confidence.ComputeConfidenceScore | tempo_prevision_simple.py:1592-1782 | no score exactly when a probability is missing; blue on a Sunday scores 5; otherwise the bucket of the raw score |
| Confidence.ClearNextDayIsStrong | tempo_prevision_simple.py:1608-1782 | J+1 with a winner of at least 0.75 and a gap of at least 0.25 scores at least 4 |
| Confidence.UndecidedFarDayIsVeryWeak | tempo_prevision_simple.py:1608-1782 | J+6 with a winner under 0.45 and a gap under 0.04 scores 1 |
| Confidence.ConfidenceLabel | tempo_prevision_simple.py:1579-1590 | the label for each score: Indisponible, Très faible, Faible, Moyenne, Forte, Très forte |
| Confidence.LeadGap | tempo_prevision_simple.py:1793-1798 | the gap between the two most probable colours is never negative |
| Confidence.ProbabilityComment | tempo_prevision_simple.py:1807-1885 | the duel comments exactly on a blue/white duel, tight exactly below score 3; otherwise the red-risk comments exactly when red is not chosen and at least 0.25, open exactly below score 3; on the score ladder 5 and 4 give the strong comments with the distance, 3 gives the sensitive one exactly for a lead of at most 0.15 and otherwise the far or near likely one, 2 gives the far uncertain one exactly far, the small-gap one near with a lead of at most 0.08, and the open one near otherwise; lower scores give the very-far or hesitant one; leaders and seconds are the ranking's |
| Confidence.ConfidenceComment | tempo_prevision_simple.py:1786-1885 | missing data exactly when a probability is missing; Sunday blue exactly for blue on a Sunday; otherwise exactly the probability comment at the day's distance, so the duel, red-risk and ladder cases above hold |
| DataPrep.ExtractLoadValue | tempo_prevision_simple.py:155-166 | a value is read exactly from a number above zero, plain or boxed |
| DataPrep.MeanLoad | tempo_prevision_simple.py:197-208 | Monday-to-Sunday first, then Saturday-to-Friday, then the midpoint of minimum and maximum; none exactly when all fail; always positive |
| DataPrep.SortWeeks | tempo_prevision_simple.py:183 | the weeks sorted by start date (missing dates first) and a permutation of the input |
| DataPrep.WeekRows | tempo_prevision_simple.py:210-212 | seven rows, one for each day from the week's start, with the week's mean |
| DataPrep.ExpandWeeks | tempo_prevision_simple.py:186-212 | the week loop produces exactly the rows of the usable weeks, in order |
| DataPrep.KeepWithin | tempo_prevision_simple.py:214-222 | the filter keeps exactly the rows in `[start, end)`, in order |
| DataPrep.ExpandBlock | tempo_prevision_simple.py:179-222 | a block gives exactly its specified rows |
| DataPrep.CollectRows | tempo_prevision_simple.py:175-224 | the loop over the annual blocks collects exactly the specified rows, in order |
| DataPrep.Upsert | tempo_prevision_simple.py:226-228 | `by_date[day] = row`: the day now has the row's value, every other day keeps its value, the series stays sorted |
| DataPrep.DedupKeepsLast | tempo_prevision_simple.py:226-230 | after de-duplication each day holds the value of the last row with that day |
| DataPrep.DedupRows | tempo_prevision_simple.py:226-230 | the de-duplication loop produces exactly the specified date-sorted series |
| DataPrep.AnnualRowsPositive | tempo_prevision_simple.py:175-224 | every row of the annual data has a positive value |
| DataPrep.BuildDailyData | tempo_prevision_simple.py:169-230 | the daily series is strictly increasing by date, each day holding the last positive value given for it, and every such day appears |
| DataPrep.GroupDailyAvg | tempo_prevision_simple.py:304-321 | a day is in the result exactly when it has readable values, and holds their mean |
| DataPrep.AverageWithinValues | tempo_prevision_simple.py:321 | a daily average lies between the smallest and largest of its values |
| DataPrep.AddReadingStep | tempo_prevision_simple.py:345-353 | adding one reading to the running totals keeps them the totals of all readings so far |
| DataPrep.AddBlock | tempo_prevision_simple.py:345-353 | one block's readings added to running totals of the readings seen so far give the totals of all of them |
| DataPrep.NoReadingNoTotal | tempo_prevision_simple.py:353 | a timestamp with no readable value has total zero |
| DataPrep.SumPerTimestamp | tempo_prevision_simple.py:328-353 | the totals are defined exactly on timestamps with a readable value and equal the sum of those values |
| DataPrep.MergeTotals | tempo_prevision_simple.py:355 | one record per timestamp, each holding its total |
| DataPrep.GetGeneration | tempo_prevision_simple.py:324-356 | each timestamp's total appears exactly once, and the daily generation is the mean of the day's totals |
| Forecast.ClampRatio | tempo_prevision_simple.py:1949 | the ratio is clamped into 0..0.5 and kept when already inside |
| Forecast.NextDayRatio | tempo_prevision_simple.py:1943-1949 | J+1's ratio exists exactly when J+1 has a published generation and a positive consumption, and lies in 0..0.5 |
| Forecast.TemperatureGap | tempo_prevision_simple.py:1958-1960 | the gap exists exactly when both temperatures do, and is their difference |
| Forecast.ResolveGeneration | tempo_prevision_simple.py:1935-1956 | published generation wins; otherwise J+2 and J+3 with a consumption use J+1's ratio; otherwise a day with a consumption carries over the last published or estimated value; the last known value is updated only by published or estimated values |
| Forecast.NetAndScore | tempo_prevision_simple.py:1990-2022 | with a consumption: the net consumption (generation counting zero when absent) and its score, from the annual history when there is one, else from the fixed mean and spread; without one, none of them |
| Forecast.ResolveDay | tempo_prevision_simple.py:1928-2024 | one day's record of the first pass, as `DayInputsResolved` describes |
| Forecast.DaysResolvedSnoc | tempo_prevision_simple.py:1940-1952 | appending a day keeps the first pass's invariant and updates the last known generation as the loop does |
| Forecast.ResolveDays | tempo_prevision_simple.py:1924-2024 | six records, each J+`i` resolved from the days before it |
| Forecast.ShrinkLambda | tempo_prevision_simple.py:2081-2096 | a weight exactly for J+2 to J+6: 0.20 at J+2, 0.35 at J+3, and 0.40, 0.50, 0.60 at J+4, J+5, J+6, plus 0.10 for estimated or carried-over generation |
| Forecast.ShrinkLambdaOrder | tempo_prevision_simple.py:2090-2093 | farther days are shrunk at least as much; from J+4 estimated or carried-over generation adds exactly 0.10 over published or absent |
| Forecast.OneHot | tempo_prevision_simple.py:2108-2110 | the published colour has probability 1 and the others 0 |
| Forecast.Shrunk | tempo_prevision_simple.py:2081-2096 | no weight leaves the probabilities; a weight gives a distribution that is a fixed point of the mask |
| Forecast.ModelProbabilities | tempo_prevision_simple.py:2076-2102 | the probabilities are exactly the model's chain: the wrapped scorer on the stocks before the day, shrunk, shifted by the temperature gap and masked; they sum to one and are a fixed point of the mask; the colour is their base decision, red only where allowed and not on Saturday, white only where allowed, blue on Sunday; no meteo strength gives no bias |
| Forecast.OverrideDay | tempo_prevision_simple.py:2104-2146 | RTE's colour with probability one, score 5, its label and the confirmed comment, marked as RTE's; the stocks after it are one day of that colour used; the record and the temperature shift are kept |
| Forecast.ScoredDay | tempo_prevision_simple.py:2148-2189 | one day of the decided colour is used; the day carries the model's chain, its colour, and the confidence score, label and comment computed on the stocks left after it, as `ModelDay` states; the record and the temperature shift are kept |
| Forecast.ForecastDay | tempo_prevision_simple.py:2028-2190 | a day without consumption is unknown and uses no stock; J+1 after the cut-off with a published colour is that colour with score 5; any other day carries the model's chain on the stocks before it, takes the base decision, respects the calendar and is rated on the stocks left after it; one day of its colour is used |
| Forecast.ForecastDays | tempo_prevision_simple.py:2028-2190 | the second pass keeps every record, threads the stocks from day to day, and forecasts each day from the stocks the days before it left |
| Forecast.EntriesSnoc | tempo_prevision_simple.py:2028-2190 | appending a day whose record is the next one keeps the records equal to the prefix of the first pass |
| Forecast.BuildForecast | tempo_prevision_simple.py:1888-2192 | on the date-sorted daily series (as the driver sorts it): six days, each resolved by the first pass and forecast by the second from the stocks the days before it left, threaded from the initial ones |
| Forecast.FinalStocks | tempo_prevision_simple.py:2149-2156 | over the whole forecast each stock falls by the number of days of its colour, never below zero, and is unchanged when there are none |

## Left out

- Network access, OAuth and JSON fetching (`http_post_token`, `get_token`, `http_get_json`, `get_annual`, `get_short_term`, `get_weekly`, the HTTP half of `get_generation`): the model takes their results as maps and sequences.
- `compute_national_tmoy` and the Open-Meteo fetch: the national temperatures are an input map (`Inputs.tnat`). `ENABLE_METEO` off is the same as an empty map.
- The command line, the JSON output, `round(...)` of the printed values and the `__main__` error wrapper are not modelled. The model returns the unrounded values.
- Floating point: all arithmetic is on mathematical reals, so rounding, NaN and infinities are not modelled.
- `math.sqrt` in the small-sample branch of `compute_z_rte_like` is a function parameter (`sqrtFn`). The `or 1.0` guard against a zero result is modelled.
- The clock: today's date is a parameter, and "now is after 06:45" is a boolean `afterCutoff`.
- `compute_confidence_score`'s own `date.today()` is modelled as the same `today` the driver uses.
- ISO date-string parsing: timestamps are strings mapped to day numbers by a parameter `dayOf`. Week and block dates are already day numbers, or `None` when missing or unreadable. A present `start_date` that is not a string is not modelled; the source raises an error there.
- Records that are not dictionaries, for weeks and generation values, are not modelled. `YearBlock.weeks == None` covers a block that is not a dictionary or whose values are not a list.
- Years are unbounded integers. Python's `date` accepts only years 1 to 9999, and out-of-range dates raise an error that is not modelled.
- Anomaly.Quantile: requires `0 ≤ p ≤ 1`. The source only calls it with 0.4 and 0.8.
- Transforms.ApplyMeteoShift: takes three known probabilities. The source's guard for a missing probability cannot trigger in the driver, because every model day has all three.
- The `except` fallback around the `Z` computation in `build_forecast` is not modelled. Nothing in the modelled computation can raise: `_quantile` is only called on a history of at least three values.
- The `ENABLE_DEBUG` dictionaries, the unused `TARGET_RED_DENSITY` and the unused `frac_white`/`frac_red` values are not modelled. None of them affects a result.
- Confidence.ConfidenceComment: takes the score as an integer. The driver only calls it with a score that exists, because every model day has all three probabilities.
- The comment wording is a `Comment` datatype with `Confidence.Text` giving the source's sentences. Contracts speak about the constructors.
- Scorer.DecideColorWithWrappersNoStock: the source's rescaling of blue and white by their sum, when red won on a day that forbids it, is dead code. Red can only win there with both below zero, so the fallback (0.8, 0.2, 0) always applies, and the model has only that branch.
- Scorer.DecideColorWithProbs: the probabilities are not promised to sum to one. The "few blue days left" shift removes mass from blue without adding it anywhere when white and red are both zero.
- Forecast.ShrinkLambda: the source applies no shrink at J+1. The model's weight is `None` there rather than 0. The 0.75 cap is stated but never reached, since the largest weight is 0.60 + 0.10.
- Forecast.ForecastDay: RTE's J+1 colour is an `Option<Color>`. Any command-line string other than `bleu`, `blanc` or `rouge` is `None`, as the source ignores it.
- Forecast.ForecastDay: a predicted Sunday uses one blue day, because the driver's decrement has no Sunday exception (the scorer's own Sunday return leaves the stocks unchanged, and the driver discards them).
- `build_daily_data_from_annual_forecasts` de-duplicates through a dictionary and then sorts its values by date. The model keeps a date-sorted series and inserts or replaces in place (`DataPrep.Upsert`). The result is the same set of rows in the same order.
- DataPrep.SortWeeks: the weeks are sorted by their parsed start day, not by the start-date string. For ISO strings in one format the two orders agree, and weeks without a readable date are skipped afterwards either way.
- DataPrep.SortWeeks: Python's sort is stable, but stability is not stated. Weeks with equal start dates are expanded to the same days, and de-duplication keeps the later row, so the daily series depends on their relative order. The model's insertion sort is stable by construction.
- DataPrep.MergeTotals: the order of `per_ts.items()` is not stated, only that each timestamp appears once. The daily average that follows does not depend on it.
- Transforms.MaskWith: its own contract does not promise that white is zero when not allowed. `Transforms.MaskProbsByCalendar` states it for the calendar mask the driver uses.
