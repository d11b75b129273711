# Sunrise and sunset glow predictor — a Dafny model

The predictor estimates how colourful tomorrow's sunrise and sunset
("早霞" and "晚霞") will be at a location. It does this from an hourly weather
forecast and a pair of sun times. This project models its decision logic:

* **The glow scorer** (`calculate_glow_score`). It takes five averaged
  readings: low, mid and high cloud cover (percent), relative humidity
  (percent) and surface pressure (hPa). The steps are:
  * Each cloud band gets a capped bonus or penalty.
  * Humidity and pressure each get a banded score.
  * The three terms are weighted 0.6 / 0.15 / 0.15, scaled by 1.2, clamped
    to [1, 10] and rounded to one decimal.
  * The score selects one of five colour bands through the descending
    thresholds 8, 6, 4 and 2. Each band has a colour label and a star count
    from 1 to 5.
  * An explanation is built from five possible clauses, at most four of
    which fire together. They are added in a fixed order and joined by a full-width comma. When no clause fires, the
    text is the sentinel "条件一般".
* **Window averaging and assembly** inside `predict`.
  * Each of the five hourly series is sliced to hours 6–9 (sunrise) and
    17–20 (sunset). The slice is summed and always divided by 4.
  * A missing series defaults to `[0]`.
  * The scorer is applied to each window.
  * The result record stores the location, date, sun times, both
    predictions and the two sets of averages, rounded to one decimal.

## Modules

* `Rounding` (`rounding.dfy`): Python's `round(x, 1)` and `{x:.0f}` on
  exact values. It rounds to the nearest integer or tenth, with ties going to
  the even neighbour. It also proves that the result is unique, that
  rounding is monotone, and that a value on the grid is left alone.
* `GlowReasons` (`glow_reasons.dfy`):
  * the explanation clauses as a datatype;
  * `Reasons`, the specification of which clauses fire, with
    `CollectReasons`, the append-by-append method the predictor runs;
  * rendering to text, with `ReasonText`.
* `GlowScorer` (`glow_scorer.dfy`): the score, the bands and the complete
  prediction `GlowScore`, plus the properties of the score.
* `Windows` (`windows.dfy`): `hourly.get(key, [0])`, Python slicing that
  clamps at the end of the series, `sum(...)/4`, and the rounded copy of the
  averages.
* `Predictor` (`predictor.dfy`): one request, with the weather and sun-time
  payloads passed in as values. `Predict` fails with `MissingKey` exactly
  where the source raises `KeyError` on the sun-time record.
* `GlowExamples` (`glow_examples.dfy`): worked examples pinned to their
  exact outputs.
* `Wrappers` (`wrappers.dfy`): `Option` and `Result`.

Two things the proofs bring out about the source:

* `ScoreAtMostFivePointSeven`: when the cloud readings are percentages (not
  negative), the weighted composite is at most 7·0.6 + 2·0.15 + 1.5·0.15 =
  4.725. The score therefore never exceeds 5.7, and the golden-red (4 stars)
  and purple-red (5 stars) bands can never be reached.
  `ScoreMaximumAttained` shows that 5.7 is reached. The weights are a
  heuristic, so this is recorded as a property of the scorer, not corrected.
* The windows always index hours 6–9 and 17–20 of the first day of the
  forecast, whatever `date` is. The date only selects the sun times and is
  copied into the result. `Predict` models this as written.

## Model

| member | source | states |
|---|---|---|
| Rounding.RoundHalfEven | src/predictor.py:95 | the result is within 0.5 of x, and an exact tie goes to the even integer |
| Rounding.RoundHalfEvenUnique | src/predictor.py:95 | any integer meeting those two conditions is the rounding of x, so half-even rounding is fully determined |
| Rounding.RoundHalfEvenMonotone | src/predictor.py:95 | x ≤ y implies round(x) ≤ round(y) |
| Rounding.RoundTenth | src/predictor.py:95 | `round(x, 1)` is within 0.05 of x and lies on the one-decimal grid |
| Rounding.RoundTenthMonotone | src/predictor.py:95 | rounding to one decimal preserves order |
| Rounding.RoundTenthWithin | src/predictor.py:95 | a value between two grid points rounds to a value between them |
| Rounding.RoundTenthOfGridValue | src/predictor.py:207-218 | a value already on the one-decimal grid is unchanged by `round(x, 1)` |
| GlowReasons.AppendIf | src/predictor.py:116-125 | `if b: reasons.append(c)` adds exactly c when b holds and nothing else |
| GlowReasons.Reasons | src/predictor.py:115-125 | a clause is in the list if and only if its trigger holds: high > 30, mid > 30, low > 30, low < 15, 60 ≤ humidity ≤ 80 |
| GlowReasons.AppendIfAppends | src/predictor.py:116-125 | `list.append` keeps the old list unchanged as a prefix and puts c at the end exactly when b holds |
| GlowReasons.CollectReasons | src/predictor.py:115-125 | starting empty and appending each clause whose trigger holds yields exactly `Reasons` |
| GlowReasons.AppendInOrder | src/predictor.py:115-125 | appending a higher-ranked clause keeps the list in clause order |
| GlowReasons.ReasonsInClauseOrder | src/predictor.py:115-125 | clauses always appear in the order high, mid, low > 30, low < 15, humidity |
| GlowReasons.ReasonsEmptyIffNoTrigger | src/predictor.py:115-131 | the list is empty if and only if high ≤ 30, mid ≤ 30, 15 ≤ low ≤ 30 and humidity is outside 60–80 |
| GlowReasons.ReasonsAtMostFour | src/predictor.py:115-125 | at most four clauses, because the two low-cloud triggers exclude each other |
| GlowReasons.LowCloudClausesExclusive | src/predictor.py:120-123 | "低云 N%" and "低云少" never appear together |
| GlowReasons.NatText | src/predictor.py:117-121 | the decimal text of a whole number is non-empty, made of digits, and has no leading zero (so 0 is "0") |
| GlowReasons.NatTextValue | src/predictor.py:117-121 | the digits of that text denote the number itself |
| GlowReasons.WholeText | src/predictor.py:117-121 | `{x:.0f}` of a reading is the canonical decimal digits (at least one, no leading zero) of the reading rounded half-to-even, after a minus sign when the reading is negative |
| GlowReasons.ClauseText | src/predictor.py:116-125 | every clause text is non-empty and cannot be mistaken for the sentinel |
| GlowReasons.ClauseTexts | src/predictor.py:131 | one text per clause |
| GlowReasons.Join | src/predictor.py:131 | `sep.join(parts)` starts with the first part's first character |
| GlowReasons.ReasonText | src/predictor.py:131 | the explanation is the sentinel "条件一般" if and only if no clause fired |
| GlowScorer.Min | src/predictor.py:74-76 | Python's `min(a, b)`: a lower bound of both arguments that is one of them |
| GlowScorer.Max | src/predictor.py:95 | Python's `max(a, b)`: an upper bound of both arguments that is one of them |
| GlowScorer.HighBonus | src/predictor.py:74 | the high-cloud bonus is 0.08 per percent up to 50 %, never above 4, and not negative for a non-negative reading |
| GlowScorer.MidBonus | src/predictor.py:75 | the mid-cloud bonus is 0.06 per percent up to 50 %, never above 3, and not negative for a non-negative reading |
| GlowScorer.LowPenalty | src/predictor.py:76 | the low-cloud penalty is 0.05 per percent up to 60 %, never above 3, and not negative for a non-negative reading |
| GlowScorer.CloudScore | src/predictor.py:74-77 | for non-negative cloud readings the cloud score lies in [-3, 7] |
| GlowScorer.HumidityScore | src/predictor.py:80-85 | 2 exactly for 60–80 %, 1 exactly for 40–60 % or above 80 %, 0.5 exactly below 40 % |
| GlowScorer.PressureScore | src/predictor.py:88-91 | 1.5 exactly for 1010–1020 hPa, 0.5 otherwise |
| GlowScorer.Weighted | src/predictor.py:94 | with the 0.6 / 0.15 / 0.15 weights, terms in their ranges ([-3, 7], [0.5, 2], [0.5, 1.5]) give a total in [-1.65, 4.725] |
| GlowScorer.Composite | src/predictor.py:74-94 | for non-negative cloud readings the weighted total lies in [-1.65, 4.725] |
| GlowScorer.Clamped | src/predictor.py:94-95 | the scaled and clamped composite lies in [1, 10] for all real inputs |
| GlowScorer.Score | src/predictor.py:94-95 | the score lies in [1, 10], is on the one-decimal grid, and is within 0.05 of the clamped composite |
| GlowScorer.BandOf | src/predictor.py:98-112 | each band holds exactly its interval: ≥ 8, [6, 8), [4, 6), [2, 4), < 2, so every score falls into exactly one band |
| GlowScorer.ColorLabel | src/predictor.py:98-111 | the label "几乎无霞光" is used for the lowest band and for no other |
| GlowScorer.GlowPrediction.Color | src/predictor.py:127-132 | the "color" entry is "几乎无霞光" exactly for the lowest band |
| GlowScorer.GlowPrediction.Stars | src/predictor.py:127-132 | the "stars" entry is one to five star glyphs, as many as the band's star count |
| GlowScorer.GlowPrediction.Reason | src/predictor.py:127-132 | the "reason" entry is the sentinel "条件一般" exactly when no clause fired |
| GlowScorer.StarCount | src/predictor.py:98-112 | every band has between 1 and 5 stars |
| GlowScorer.StarText | src/predictor.py:98-112 | the star text is exactly n star glyphs |
| GlowScorer.StarsMonotone | src/predictor.py:98-112 | a higher score never earns fewer stars |
| GlowScorer.BandsDistinct | src/predictor.py:98-112 | distinct bands have distinct colour labels and star counts |
| GlowScorer.GlowScore | src/predictor.py:56-132 | the prediction's score is in [1, 10] on the grid, its band is the band of that score, its clauses are `Reasons`, and its reason text is the sentinel if and only if no clause fired |
| GlowScorer.CloudTermsCapped | src/predictor.py:74-77 | high bonus ≤ 4, mid bonus ≤ 3, low penalty ≤ 3, and for non-negative inputs the cloud score is in [-3, 7] |
| GlowScorer.ScoreMonotoneInHighCloud | src/predictor.py:74-95 | with the other readings fixed, more high cloud never lowers the score |
| GlowScorer.ScoreMonotoneInMidCloud | src/predictor.py:75-95 | with the other readings fixed, more mid cloud never lowers the score |
| GlowScorer.ScoreAntitoneInLowCloud | src/predictor.py:76-95 | with the other readings fixed, more low cloud never raises the score |
| GlowScorer.ScoreAtMostFivePointSeven | src/predictor.py:74-112 | for non-negative cloud readings the score is at most 5.7 and earns at most 3 stars |
| GlowScorer.ScoreMaximumAttained | src/predictor.py:74-95 | the score 5.7 is reached, at no low cloud, full mid and high cloud, 65 % humidity and 1015 hPa |
| GlowScorer.NoUpperCloudMeansNoGlow | src/predictor.py:74-112 | without mid or high cloud, and with low cloud not negative, the score is 1.0 and the band is "几乎无霞光", whatever the humidity and pressure |
| GlowScorer.ClearDrySky | src/predictor.py:74-125 | no upper cloud, low cloud in [0, 15) % and humidity outside 60–80 % give score 1.0, no glow, and the single clause "低云少" |
| GlowScorer.ScoreOfZeroReadings | src/predictor.py:74-95 | all-zero readings score 1.0 |
| GlowScorer.ReasonsOfZeroReadings | src/predictor.py:115-125 | all-zero readings fire only "低云少" |
| GlowScorer.ZeroReadings | src/predictor.py:56-132 | the full prediction for all-zero readings |
| GlowExamples.CloudScoreOfHighCloudMorning | src/predictor.py:74-77 | cloud readings 10/20/50 give a cloud score of 4.7 |
| GlowExamples.ScoreOfHighCloudMorning | src/predictor.py:74-95 | readings 10/20/50/70/1015 score 4.0 (composite 3.345, scaled 4.014) |
| GlowExamples.TextOfHighCloudMorning | src/predictor.py:115-131 | those clauses render as "高云 50%，低云少，湿度适中" |
| GlowExamples.HighCloudMorning | src/predictor.py:56-132 | the complete prediction for those readings: 4.0, "橙红色", three stars, and that text |
| GlowExamples.TextOfFewLowCloud | src/predictor.py:122-131 | the single clause "低云少" renders as itself, with no separator |
| GlowExamples.BestPossibleSky | src/predictor.py:56-125 | the complete prediction at the best readings: 5.7, orange-red, and four clauses |
| Windows.Sum | src/predictor.py:163-176 | Python's `sum`: a sum of non-negative samples is not negative |
| Windows.WindowAverage | src/predictor.py:163-176 | `sum(s[a:a+4]) / 4` is 0 for a series that ends before the window and not negative for non-negative samples; its closed forms are the three window lemmas below |
| Windows.Field | src/predictor.py:163-176 | `hourly.get(key, [0])`: the stored series, or `[0]` when the key is missing |
| Windows.Slice | src/predictor.py:163-176 | a Python slice clamps both bounds to the series length and keeps the elements in place |
| Windows.WindowReadings | src/predictor.py:162-177 | each of the five readings is the window average of its own field |
| Windows.RoundedReadings | src/predictor.py:206-219 | every stored average is on the one-decimal grid and within 0.05 of the average that was scored |
| Windows.SumAppend | src/predictor.py:163-176 | `sum` distributes over concatenation |
| Windows.FullWindowAverage | src/predictor.py:163-176 | a series covering the window averages its four samples |
| Windows.PartialWindowAverage | src/predictor.py:163-176 | a series ending inside the window sums only the samples it has, still divided by 4 |
| Windows.ShortSeriesAveragesToZero | src/predictor.py:163-176 | a series ending before the window opens averages to 0 |
| Windows.MissingFieldAveragesToZero | src/predictor.py:163-176 | a missing field averages to 0 over every window |
| Windows.ShortForecastWindow | src/predictor.py:162-177 | a forecast whose series all end before the window gives all-zero readings |
| Windows.SumBounds | src/predictor.py:163-176 | a sum of samples in [0, hi] lies in [0, hi·n] |
| Windows.WindowAverageBounds | src/predictor.py:162-177 | with samples in [0, hi], the average lies in [0, hi·n/4], where n is the number of hours the series covers |
| Predictor.HourlyOf | src/predictor.py:159 | `weather.get("hourly", {})`: the payload's series, or none |
| Predictor.SunTimesOf | src/predictor.py:202-205 | succeeds if and only if "results", "sunrise" and "sunset" are present; otherwise it fails naming the first missing key in that order |
| Predictor.ScoreReadings | src/predictor.py:180-194 | the scorer applied to one window's averages: score in [1, 10] on the grid, its band, and its clauses |
| Predictor.Predict | src/predictor.py:159-221 | succeeds exactly when the sun times are present, and the error is passed through; on success the location, coordinates and date are copied; the sunrise and sunset predictions are `GlowScore` of the morning and evening averages; the stored weather is those averages rounded |
| Predictor.PredictionScoresInRange | src/predictor.py:180-194 | both scores of a successful prediction are in [1, 10] on the one-decimal grid, and each stored reading is within 0.05 of the average that was scored |
| Predictor.ShortForecastGivesLowestScore | src/predictor.py:159-219 | a forecast whose series end before hour 6 yields score 1.0, no glow, only "低云少", and all-zero stored weather in both windows |
| Predictor.NoForecastGivesLowestScore | src/predictor.py:159-194 | a payload without "hourly" gives the same lowest predictions |
| Predictor.SunriseDependsOnMorningOnly | src/predictor.py:162-186 | two forecasts that agree on hours 6–9 of the five fields give the same sunrise prediction |
| Predictor.SunsetDependsOnEveningOnly | src/predictor.py:171-194 | two forecasts that agree on hours 17–20 of the five fields give the same sunset prediction |

## Left out

- The two HTTP fetches `get_weather_data` and `get_sun_times` (src/predictor.py:22-54). They are network I/O. `Predict` takes their payloads as parameters: the `"hourly"` object as an optional map from field name to series, and the `"results"` object as an optional map.
- The `datetime.now()` default date and the `generated_at` timestamp (src/predictor.py:146, 222). They read the wall clock, so the date is a parameter and the timestamp is dropped.
- `self.cache` (src/predictor.py:20). Nothing reads or writes it after construction, so the model has no class.
- The time zone and its default (src/predictor.py:150). It is only passed to the weather fetch. `Location` carries the field, but nothing uses it.
- `KeyError` on a location without `name`, `latitude` or `longitude` (src/predictor.py:148-149, 198). `Location` is a record with all fields present.
- Series holding non-numbers (JSON `null`). Every sample is a real number.
- `to_human_readable` and `main` (src/predictor.py:227-275), and all of src/display.py: text presentation, a demo driver and a fixed table of locations.
- Rounding.RoundTenth: rounds the exact real value. Python rounds the nearest binary double, so a decimal tie that a double cannot represent exactly may round the other way in the source. The same holds for `Rounding.RoundHalfEven` as used for `{x:.0f}`.
- GlowScorer.Score: when a clamp applies, `max(total * 1.2, 1)` and `min(..., 10)` return the Python int `1` or `10`, and `round(1, 1)` stays an int, so the source's score is printed as `1` or `10` rather than `1.0` or `10.0`. The value is the same; reals do not carry the int/float distinction.
- GlowScorer.Score: all arithmetic is exact over the reals. The source's floating-point products and sums, such as 0.08·x, can differ from the exact value in the last bit, and that can move a result that sits on a rounding tie.
- GlowReasons.ClauseTexts: states only that there is one text per clause. The element-wise correspondence is established for concrete lists in `GlowExamples`.
- GlowReasons.Join: states only the first character in general. The full joined text is established for concrete lists in `GlowExamples`.
- GlowReasons.WholeText: non-finite readings (`inf`, `nan`), which `{x:.0f}` would print as words, are not representable as reals.
