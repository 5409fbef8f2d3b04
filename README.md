# Aadhaar 360 Sentinel — a verified model of the pipeline core

The system turns raw Aadhaar activity CSVs into a per-district snapshot. It
serves the snapshot through an audit API and trains a per-state load
forecaster on it. This project models the logic of the three pieces:

- **The batch ETL** (`src/etl_pipeline/ingest_data.py`), module `Ingest`.
  - Location names are cleaned: strip, then `&` → `And`, then title case.
  - Each category (enrolment, biometric, demographic) gets its derived column.
  - The categories are grouped by (state, district) and summed.
  - A left join is anchored on the enrolment keys, with zero fill.
  - The female/enrolment ratio is rounded to three decimals, and the fixed five-field output record is produced.
  - The normalisation step is modelled as an in-place update of a `Frame` class.
  - The run stops when a category has no files or no rows.
- **The audit API** (`src/api/app.py`), module `Api`.
  - `load_data` title-cases the snapshot on load.
  - Both endpoints clean names in place.
  - The three-pillar classifier `analyze_logic`.
  - `get_audit_report`, with its ordered error answers (400, 503, 404 for a state, 404 for a district, and 500 for the `KeyError` on an empty snapshot), the whole-state sum and mean, the first-matching-district rule, and the fixed-multiplier fallback forecasts.
  - The sorted metadata grouping of `get_metadata`.
- **The forecast trainer** (`src/model/train_forecaster.py`), module `Forecaster`.
  - Per-state loads are the group sums of the mobile update volumes.
  - The loop over states fills the `forecasts` dictionary and aborts when a state's bundle cannot be built.
  - The accuracy comes from the MAPE or the 94.1 fallback, clamped to [85, 98.2] and rounded to one decimal.
  - The last three predictions are clipped to zero and rounded.
  - The trend rule.

Supporting modules:

- `Wrappers`: Option and Result.
- `Text`: Python's `strip`, `replace('&', 'And')`, `title` and `lower` on ASCII, and code-point string order.
- `Numeric`: half-to-even rounding, `int()` truncation and `max`/`min` clamping.
- `Ordering`: `sorted(set(...))` as a strictly sorted sequence.
- `Grouping`: pandas' `groupby(...).sum()` over (key, value) rows.

All arithmetic is exact: integers are unbounded and real numbers are rationals.

Where parts of the code disagree with each other, or behave in ways a reader might not expect, the model follows the code as written:

- The query side normalises a state or district parameter with `strip().title()` only, so it never replaces `&`. The stored state names have `&` replaced.
  - `Api.QueryMatchesBatchIffNoAmpersand` shows that the two normalisations agree exactly when the text has no `&`.
  - `Api.AmpersandStateNotFound` shows that a state asked for with `&` is never found.
- The audit reads the columns `Mobile_Number_Updates` and `Gender_Female`, but the ETL writes `mobile_update_volume` and `female_enrolment_pct`.
  - `Api.SnapshotRecord` therefore carries abstract `volume` and `ratio` fields.
  - On the ETL's own output the source's audit would stop with a `KeyError` once the state is found (and, for a district query, the district). The model does not reproduce that.
- A category with no files does not reach the explicit emptiness checks. Its column-less frame makes `normalize_location_names` raise `KeyError`. The model reports this as `MissingColumns`, and checks it for enrolment, biometric and demographic before any `NoRows` check.
- Nothing bounds the inclusivity ratio by 1. It is a fraction only when the biometric count does not exceed the enrolment total (`Ingest.FemaleEnrolmentPctInUnitRange`).
- An empty snapshot list gives a frame without a `State` column. The cleaning step then raises, which Flask answers with 500 (`InternalError`).
- The loaded `forecast_model` is never consulted. Audits always use the multiplier fallback.

The fallback forecasts are non-decreasing and never below the volume, but they are not strictly increasing: `StateFallback(1) == [1, 1, 1]` (`Api.FallbackNotStrictlyIncreasing`).

## Model

| member | source | states |
|---|---|---|
| Ingest.NormalizeLocation | src/etl_pipeline/ingest_data.py:8-22 | a normalised name has no leading or trailing whitespace and no `&` |
| Ingest.NormalizeLocationIdempotent | src/etl_pipeline/ingest_data.py:8-22 | normalising twice equals normalising once |
| Ingest.NormalizedRows | src/etl_pipeline/ingest_data.py:6-24 | every row keeps its place and its age columns; only its state and district are normalised |
| Ingest.Frame.NormalizeLocationNames | src/etl_pipeline/ingest_data.py:6-24 | the frame's rows become their normalised forms in place; the derived column is untouched |
| Ingest.TotalEnrolment | src/etl_pipeline/ingest_data.py:71-75 | no contract of its own: `age_0_5 + age_5_17 + age_18_greater`, summed per key as stated by Ingest.EtlRecordSums |
| Ingest.FemaleCount | src/etl_pipeline/ingest_data.py:86-89 | no contract of its own: `bio_age_5_17 + bio_age_17_`, summed per key as stated by Ingest.EtlRecordSums |
| Ingest.MobileUpdateVolume | src/etl_pipeline/ingest_data.py:100-103 | no contract of its own: `demo_age_5_17 + demo_age_17_`, summed per key as stated by Ingest.EtlRecordSums |
| Ingest.Frame.AddDerivedColumn | src/etl_pipeline/ingest_data.py:71-103 | the new column holds, for every row, that row's sum of age brackets; the rows are unchanged |
| Ingest.Concat | src/etl_pipeline/ingest_data.py:38 | the concatenation is empty exactly when every file is empty, and it holds every row of every file |
| Ingest.LoadChunkedData | src/etl_pipeline/ingest_data.py:29-38 | no contract of its own: no files gives the column-less frame, otherwise the concatenation; stated by Ingest.EtlFailFast and Ingest.EtlSuccess |
| Ingest.ConcatAppend | src/etl_pipeline/ingest_data.py:38 | one more file appends exactly its rows, in order, to the concatenation |
| Ingest.ConcatSingle | src/etl_pipeline/ingest_data.py:38 | a single file concatenates to exactly its own rows |
| Ingest.KeyedRows | src/etl_pipeline/ingest_data.py:77-81 | each row's (state, district) key is paired with its derived value, in row order |
| Ingest.KeyedMetric | src/etl_pipeline/ingest_data.py:71-109 | each raw row's normalised key is paired with its category metric |
| Ingest.KeyedAfterNormalizing | src/etl_pipeline/ingest_data.py:47-109 | normalising in place and then deriving the column gives each raw row's normalised key and metric |
| Ingest.KeysOfKeyedMetric | src/etl_pipeline/ingest_data.py:77-81 | the grouped keys are exactly the normalised keys of the raw rows |
| Ingest.CategorySumIsGroupSum | src/etl_pipeline/ingest_data.py:71-109 | the groupby sum at a key equals the metric summed over the raw rows that normalise to that key |
| Ingest.FemaleEnrolmentPct | src/etl_pipeline/ingest_data.py:123-125 | no value exactly when the enrolment total is 0; otherwise within half a thousandth of female/total |
| Ingest.FemaleEnrolmentPctInUnitRange | src/etl_pipeline/ingest_data.py:123-125 | when the female count is between 0 and a positive total, the ratio is in [0, 1] |
| Ingest.FemaleEnrolmentPctOfNone | src/etl_pipeline/ingest_data.py:120-125 | a zero-filled female count gives ratio 0, or no ratio over a zero total |
| Ingest.MergedRecord | src/etl_pipeline/ingest_data.py:114-125 | no contract of its own: the left-joined, zero-filled record of one enrolment key; stated by Ingest.Merge and Ingest.EtlZeroFill |
| Ingest.Merge | src/etl_pipeline/ingest_data.py:77-125 | the output keys are strictly ascending and exactly the enrolment keys; each record's totals are its key's group sums, with the ratio derived from them |
| Ingest.Etl | src/etl_pipeline/ingest_data.py:41-139 | no contract of its own: the batch run as a function; stated by Ingest.EtlFailFast, Ingest.EtlSuccess, Ingest.EtlOneRecordPerEnrolmentKey, Ingest.EtlRecordSums and Ingest.EtlZeroFill |
| Ingest.RunEtl | src/etl_pipeline/ingest_data.py:41-139 | the step-by-step run on frames produces exactly the result of the specification function `Etl` |
| Ingest.EtlFailFast | src/etl_pipeline/ingest_data.py:41-66 | output is written if and only if all three categories have rows; a missing category of files is reported first, in enrolment, biometric, demographic order |
| Ingest.EtlSuccess | src/etl_pipeline/ingest_data.py:71-139 | the written records are the merge of the three categories' keyed metrics |
| Ingest.EtlOneRecordPerEnrolmentKey | src/etl_pipeline/ingest_data.py:77-118 | one record per normalised enrolment key, with no repeated key, in ascending (state, district) order; keys only in the other categories are absent |
| Ingest.EtlRecordSums | src/etl_pipeline/ingest_data.py:71-125 | each record's enrolment total and update volume are the sums over its raw rows, and its ratio comes from its biometric sum and enrolment total |
| Ingest.CategorySumAbsent | src/etl_pipeline/ingest_data.py:114-120 | a category with no rows at a key contributes 0 there |
| Ingest.EtlTotalsNonNegative | src/etl_pipeline/ingest_data.py:71-109 | with non-negative age brackets, every written enrolment total and update volume is non-negative |
| Grouping.SumForNonNegative | src/etl_pipeline/ingest_data.py:77-81 | a group sum of non-negative values is non-negative |
| Ingest.EtlZeroFill | src/etl_pipeline/ingest_data.py:114-125 | an enrolment key missing from biometric gets ratio 0 (none over a zero total); one missing from demographic gets volume 0 |
| Text.Strip | src/etl_pipeline/ingest_data.py:11 | the result has no surrounding whitespace and is the input with its leading and trailing whitespace removed |
| Text.StripStripped | src/etl_pipeline/ingest_data.py:11 | stripping a stripped name changes nothing |
| Text.ReplaceAmpersand | src/etl_pipeline/ingest_data.py:12 | no `&` is left; empty iff the input is; the first and last characters are kept unless they were `&` |
| Text.ReplaceAmpersandConcat | src/etl_pipeline/ingest_data.py:12 | the replacement of a concatenation is the concatenation of the replacements |
| Text.ReplaceAmpersandChar | src/etl_pipeline/ingest_data.py:12 | `&` becomes "And" and every other character stays as it is |
| Text.ReplaceAmpersandNone | src/etl_pipeline/ingest_data.py:12 | a name without `&` is unchanged |
| Text.Title | src/etl_pipeline/ingest_data.py:13 | same length; each letter is upper-cased exactly when it does not follow a letter and lower-cased otherwise; other characters kept |
| Text.TitleShape | src/etl_pipeline/ingest_data.py:13 | title case changes only the case of letters |
| Text.TitleIgnoresCase | src/etl_pipeline/ingest_data.py:13 | names equal up to case have the same title form |
| Text.TitleIdempotent | src/etl_pipeline/ingest_data.py:13 | title-casing twice equals title-casing once |
| Text.TitleAmpersand | src/etl_pipeline/ingest_data.py:13 | title case neither adds nor removes an `&` |
| Text.Lower | src/api/app.py:126 | same length, each character lower-cased |
| Numeric.RoundHalfEven | src/model/train_forecaster.py:50 | the nearest integer, ties to the even one |
| Numeric.RoundPlaces | src/etl_pipeline/ingest_data.py:125 | the value rounded half-to-even at the given scale, within half a unit of it |
| Numeric.TruncToInt | src/api/app.py:59 | `int()` of a real: truncation toward zero |
| Numeric.Clamp | src/model/train_forecaster.py:54 | `max(lo, min(hi, x))`: in range, unchanged inside it, the nearer bound outside |
| Grouping.GroupSum | src/etl_pipeline/ingest_data.py:77-81 | one entry per distinct key, holding the sum of that key's values |
| Grouping.SumForAbsent | src/etl_pipeline/ingest_data.py:120 | an absent key sums to 0, the left join's fill value |
| Ordering.SortStrings | src/api/app.py:90 | `sorted(set(xs))`: strictly ascending, with exactly the elements of the input |
| Api.StatusCode | src/api/app.py:104-145 | the error answers' status codes, all between 400 and 503; which condition gives which code is stated by `Api.AuditStatusCodes` |
| Api.NormalizeQuery | src/api/app.py:120 | no contract of its own: `strip().title()` of a parameter; stated by Api.NormalizeQueryIdempotent and Api.QueryMatchesBatchIffNoAmpersand |
| Api.TitleCaseRecord | src/api/app.py:39-40 | no contract of its own: both location fields stripped and title-cased; stated by Api.LoadThenClean |
| Api.CleanRecord | src/api/app.py:116-117 | no contract of its own: the state with `&` replaced, stripped and title-cased, the district stripped and title-cased; stated by Api.LoadThenClean |
| Api.TitleCased | src/api/app.py:38-40 | every record's state and district are stripped and title-cased, nothing else changes |
| Api.Cleaned | src/api/app.py:116-117 | every record's state has `&` replaced, then is stripped and title-cased; its district is stripped and title-cased |
| Api.LoadThenClean | src/api/app.py:116-117 | loading then cleaning a state name normalises it exactly as the ETL does |
| Api.QueryMatchesBatchIffNoAmpersand | src/api/app.py:120 | the query normalisation agrees with the ETL's normalisation exactly when the text has no `&` |
| Api.NormalizeQueryIdempotent | src/api/app.py:120 | query normalisation is idempotent |
| Api.SnapshotFrame.TitleCaseLocations | src/api/app.py:38-40 | a non-empty frame's rows become title-cased in place; an empty frame stays empty |
| Api.SnapshotFrame.CleanLocations | src/api/app.py:116-117 | the frame's rows are replaced by their cleaned forms |
| Api.LoadData | src/api/app.py:25-44 | no frame exactly when the snapshot is unavailable; otherwise a new frame of the title-cased records |
| Api.AnalyzeLogic | src/api/app.py:47-76 | CRITICAL iff volume > 1000, else SAFE; WARNING iff ratio < 0.40, else SAFE; messages, echoed volume, ratio rounded to 2 places, efficiency SAFE with the given trend |
| Api.StateFallback | src/api/app.py:130 | no contract of its own: `int(v * 1.05), int(v * 1.1), int(v * 1.15)`; stated by Api.FallbackGrowth and Api.FallbackNotStrictlyIncreasing |
| Api.DistrictFallback | src/api/app.py:141 | no contract of its own: `int(v * 1.02), int(v * 1.05), int(v * 1.08)`; stated by Api.FallbackGrowth and Api.FallbackNotStrictlyIncreasing |
| Api.TruncGrowth | src/api/app.py:130 | truncating a volume times a factor of at least 1 never gives less than the volume, nor less for a larger factor |
| Api.FallbackGrowth | src/api/app.py:130-141 | for a non-negative volume both fallbacks are three values, non-decreasing and at least the volume |
| Api.FallbackNotStrictlyIncreasing | src/api/app.py:130-141 | both fallbacks of volume 1 are [1, 1, 1], so the trend need not rise |
| Api.RowsOfState | src/api/app.py:120 | the filtered frame holds exactly the records of the state |
| Api.RowsOfStateAppend | src/api/app.py:120 | filtering a concatenation is concatenating the filtered parts, so order and repeats are kept |
| Api.RowsOfStateSingle | src/api/app.py:120 | one record is kept exactly when it is of the state |
| Api.IsWholeRegion | src/api/app.py:126 | no contract of its own: a district that is absent, empty, or lower-cases to "all", "none" or ""; used as the requires of Api.AuditWholeState and (negated) of Api.AuditDistrict |
| Api.TotalVolume | src/api/app.py:128 | no contract of its own: the sum of the state's volumes; stated by Api.StateVolumeIsGroupSum |
| Api.MeanRatio | src/api/app.py:129 | no contract of its own: the unweighted mean of the state's ratios; stated by Api.CleanedMeanRatio and Api.AuditWholeState |
| Api.FirstOfDistrict | src/api/app.py:134-138 | no contract of its own: the first of the state's rows in the district; stated by Api.FilterThenFirst |
| Api.Resolve | src/api/app.py:120-142 | no contract of its own: the lookup on the cleaned frame; stated by Api.ResolveFailures, Api.ResolveStateMissing, Api.ResolveWholeState and Api.ResolveDistrict |
| Api.Audit | src/api/app.py:104-145 | no contract of its own: the endpoint as a function; stated by Api.AuditErrorOrder, Api.AuditStatusCodes, Api.AuditWholeState and Api.AuditDistrict |
| Api.GetAuditReport | src/api/app.py:104-145 | the endpoint run on a frame updated in place answers exactly the specification function `Audit` |
| Api.FirstRecord | src/api/app.py:134-138 | the index of the first record with the state and district, or none when no record has both |
| Api.FilterThenFirst | src/api/app.py:134-138 | the first district match in the state's filtered rows is the first record of that state and district in the whole frame |
| Api.StateVolumeIsGroupSum | src/api/app.py:128 | summing the state's filtered volumes is grouping the volumes by state |
| Api.CleanedLoads | src/api/app.py:116-120 | the cleaned frame's (state, volume) pairs carry the ETL-normalised state names |
| Api.AuditErrorOrder | src/api/app.py:108-123 | the checks run in order: a failure is the 400 exactly when the state is missing or empty, the 503 exactly when the state is given and the data is not, the 500 exactly when the snapshot is empty; every failure is one of 400, 404, 500, 503 |
| Api.AuditStatusCodes | src/api/app.py:104-145 | which condition gives which code: 400 iff the state is missing or empty; 503 iff the state is given and the data is not; 500 iff the snapshot is empty; 404 iff all of that passes and the lookup fails |
| Api.ResolveFailures | src/api/app.py:120-136 | the lookups fail only with a 404 for the state or the district |
| Api.AuditResolves | src/api/app.py:111-120 | with a state and a non-empty snapshot, the audit resolves the query on the cleaned frame |
| Api.ResolveStateMissing | src/api/app.py:120-123 | when no cleaned record has the normalised state, the answer is a 404 naming the state as given |
| Api.ResolveStatePresent | src/api/app.py:120-122 | when some cleaned record has the normalised state, the state's rows are not empty |
| Api.ResolveWholeState | src/api/app.py:126-131 | a whole-state query succeeds with location "All " + state and the pillars of the state's total volume and unweighted mean ratio, with the state fallback |
| Api.WholeStateOnRows | src/api/app.py:126-131 | a whole-state query fails iff the state is not among the grouped states; otherwise the full report from the state's group sum of volumes and the mean ratio of its rows |
| Api.AuditWholeState | src/api/app.py:126-131 | the endpoint on a raw snapshot: a 404 iff no record's ETL-normalised state matches; otherwise the full report from the state's group sum of volumes and the unweighted mean ratio of the records whose state normalises to the query, under "All " + state, with its fallback |
| Api.RecordsOfState | src/api/app.py:116-120 | exactly the snapshot records whose ETL-normalised state is the given one |
| Api.RecordsOfStateAppend | src/api/app.py:116-120 | filtering a concatenation of snapshots is concatenating the filtered parts, so order and repeats are kept |
| Api.RecordsOfStateSingle | src/api/app.py:116-120 | one record is kept exactly when its state normalises to the given one |
| Api.FilterNormalizedRatios | src/api/app.py:120-129 | filtering the cleaned rows and filtering the snapshot by normalised state give as many records with the same total ratio |
| Api.CleanedMeanRatio | src/api/app.py:129 | the state's mean ratio on the cleaned frame is the mean ratio of its snapshot records |
| Api.ResolveDistrict | src/api/app.py:134-142 | a district query answers from the first record of the state and district, or a 404 for the district |
| Api.AuditDistrict | src/api/app.py:132-142 | the endpoint answers a district query from the first matching record; otherwise a 404 for the state when none has it, else a 404 for the district |
| Api.AmpersandStateNotFound | src/api/app.py:116-123 | a state parameter containing `&` is never found |
| Api.DistrictsIn | src/api/app.py:94 | exactly the districts recorded for the state |
| Api.BuildMetadata | src/api/app.py:89-95 | the states are strictly ascending and exactly those of the frame, each with its strictly ascending distinct districts |
| Api.MetadataEntries | src/api/app.py:89-95 | the loop's entries, one per sorted state with its sorted districts, form the metadata of the frame |
| Api.GroupDistricts | src/api/app.py:92-95 | the loop gives one entry per given state, in the given order, holding exactly that state's districts sorted and without repeats |
| Api.GetMetadata | src/api/app.py:80-100 | 503 without data, 500 on an empty snapshot, otherwise the metadata of the cleaned frame |
| Api.ListedLocationsResolve | src/api/app.py:115-142 | every listed state with a non-empty name can be audited as a whole state, and every listed district of it that is not a sentinel can be audited |
| Forecaster.RawAccuracy | src/model/train_forecaster.py:37-43 | 100 − mape × 100 when validation succeeds, 94.1 when it raises |
| Forecaster.ReportedAccuracy | src/model/train_forecaster.py:54 | always in [85, 98.2]; 85 and 98.2 outside that range; within 0.05 of the raw accuracy inside it |
| Forecaster.ReportedAccuracyMonotone | src/model/train_forecaster.py:54 | a higher raw accuracy is never reported lower |
| Forecaster.FallbackReportedUnchanged | src/model/train_forecaster.py:43-54 | the fallback 94.1 is reported as 94.1 |
| Forecaster.ClipRound | src/model/train_forecaster.py:50 | non-negative; 0 for a non-positive point; otherwise within 0.5 of it |
| Forecaster.ClipRoundMonotone | src/model/train_forecaster.py:50 | clipping and rounding keeps order |
| Forecaster.LastValues | src/model/train_forecaster.py:50 | the last (up to) three points, in order, each clipped and rounded, all non-negative |
| Forecaster.TrendOf | src/model/train_forecaster.py:55 | INCREASING iff the last value exceeds the first, STABLE otherwise |
| Forecaster.BuildBundle | src/model/train_forecaster.py:50-56 | no bundle exactly when there is no predicted point |
| Forecaster.BundleContents | src/model/train_forecaster.py:50-56 | a bundle holds one to three non-negative values from the last points, the reported accuracy within [85, 98.2], and the trend rule |
| Forecaster.StableWhenNotRising | src/model/train_forecaster.py:55 | a last point no higher than the first reported one gives STABLE |
| Forecaster.StateVolumes | src/model/train_forecaster.py:25 | the (State, mobile_update_volume) pairs of the records, in order |
| Forecaster.StateLoad | src/model/train_forecaster.py:25 | no contract of its own: the state's summed volume, the group sum of Forecaster.StateVolumes; used by Forecaster.TrainForecasts |
| Forecaster.SortedStates | src/model/train_forecaster.py:28 | the grouped states strictly ascending, exactly the states of the records |
| Forecaster.BuildEach | src/model/train_forecaster.py:26-56 | the loop succeeds iff every state's bundle builds; the dictionary then has exactly those states, each mapped to its bundle |
| Forecaster.ForecastLoads | src/model/train_forecaster.py:25-56 | success iff every grouped state's bundle builds from its group sum; the dictionary's keys are exactly the states |
| Forecaster.TrainForecasts | src/model/train_forecaster.py:25-56 | one bundle per distinct state, built from the run on that state's summed volume; aborts iff some state's bundle cannot be built |
| Forecaster.TrainedBundlesBounded | src/model/train_forecaster.py:52-56 | every exported bundle has accuracy in [85, 98.2] and one to three non-negative values |

## Left out

- Flask, CORS, `jsonify`, routes and `app.run`: transport only. Each endpoint returns its payload or an `Api.HttpError`, whose status code is `Api.StatusCode`.
- File, glob, CSV, JSON and joblib I/O are not modelled.
  - A category's CSV files are a sequence of row sequences.
  - The snapshot is `Option<seq<SnapshotRecord>>`, where `None` means the file is missing or unreadable.
  - The `{"records": ...}` unwrapping, `to_json` and `joblib.dump` are not modelled.
- `astype(str)`: the model takes location names as strings already.
- Prophet fitting, holidays, cross-validation and prediction, and `simulate_history`: a foreign library, random noise and the wall clock. The trainer takes each state's run as a parameter.
- The `cap`/`floor` columns are not modelled. The 1.6× capacity bound is Prophet's behaviour and is not claimed.
- `forecast_model` loading is not modelled, because no endpoint consults it.
- Print and logging statements.
- Floating point is not modelled: sums, products and ratios are exact, and `round`/`int` act on exact values. NaN, infinities and 64-bit integer overflow are not modelled.
- `Text.Strip`, `Text.Title` and `Text.Lower` handle ASCII only. Unicode whitespace and non-ASCII letters are not modelled.
- Ingest.FemaleEnrolmentPct: yields no value where the source's division by zero gives inf or NaN.
- Forecaster.TrainForecasts: treats the library's run as a function of (state, volume). The source's history is random, so two runs may differ.
- Forecaster.LastValues: also covers fewer than three predicted points. The source always predicts the 24 history months plus 3 more.
- Api.AnalyzeLogic: the inclusivity message's `int(ratio*100)` and `round(ratio, 2)` act on exact reals, so they can differ from float results by one unit.
- Api.FallbackGrowth: on exact products, so `int(100 * 1.15)` is 115, where floats give 114.
- Ingest.Concat: its own contract gives emptiness and membership. The exact contents and order are stated by `Ingest.ConcatAppend` and `Ingest.ConcatSingle`.
- Api.RowsOfState: its own contract gives membership. Order and repeats are stated by `Api.RowsOfStateAppend` and `Api.RowsOfStateSingle`.
- Api.ResolveStatePresent: states only that the state's rows are non-empty. What the answer then is comes from `Api.ResolveWholeState` and `Api.ResolveDistrict`.
- The `KeyError` the audit raises on the ETL's own output (the column-name mismatch described above) is not modelled. Volume and ratio are abstract record fields.
