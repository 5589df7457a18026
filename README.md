# PLV hitter dashboards: the statistics engine

Two Streamlit dashboards, `PLV_Hitter_Metrics_test.py` (the hitter test app,
Plus scale) and `PLV_Batter_Metrics.py` (the batter app, 20-80 scale), turn a
season of per-pitch PLV records into a season table per hitter and a rolling
chart for one hitter. This project models the arithmetic, grouping and
sequence rules under the widgets and plots, and proves what they promise.
Metric values are exact `real`s. A missing cell (NaN or None) is
`Option.None`. Counts, buckets and thresholds are `int`/`nat`.

Modules, one per component:

- `Numeric` (numeric.dfy): sums and means that skip missing values (pandas'
  `skipna`), the sample variance behind pandas `std()` (ddof = 1),
  half-to-even rounding as done by Python `round` and numpy, and clipping.
- `Pitches` (pitches.dfy): the pitch record, its metric columns, the columns
  the loader derives, and the `'b-s'` count string.
- `Derivation` (derivation.dfy): `load_season_data` after the file reads.
  It covers the location buckets, the context baselines (group means over
  the 7-tuple key pitcher hand, batter hand, pitch type, `kde_x`, `kde_z`,
  balls, strikes) and the `*_oa` columns. It also covers the later `kde_z`
  reassignment, the percent and run-constant scaling, the zone flag with
  the zDV/oDV split, the count string and the game date. The batter app's
  percent scaling is here as well.
- `Season` (season.dfy): the season tables. Rows are grouped by hitter with a
  count and means, filtered by a pitch threshold and sorted by the headline
  (HP / Hit Eff). `z_score_scaler` then rescales them onto the Plus or the
  20-80 scale.
- `Selectors` (selectors.dfy): count groups, pitch-type buckets, hand maps,
  default rolling windows, `stat_list` and `updated_threshold`.
- `Rolling` (rolling.dfy): the rolling series of both apps. It covers
  filtering, `pitch_id` order and `dropna`, and pandas
  `rolling(W, min_periods=m).mean()`, computed by a running-sum loop and
  proved equal to its definition. It also covers the `fixed_window`
  fallback, the per-date thinning, the batter app's 1-based index and both
  "not enough data" guards.

Inputs that come from I/O become parameters. These are the pitch rows, the
season's `run_constant` and the pitch-id to game-date map. The widget
choices (threshold, player, metric, window, count group, pitch type,
handedness, year) are parameters too. pandas' `std()` of a column is a
parameter `sigma`, tied to the column by `sigma >= 0` and
`sigma * sigma == SampleVariance` (no square root is computed).

Two places in the code evidently mean more than they do. The model follows
what is written:

- The Plus rescaling ends in `.fillna(100)` (PLV_Hitter_Metrics_test.py:171),
  so a hitter whose grade cannot be computed was evidently meant to get 100.
  That call comes after `astype('int')`, though, so a NaN grade raises before
  the fallback can apply. The model's `Season.Rescale` returns
  `Failure(CannotCastNaNToInt)` when any rescaled column is degenerate: a
  missing mean, a single hitter, or a zero standard deviation. It never
  substitutes 100. The same holds for the 20-80 cast
  (PLV_Batter_Metrics.py:92).
- Lines 360 and 364 of PLV_Hitter_Metrics_test.py evidently mean to put
  `Rolling_Stat` and each `Rolling_<stat>` on the Plus scale too, as
  `Rolling_Stat+` and `Rolling_<stat>+`. They use `chart_avg` and
  `chart_stdev`, which are never defined, so the model has no Plus-scaled
  rolling columns.

## Model

| member | source | states |
|---|---|---|
| `Numeric.RoundHalfEven` | PLV_Hitter_Metrics_test.py:170 | the result is an integer within 0.5 of x, and on an exact tie it is the even neighbour |
| `Numeric.RoundHalfEvenUnique` | PLV_Hitter_Metrics_test.py:170 | those two properties determine `round`'s result uniquely |
| `Numeric.RoundHalfEvenMonotone` | PLV_Batter_Metrics.py:91 | rounding never reverses an order |
| `Numeric.RoundHalfEvenTies` | PLV_Hitter_Metrics_test.py:283 | 0.5, 1.5, 2.5, -0.5 and -1.5 round to 0, 2, 2, 0 and -2 |
| `Numeric.MeanPresent` | PLV_Hitter_Metrics_test.py:154-164 | pandas `mean()`/`np.nanmean` is missing exactly when every entry is missing; otherwise the mean times the count of present entries is their sum |
| `Numeric.ClipInt` | PLV_Batter_Metrics.py:92 | `np.clip` lands in [lo, hi], keeps values inside it and maps values outside it to the nearer bound |
| `Numeric.SumShift` | PLV_Hitter_Metrics_test.py:104-106 | subtracting m from n values takes n·m off their sum |
| `Pitches.CountStringInjective` | PLV_Hitter_Metrics_test.py:127 | different single-digit counts give different `count` strings |
| `Pitches.Set` | PLV_Hitter_Metrics_test.py:113-114 | overwriting one metric column changes that column and nothing else |
| `Numeric.GridIndex` | PLV_Hitter_Metrics_test.py:81-86 | `round` then `clip` to lo..hi: within 0.5 of y inside the range, and exactly the nearer bound outside it |
| `Derivation.XBucket` | PLV_Hitter_Metrics_test.py:81-83 | `kde_x` lies on the 1/12-foot grid with `kde_x*12` in -20..20; it is within half a grid step of `p_x` inside the clip range, and the nearer bound outside it |
| `Derivation.SzBucket` | PLV_Hitter_Metrics_test.py:84-86 | the baseline `kde_z` lies on the 1/24-foot grid in [-1.5, 1.25]; it is within half a grid step of `sz_z` inside that range, and -1.5 or 1.25 outside it |
| `Derivation.PzBucket` | PLV_Hitter_Metrics_test.py:109-111 | the final `kde_z` lies on the 1/12-foot grid in [0, 4.5]; it is within half a grid step of `p_z` inside that range, and 0 or 4.5 outside it |
| `Derivation.ContextKey` | PLV_Hitter_Metrics_test.py:88-94 | a pitch has a context group exactly when both `p_x` and `sz_z` are present |
| `Derivation.Baseline` | PLV_Hitter_Metrics_test.py:88-101 | a pitch without a context key has no baseline, and a season pitch with a key and a present value always has one (its own value is in its group) |
| `Derivation.OverAverage` | PLV_Hitter_Metrics_test.py:104-106 | `dv_oa`/`pow_oa` are present exactly when the value and the baseline are, and then value = baseline + over-average; for a season pitch with a key, exactly when the value is present |
| `Derivation.OverAverageSumsToZero` | PLV_Hitter_Metrics_test.py:88-106 | within every key group the present `dv_oa` (and `pow_oa`) values sum to 0, because the baseline is the group's own mean |
| `Derivation.GroupOverAverageShift` | PLV_Hitter_Metrics_test.py:104-106 | a group's over-average values are its raw values less the one shared baseline |
| `Derivation.LonePitchOverAverageIsZero` | PLV_Hitter_Metrics_test.py:88-106 | a pitch alone in its key group is its own baseline, so its over-average value is 0 |
| `Derivation.ZoneOf` | PLV_Hitter_Metrics_test.py:120-122 | the zone flag is 0 or 1 |
| `Derivation.ZoneIff` | PLV_Hitter_Metrics_test.py:120-122 | zone is 0 exactly when \|p_x\| > 10/12 or \|sz_z\| > 0.5 for a present coordinate, otherwise 1 |
| `Derivation.RunsPer100` | PLV_Hitter_Metrics_test.py:117-118 | the converted value times the run constant is 100 times the raw value, and a missing value stays missing |
| `Derivation.ScaleColumns` | PLV_Hitter_Metrics_test.py:113-114 | each listed column is multiplied by the factor exactly once; all other columns and fields are unchanged |
| `Derivation.ScaleBatterPercents` | PLV_Batter_Metrics.py:67-69 | `swing_agg`, `contact_over_expected` and `strike_zone_judgement` are multiplied by exactly 100; every other column is unchanged |
| `Derivation.AttachBuckets` | PLV_Hitter_Metrics_test.py:81-86 | each row gets `kde_x`/`kde_z` only where `p_x`/`sz_z` is present, and its key is the pitch's context key |
| `Derivation.AttachBaselines` | PLV_Hitter_Metrics_test.py:88-106 | `base_*` is the pitch's context mean over the season; `dv_oa`/`pow_oa` are value minus baseline; `sa_oa`/`ca_oa` are copies |
| `Derivation.ReassignVerticalBucket` | PLV_Hitter_Metrics_test.py:109-111 | where `sz_z` is present `kde_z` becomes the `p_z` bucket; nothing else changes, baselines included; a missing `p_z` there raises |
| `Derivation.RescaleMetrics` | PLV_Hitter_Metrics_test.py:113-118 | the four percent columns are times 100, decision value and wOBA are in runs per 100, adjusted power and derived columns are kept |
| `Derivation.AttachLabels` | PLV_Hitter_Metrics_test.py:120-129 | zone, the zDV/oDV split of the rescaled decision value, the count string and the looked-up game date |
| `Derivation.LoadSeasonData` | PLV_Hitter_Metrics_test.py:67-131 | it fails exactly when some pitch has `sz_z` but no `p_z`; otherwise every row holds what `Loaded` says, with baselines from the `sz_z` key and unscaled values |
| `Derivation.ZoneSplit` | PLV_Hitter_Metrics_test.py:124-125 | a present decision value lands in exactly one of `decision_value_z`/`decision_value_o`, matching the zone, and the other is missing |
| `Season.Names` | PLV_Hitter_Metrics_test.py:152 | the groups are the hitters that occur, each once |
| `Season.PlayerRows` | PLV_Hitter_Metrics_test.py:152 | a group holds exactly that hitter's rows, each as often as in the data, and is empty exactly when the hitter never occurs |
| `Season.Summarise` | PLV_Hitter_Metrics_test.py:152-164 | one aggregated row per hitter: `Pitches` is the size of the hitter's group, and each requested column holds the skip-NaN mean of that column over the group |
| `Season.AggregateNames` | PLV_Hitter_Metrics_test.py:152-165 | a row is kept exactly when its hitter is listed, it is that hitter's aggregate, and `Pitches >= threshold` |
| `Season.SortByHeadline` | PLV_Hitter_Metrics_test.py:166 | the result is a permutation of the input, ordered by the headline descending with missing values last |
| `Season.SeasonTable` | PLV_Hitter_Metrics_test.py:145-167 | the table is a permutation of the thresholded aggregates, in headline order |
| `Season.SeasonTableContents` | PLV_Hitter_Metrics_test.py:145-167 | a hitter appears exactly when they faced at least `pitch_thresh` pitches, with their own count and means, and rows are in HP order |
| `Season.SeasonTableNamesDistinct` | PLV_Hitter_Metrics_test.py:152 | no hitter is listed twice |
| `Season.ThresholdMonotone` | PLV_Hitter_Metrics_test.py:165 | raising the threshold yields a subset, and the rows dropped are exactly those with fewer pitches than the higher threshold |
| `Season.ZScores` | PLV_Hitter_Metrics_test.py:53-54 | entry i is the value less the column mean, divided by sigma |
| `Season.ZScoresSumToZero` | PLV_Batter_Metrics.py:48-49 | the z-scores of a scalable column sum to 0 |
| `Season.ZScoresOrder` | PLV_Hitter_Metrics_test.py:53-54 | for sigma > 0, z-scoring preserves order in both directions |
| `Season.PlusScore` | PLV_Hitter_Metrics_test.py:170 | the Plus grade is within 0.5 of z·15 + 100, and on an exact tie it is the even neighbour, so the grade is `round(z·15 + 100)` |
| `Season.ScoutScore` | PLV_Batter_Metrics.py:90-92 | the 20-80 grade is a multiple of 5 in [20, 80]; it is 80 exactly when z ≥ 2.75 and 20 exactly when z ≤ -2.75; strictly inside the range it is within 2.5 of 50 + 10·z, an exact tie taking the even multiple of 5 |
| `Season.ScoreMonotone` | PLV_Batter_Metrics.py:90-92 | on either scale a higher z-score never gets a lower grade |
| `Season.ScoreLandmarks` | PLV_Hitter_Metrics_test.py:169-171 | z = 0, 1 and -1 give 100, 115 and 85 on the Plus scale, and 50, 60 and 40 on the 20-80 scale; the Plus tie 100.5 gives 100 and z = 1.2 grades 60 |
| `Season.ScaledColumn` | PLV_Batter_Metrics.py:90-92 | each row's grade is `Graded` for that row's z-score, that is, it satisfies the `PlusScore` or `ScoutScore` clauses for that row's z-score: within 0.5 of 100 + 15·z with ties to even, or a multiple of 5 in [20, 80] that is 80 exactly when z ≥ 2.75, 20 exactly when z ≤ -2.75, and otherwise the nearest multiple of 5 to 50 + 10·z |
| `Season.ScaledColumnMonotone` | PLV_Hitter_Metrics_test.py:169-171 | a hitter with a higher raw value never gets a lower grade |
| `Season.Rescale` | PLV_Hitter_Metrics_test.py:169-171 | it fails exactly when some listed column is degenerate (the `astype('int')` of a NaN); otherwise listed columns hold their grades and everything else is kept |
| `Season.RescaleRows` | PLV_Batter_Metrics.py:90-92 | the column loop: same result as `Rescale` on a non-empty table |
| `Season.RescaleKeepsOrder` | PLV_Hitter_Metrics_test.py:166-171 | regrading the headline column keeps the table in headline order |
| `Season.HitterSeason` | PLV_Hitter_Metrics_test.py:145-171 | the hitter table: threshold filter, seven Plus columns, fails exactly on a degenerate column, and HP stays non-increasing |
| `Season.BatterSeason` | PLV_Batter_Metrics.py:71-92 | the batter table: hitters with at least 400 pitches, five 20-80 columns, fails exactly on a degenerate column, and Hit Eff stays non-increasing |
| `Selectors.SelectedCounts` | PLV_Hitter_Metrics_test.py:266-281 | every group is a duplicate-free list of the twelve counts |
| `Selectors.AllCountsAreCounts` | PLV_Hitter_Metrics_test.py:267 | the twelve counts are exactly `'b-s'` with b in 0..3 and s in 0..2 |
| `Selectors.CountGroupRules` | PLV_Hitter_Metrics_test.py:266-281 | Pitcher-Friendly is exactly strikes > balls, Even exactly balls = strikes, 2-Strike exactly strikes = 2, 3-Ball exactly balls = 3; Hitter-Friendly is balls > strikes except 3-2; All holds every count |
| `Selectors.PitchTypeSelect` | PLV_Hitter_Metrics_test.py:235-238 | 'All' gives the four buckets; any other choice gives one name, which for a choice other than 'Offspeed' is the choice less its last letter |
| `Selectors.PitchTypeOptions` | PLV_Hitter_Metrics_test.py:230-238 | 'Fastballs', 'Breaking Balls' and 'Offspeed' select 'Fastball', 'Breaking Ball' and 'Offspeed', and every option selects existing buckets |
| `Selectors.HandMap` | PLV_Hitter_Metrics_test.py:296-300 | 'Left' admits only L, 'Right' only R, and 'All' both |
| `Selectors.UniqueBatHands` | PLV_Hitter_Metrics_test.py:294 | the distinct hands the player batted from, each once |
| `Selectors.HitterHands` | PLV_Hitter_Metrics_test.py:291-294 | both hands for 'All', otherwise exactly the hands the player batted from |
| `Selectors.RollingThreshold` | PLV_Hitter_Metrics_test.py:250-258 | every default window is a multiple of 5 and at least 75 |
| `Selectors.StatList` | PLV_Hitter_Metrics_test.py:302-306 | `stat_list` is duplicate-free, holds the big three and the chosen metric, and nothing else |
| `Selectors.FiveMultiple` | PLV_Hitter_Metrics_test.py:283 | `round(x/5)*5` is a multiple of 5 within 2.5 of x, and on an exact tie the one whose quotient by 5 is even |
| `Selectors.UpdatedThreshold` | PLV_Hitter_Metrics_test.py:283 | the pitch minimum is `FiveMultiple(window × selected / 12)`, divided by 3 and truncated in 2023; outside 2023 it is a multiple of 5 within 2.5 of window × selected / 12 |
| `Selectors.UpdatedThresholdMonotone` | PLV_Hitter_Metrics_test.py:283 | `updated_threshold` is non-decreasing in the number of selected counts |
| `Selectors.UpdatedThresholdAllCounts` | PLV_Hitter_Metrics_test.py:283 | with all twelve counts it is `rolling_threshold[metric]` outside 2023, and a third of it (truncated) in 2023 |
| `Selectors.UpdatedThresholdExamples` | PLV_Hitter_Metrics_test.py:283 | 400 and 12 counts give 400; 75 and 2 counts give 10 (the tie 2.5 rounds to 2); in 2023, 800 and 3 counts give 66, and 400 and 3 counts give 33 |
| `Rolling.Filter` | PLV_Hitter_Metrics_test.py:335-338 | a row mask keeps exactly the accepted rows, with their multiplicities |
| `Rolling.FilterConcat` | PLV_Hitter_Metrics_test.py:335-338 | the mask keeps rows in their order: filtering a concatenation concatenates the filtered parts |
| `Rolling.SortByPitch` | PLV_Hitter_Metrics_test.py:334 | `sort_values('pitch_id')` gives a permutation in non-decreasing pitch-id order |
| `Rolling.RollingMean` | PLV_Hitter_Metrics_test.py:357-359 | entry i is missing exactly when i+1 < min_periods, and otherwise is the mean of `values[max(0, i-W+1)..i]` |
| `Rolling.SlidingMean` | PLV_Batter_Metrics.py:161 | the one-pass running-sum computation equals `RollingMean` |
| `Rolling.FullWindowsAgree` | PLV_Hitter_Metrics_test.py:357-359 | entries with i ≥ W-1 do not depend on min_periods |
| `Rolling.RollingMeanBounds` | PLV_Hitter_Metrics_test.py:357 | every rolling mean lies between the smallest and the largest value of the series |
| `Rolling.MaxPresent` | PLV_Hitter_Metrics_test.py:358 | pandas `max()` is a present entry at least every present entry, and missing exactly when all are |
| `Rolling.MinPresent` | PLV_Hitter_Metrics_test.py:358 | pandas `min()` is a present entry at most every present entry, and missing exactly when all are |
| `Rolling.FallbackWindow` | PLV_Hitter_Metrics_test.py:358 | `fixed_window` is either W or `int(2W/3)`; it is W when the series mean lies strictly between the smallest and largest full-window mean, and (for W > 0) only then |
| `Rolling.FixedWindow` | PLV_Hitter_Metrics_test.py:357-358 | `fixed_window` of a series is either W or `int(2W/3)` |
| `Rolling.FixedWindowKeepsWindow` | PLV_Hitter_Metrics_test.py:358 | `fixed_window` is W exactly when the series is non-empty and some full window's mean lies above the series mean and another's below it |
| `Rolling.ShortSeriesFallsBack` | PLV_Hitter_Metrics_test.py:357-358 | a series shorter than W always falls back to `int(2W/3)` |
| `Rolling.RollingStat` | PLV_Hitter_Metrics_test.py:357-359 | `Rolling_Stat` is missing exactly before the `fixed_window`-th value, every present entry is the mean of the last W values up to it, and from index W-1 on it equals the full-window series |
| `Rolling.HitterRows` | PLV_Hitter_Metrics_test.py:333-340 | the kept rows are exactly the selected player, hand, count and bucket rows with a date and every listed metric, in pitch-id order |
| `Rolling.HitterFrame` | PLV_Hitter_Metrics_test.py:333-344 | `rolling_df` has one row per kept pitch, numbered from 0 by `pitches_faced`, with its date and `stat_list` values and no rolling column yet |
| `Rolling.AddRollingColumns` | PLV_Hitter_Metrics_test.py:357-363 | `Rolling_Stat` holds the fallback-window series, and each `Rolling_<stat>` of the big three holds its own default-window mean |
| `Rolling.LastOnDate` | PLV_Hitter_Metrics_test.py:379 | the largest `pitches_faced` of a date, attained by a row of that date |
| `Rolling.Thin` | PLV_Hitter_Metrics_test.py:379 | the kept rows come from the frame, and each is its date's largest `pitches_faced` |
| `Rolling.ThinOnePerDate` | PLV_Hitter_Metrics_test.py:379 | thinning keeps exactly one row per game date, the one with the largest `pitches_faced` |
| `Rolling.ThinnedPoints` | PLV_Hitter_Metrics_test.py:357-379 | each thinned point is its date's last pitch and carries the `Rolling_Stat` value ending at that pitch |
| `Rolling.HitterGuardAsWritten` | PLV_Hitter_Metrics_test.py:507-510 | the chart is drawn exactly when `window <= season_sample`, and the refusal reports the thinned row count |
| `Rolling.HitterGuard` | PLV_Hitter_Metrics_test.py:507-510 | the chart is drawn exactly when `window <= season_sample`, and the refusal reports that sample, which is smaller than the window |
| `Rolling.HitterGuardReportsThinnedCount` | PLV_Hitter_Metrics_test.py:379-508 | two pitches on one date with window 3: the message as written reports 1 instead of 2 |
| `Rolling.HitterRollingChart` | PLV_Hitter_Metrics_test.py:333-510 | the guard compares the window with the unthinned sample and, as corrected in "## Findings", reports that sample; the points are one per date, each the date's last pitch with its rolling mean |
| `Rolling.BatterRows` | PLV_Batter_Metrics.py:144-150 | the series holds exactly the player's rows with the metric present, in pitch-id order |
| `Rolling.BatterSeries` | PLV_Batter_Metrics.py:144-152 | entry i has 0-based `index` i and the metric value of the i-th kept row |
| `Rolling.AddBatterRolling` | PLV_Batter_Metrics.py:161 | `Rolling_Stat` is the default-min-periods rolling mean; the other columns are kept |
| `Rolling.ShiftIndex` | PLV_Batter_Metrics.py:164 | every `index` is increased by exactly 1 and nothing else changes |
| `Rolling.DefaultMinPeriods` | PLV_Batter_Metrics.py:161 | with min_periods = W, entry i is present exactly when i ≥ W-1, and then W times it is the sum of `values[i-W+1..i]` |
| `Rolling.BatterGuard` | PLV_Batter_Metrics.py:208-211 | the chart is drawn exactly when `window <= rolling_df.shape[0]`; otherwise the message reports that count |
| `Rolling.BatterRollingChart` | PLV_Batter_Metrics.py:107-211 | for one of the five metrics the batter dashboard offers, the chart is drawn exactly when the guard passes, and then the points are the series in pitch-id order, numbered 1..n, each with its rolling mean |

## Left out

- Streamlit widgets, layout, text and dataframe styling, and every
  matplotlib/seaborn chart with its axis limits, labels and colours: these
  are presentation. The model returns the data the charts draw.
- The remote parquet/CSV reads and `pd.concat` over month files. Also left
  out: the `plv_seasonal_constants` and pitch-id to date fetches, and the
  `@st.cache_data` cache. Their results are parameters (`raw`,
  `runConstant`, `dates`).
- weighted_offense.py is not part of this model. It only fetches a table and
  maps tiers to colours for display.
- Percentile bands (`quantile`), the `stat_vals` table and
  `chart_thresh_list`, which only feeds those two. `updated_threshold`
  itself is modelled.
- The Plus rescaling of the rolling series (PLV_Hitter_Metrics_test.py:327,
  360-364): as written it reads undefined names and cannot run.
- The hitter app stops before its rolling section: line 327 reads
  `rolling_df`, which is first assigned at line 333, so the script raises a
  `NameError` there. `Rolling.HitterRows`, `Rolling.HitterFrame`,
  `Rolling.FixedWindow`, `Rolling.AddRollingColumns`, `Rolling.Thin`,
  `Rolling.ThinnedPoints`, `Rolling.HitterGuardAsWritten` and
  `Rolling.HitterRollingChart` model lines 333-510 as they would run once
  line 327 and lines 360 and 364 are repaired. `Rolling.HitterRollingChart`
  also takes the repaired line 508: its refusal reports `season_sample`
  (`Rolling.HitterGuard`), not the thinned `rolling_df.shape[0]` the script
  prints (`Rolling.HitterGuardAsWritten`); see "## Findings".
- Pitcher hand, batter hand and pitch type are never missing in the model.
  pandas' `groupby` (PLV_Hitter_Metrics_test.py:88-101) drops rows whose key
  holds a NaN, so such a pitch would have no `base_*`, `dv_oa` or `pow_oa`.
  A NaN pitcher hand is also rejected by the `isin` mask of the rolling
  chart (lines 333-338). A NaN batter hand or detailed pitch type is not:
  that mask does not test `b_hand` (only `chart_thresh_list` does, at line
  312) or `pitchtype`, and the season table groups by name alone (line
  152). Such a pitch would still reach the rolling chart and the season
  table, and would lose only the over-average columns, which feed neither.
- The widget bounds and defaults: `max_pitches`, `start_val`, `window_max`,
  the `number_input` limits, the player list and its 'Juan Soto' default.
  They only bound what the user may choose; the model takes the choice as a
  parameter.
- The `inf` to NaN replacement at PLV_Hitter_Metrics_test.py:331: values are
  exact reals, which have no infinities.
- Floating point: means, divisions and the bucket arithmetic are exact.
  Rounding happens only where the source calls `round`. The run constant
  must be non-zero, because a division by zero would produce an IEEE
  infinity, which is not modelled.
- The square root behind pandas `std()`: sigma is a parameter tied to the
  sample variance.
- `Season.SortByHeadline`: does not fix the order among rows with equal HP
  / Hit Eff values. pandas' default sort is not stable, so the model only
  promises a permutation in non-increasing order.
- `Rolling.SortByPitch`: does not fix the order of rows with equal
  `pitch_id` values, for the same reason.
- `Season.Names`: groups are listed in order of first appearance, not in
  pandas' sorted-key order. The table is re-sorted by the headline, so this
  changes only the order of tied rows.
- `astype({'Name':'str'})` and the `count` of `pitch_id`: hitter names and
  pitch ids are never missing in the model, so every row of a hitter counts.
- The hitter app's batter-hand filter (`hitter_hand`) applies only to
  `chart_thresh_list`, not to `rolling_df`. The model follows that.

## Findings

| source | as written | input that shows it | evidently intended | confidence | as-written member | corrected member |
|---|---|---|---|---|---|---|
| PLV_Hitter_Metrics_test.py:379-508 | the "Not enough" message prints `rolling_df.shape[0]` after `rolling_df` was thinned to one row per game date, although the test compares the window with the unthinned `season_sample` | two pitches on one date with window 3: the window is refused for a sample of 2, and the message reports 1 | report `season_sample`, the count the window was compared with | medium, not executed; latent, because the script stops at line 327 before reaching it | `Rolling.HitterGuardAsWritten` (shown by `Rolling.HitterGuardReportsThinnedCount`) | `Rolling.HitterGuard` (used by `Rolling.HitterRollingChart`) |
