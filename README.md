# Odyssey cycle-top dashboard: a Dafny model of its metric core

The dashboard scores where Bitcoin sits in its market cycle. It works from
three on-chain series: NUPL (net unrealised profit/loss), MVRV (market value
to realised value) and SOPR (spent output profit ratio). This project models,
and proves properties of, the code that turns those series into numbers and
labels:

- **The metrics service** (`lib/services/metrics-service.ts`), in module `MetricsService`:
  - monthly aggregation, a loop over the samples that fills a month-keyed map in insertion order;
  - the OCPI (Odyssey Cycle Prediction Index): per month, each metric is normalised to [0, 1], weighted 0.4/0.3/0.3, scaled to a percentage and clamped, then the points are sorted by date;
  - the sinusoidal projection of future OCPI values;
  - the historical-context classifier.
- **The data layer** (`lib/api/index.ts`), in module `MetricsApi`:
  - the time-to-live cache of the four fetched series, as a class whose methods update its fields;
  - the cache-first logic of the four fetch functions;
  - the older composite that aligns the three series by array index.
- **The chart classifiers**, one module per component (`NuplChart`, `MvrvChart`, `SoprChart`, `CompositeMetricChart`, `RainbowChart`, `RiskGauge`):
  - the validity filter each chart applies to its rows;
  - the current reading taken from the last valid row;
  - the threshold if-chains that pick a zone;
  - the colour-class lookups.

Shared modules:

- `Calendar`: dates as parsed (year, month, day) triples, JavaScript's `setMonth` arithmetic including day rollover, and the UTC day count.
- `Samples`: the two point shapes (`{date, value}` and `{date, price}`), an `Option` type, and the no-repeats predicate `Unique`.
- `Thresholds`: the search every if-chain performs.
- `ChartData`: JavaScript values with `NaN` and `undefined`, and the row filter.
- `Zones`: the zone record and the Tailwind colour tables.

The main results:

- The aggregator returns one point per month, in first-appearance order. Each point is the mean of its month, and the output is date-sorted when the input is.
- `calculateOCPI` returns a strictly date-ascending series. It has one point per first-of-month that occurs in any input, each point is the weighted score of that month's means, and it is empty only when all three inputs are.
- The OCPI lies in [0, 100], is monotone in each metric, and agrees with the older composite on the ranges the normalisers leave unchanged.
- Every classifier returns zone `k` exactly on the half-open interval between its `k`-th and `k-1`-th thresholds, and is monotone.
- The cache serves a fresh entry without touching the store. A successful fetch is stored and stamped; a failed one leaves the store unchanged.

## Model

| member | source | states |
|---|---|---|
| Calendar.DaysInMonth | lib/services/metrics-service.ts:102-103 | month lengths of the Gregorian calendar; February has 29 days exactly in leap years |
| Calendar.FirstOfMonth | lib/services/metrics-service.ts:30-34 | the `YYYY-MM-01` date of a month bucket lies in that bucket and is its first day |
| Calendar.DateBefore | lib/services/metrics-service.ts:88 | the order the sort comparator puts dates in: by year, then month, then day |
| Calendar.DateBeforeDayNumber | lib/services/metrics-service.ts:88 | for valid dates the comparator's order is exactly the order of their day counts, i.e. of `getTime()`, in both directions |
| Calendar.DateBeforeTotal | lib/services/metrics-service.ts:88 | date order is total and asymmetric, so the date comparator sorts consistently |
| Calendar.AddMonths | lib/services/metrics-service.ts:102-103 | `setMonth(getMonth() + n)` yields a valid date; for days up to 28 it keeps the day and moves exactly n months; adding 0 months changes nothing |
| Calendar.AddMonthsAscending | lib/services/metrics-service.ts:101-103 | from a first-of-month date, adding more months gives a strictly later date |
| Calendar.DayNumber | components/charts/composite-metric-chart.tsx:136 | `getTime()` of a date's UTC midnight in whole days since 1970-01-01 |
| Calendar.DaysBetween | components/charts/composite-metric-chart.tsx:136 | `Math.floor((b - a) / 86400000)` for two UTC midnights: the difference of their day numbers |
| Calendar.MarchYearLength | components/charts/composite-metric-chart.tsx:136 | a year counted from 1 March has 366 days exactly when the February ending it has a leap day |
| Calendar.DaysFromMarchTable | components/charts/composite-metric-chart.tsx:136 | the months' offsets from 1 March: 0, 31, 61, 92, 122, 153, 184, 214, 245, 275, 306, 337 |
| Calendar.DayNumberSteps | components/charts/composite-metric-chart.tsx:134-136 | the UTC day count is 0 at 1970-01-01, rises by one per day within a month, and the last day of every month (28 or 29 February and 31 December included) is followed by the first of the next |
| Thresholds.FirstMet | components/metrics/risk-gauge.tsx:19-25 | the branch an if-chain of `v >= t` returns from: every earlier threshold is above v, and the chosen one is at most v |
| Thresholds.FirstMetMonotone | components/metrics/risk-gauge.tsx:19-25 | a larger value never takes a later (lower) branch |
| Thresholds.FirstMetInterval | components/metrics/risk-gauge.tsx:19-25 | with descending thresholds, branch k is taken exactly on [t[k], t[k-1]) |
| Thresholds.FirstMetThree | lib/services/metrics-service.ts:134-146 | a chain of three tests is the search over its three thresholds |
| Thresholds.FirstMetFour | components/charts/nupl-chart.tsx:93-99 | a chain of four tests is the search over its four thresholds |
| Zones.Rank | components/charts/rainbow-chart.tsx:54-69 | position of the first table entry equal to x, or the table length when there is none |
| Zones.RankOfEntry | components/charts/rainbow-chart.tsx:54-69 | in a table without repeats, an entry is found at its own position |
| Zones.TextColorClass | components/charts/composite-metric-chart.tsx:116-131 | the five zone colours map to their text classes; any other colour maps to the gray default |
| Zones.BgColorClass | components/metrics/risk-gauge.tsx:45-61 | the five zone colours map to their background classes; any other colour maps to the gray default |
| Zones.TablesUnique | components/metrics/risk-gauge.tsx:27-61 | colour names and both class tables are free of repeats, and the gray default is not among the table classes |
| Zones.TextColorClassInjective | components/charts/composite-metric-chart.tsx:116-131 | distinct colours (gray included) get distinct text classes |
| Samples.Sample.Amount | lib/services/metrics-service.ts:35-40 | the amount a point adds to its month: its price when it has one, its value otherwise |
| MetricsService.MonthCount | lib/services/metrics-service.ts:32-42 | the number of samples falling in a month, at most the input length |
| MetricsService.MonthSum | lib/services/metrics-service.ts:35-40 | the sum of a month's amounts (`'price' in item ? item.price : item.value`), 0 for a month without samples |
| MetricsService.MonthsOf | lib/services/metrics-service.ts:32-37 | the distinct months of the input in first-appearance order, which is the Map's insertion order |
| MetricsService.Monthly | lib/services/metrics-service.ts:25-49 | the specification of the aggregator: one point per month in first-appearance order, dated the month's first day, holding the month's mean |
| MetricsService.MonthlyPoint | lib/services/metrics-service.ts:45-48 | an output point carries the bucket's date and amount, shaped as a price exactly when the first input sample is one |
| MetricsService.AggregateToMonthly | lib/services/metrics-service.ts:25-49 | the loop over the samples, with the Map as a map plus its insertion order, returns the monthly series: one point per month in first-appearance order, at the month's first day, holding the month's mean as a value or as a price according to the first sample's shape |
| MetricsService.Emit | lib/services/metrics-service.ts:45-48 | one output point per bucket of the Map |
| MetricsService.EmitMonthly | lib/services/metrics-service.ts:45-48 | emitting the buckets built from the whole input, in insertion order, gives one point per month holding the month's mean |
| MetricsService.MonthCountPositive | lib/services/metrics-service.ts:32-42 | a month has a positive count exactly when some sample falls in it |
| MetricsService.MonthlyEmpty | lib/services/metrics-service.ts:25-49 | the aggregate is empty exactly when the input is |
| MetricsService.MonthlyDistinct | lib/services/metrics-service.ts:30-34 | every output date is a first of month, and no two output points share a date |
| MetricsService.MonthlyCoversInput | lib/services/metrics-service.ts:28-43 | the output months are exactly the months of the input |
| MetricsService.MonthlyMeans | lib/services/metrics-service.ts:45-48 | each output point is the mean of its month's samples, shaped like the first input sample |
| MetricsService.MonthlyAt | lib/services/metrics-service.ts:45-48 | the j-th output point belongs to the j-th month in insertion order |
| MetricsService.MonthlyFirstAppearance | lib/services/metrics-service.ts:28-43 | later samples never reorder the months already seen |
| MetricsService.MonthsOfPrefix | lib/services/metrics-service.ts:28-43 | the months of a prefix are a prefix of the months |
| MetricsService.SortedInputSortedMonths | lib/services/metrics-service.ts:28-43 | input in non-decreasing month order gives strictly ascending months ending with the last sample's month |
| MetricsService.MonthlySortedWhenInputSorted | lib/services/metrics-service.ts:25-49 | date-sorted input gives strictly date-ascending output; otherwise the output follows first appearance |
| MetricsService.Clamp | lib/services/metrics-service.ts:72-74 | `Math.max(lo, Math.min(hi, x))` lies in [lo, hi], is x inside, and is the nearer bound outside |
| MetricsService.ClampMonotone | lib/services/metrics-service.ts:72-74 | clamping preserves order |
| MetricsService.NormalizeNupl | lib/services/metrics-service.ts:72 | NUPL normalised into [0, 1]: unchanged on [0, 1], 0 below it and 1 above it |
| MetricsService.NormalizeMvrv | lib/services/metrics-service.ts:73 | MVRV over 4 clamped to [0, 1]; linear on [0, 4], 0 from 0 down and 1 from 4 up |
| MetricsService.NormalizeSopr | lib/services/metrics-service.ts:74 | (SOPR − 1) / 0.3 clamped to [0, 1]; linear on [1, 1.3], 0 up to 1 and 1 from 1.3 up |
| MetricsService.Weighted | lib/services/metrics-service.ts:76-80 | the 0.4/0.3/0.3 weighted sum as a percentage: within [0, 100] for scores in [0, 1], and 100 when all three are 1 |
| MetricsService.WeightedPercent | lib/services/metrics-service.ts:72-80 | the weighted percentage of the three normalised raw readings, before the final clamp |
| MetricsService.OcpiScore | lib/services/metrics-service.ts:72-84 | the OCPI of one month lies in [0, 100] |
| MetricsService.OcpiClampInactive | lib/services/metrics-service.ts:4-8 | the weights sum to 1, so the weighted percentage already lies in [0, 100] and the final clamp never changes it |
| MetricsService.OcpiMonotone | lib/services/metrics-service.ts:72-84 | raising any raw metric never lowers the OCPI |
| MetricsService.MonthMean | lib/services/metrics-service.ts:45-48 | a month's sum divided by its count, 0 for a month without points |
| MetricsService.ValueAt | lib/services/metrics-service.ts:67-69 | `find(...)?.value \|\| 0`: 0 when no point has the date, otherwise the first matching point's value |
| MetricsService.ValueAtMonthly | lib/services/metrics-service.ts:53-69 | looking a first-of-month date up in a monthly aggregate gives that month's mean, or 0 when the month is absent |
| MetricsService.Distinct | lib/services/metrics-service.ts:58-62 | the `Set` of dates: no repeats and the same members as the input |
| MetricsService.InsertByDate | lib/services/metrics-service.ts:88 | inserting a point adds exactly that point to the multiset |
| MetricsService.InsertByDateAscending | lib/services/metrics-service.ts:88 | insertion keeps a date-ascending sequence ascending |
| MetricsService.InsertByDateStrictlyAscending | lib/services/metrics-service.ts:88 | inserting a point with a new date keeps a strictly ascending sequence strictly ascending |
| MetricsService.SortByDate | lib/services/metrics-service.ts:88 | the sorted points are a permutation of the input in ascending date order, strictly ascending when dates are distinct |
| MetricsService.MonthStarts | lib/services/metrics-service.ts:30-34 | the `${monthKey}-01` dates: the first day of each month the input has a point in |
| MetricsService.MonthlyDates | lib/services/metrics-service.ts:53-62 | the dates of a monthly aggregate are exactly the first-of-month dates of its input |
| MetricsService.MonthScore | lib/services/metrics-service.ts:66-85 | the score a month gets: the clamped weighted OCPI of the three monthly means, always in [0, 100], and 0 for a month none of the three inputs has |
| MetricsService.ScoreDates | lib/services/metrics-service.ts:66-86 | the `dates.forEach` loop: one point per date, in order, holding the clamped weighted score of the three monthly values at that date (0 where absent) |
| MetricsService.CalculateOCPI | lib/services/metrics-service.ts:52-89 | strictly date-ascending output; its dates are exactly the first-of-month dates of the three inputs; each point's value is that month's weighted score; empty exactly when all inputs are empty |
| MetricsService.UnionDates | lib/services/metrics-service.ts:58-62 | the distinct union of the three monthly date lists is the union of the three inputs' month starts |
| MetricsService.ScoredPointValues | lib/services/metrics-service.ts:66-86 | each pushed point carries its date and the weighted score of that month |
| MetricsService.OcpiPointsCorrect | lib/services/metrics-service.ts:82-88 | sorting the pushed points keeps their dates and scores |
| MetricsService.OcpiNonEmpty | lib/services/metrics-service.ts:58-62 | the date set is empty exactly when all three series are |
| MetricsService.TotalDuration | lib/services/metrics-service.ts:98 | the left-to-right `reduce` of the cycle durations from 0; MetricsService.DurationsPositive bounds it below by the number of cycles when every duration is positive |
| MetricsService.DurationsPositive | lib/services/metrics-service.ts:98 | when every cycle lasts at least a day, the summed durations are at least the number of cycles |
| MetricsService.AvgCycleLength | lib/services/metrics-service.ts:97-98 | the mean cycle duration is positive when every duration is |
| MetricsService.HistoricalAverage | lib/services/metrics-service.ts:11-22 | the two reference cycles average 370.5 days |
| MetricsService.CycleProgress | lib/services/metrics-service.ts:106 | i months of 30 days as a fraction of the 370.5-day average cycle: exactly 60i/741 |
| MetricsService.ProjectedValue | lib/services/metrics-service.ts:106-111 | the projected value i months ahead lies in [0, 100] |
| MetricsService.ProjectedValueWave | lib/services/metrics-service.ts:106-111 | for a sine within [−1, 1] the clamp never bites, and the projection is above 50 exactly where the sine is positive |
| MetricsService.Projection | lib/services/metrics-service.ts:101-113 | one point per requested month, none when the count is not positive |
| MetricsService.ProjectionAscending | lib/services/metrics-service.ts:101-113 | from a first-of-month date the predicted dates are strictly ascending firsts of month, all after the last historical date |
| MetricsService.ProjectionDate | lib/services/metrics-service.ts:102-103 | the i-th prediction is dated i + 1 months after the last historical date |
| MetricsService.PredictOCPI | lib/services/metrics-service.ts:92-116 | fails exactly on an empty history, or on an unparseable last date when some month is to be predicted; otherwise returns the projection (empty for an unparseable date and no month); `monthsToPredict` defaults, as in the source, to `DEFAULT_MONTHS_TO_PREDICT`, twelve months |
| MetricsService.DefaultProjectionSpansAYear | lib/services/metrics-service.ts:92-116 | with the default horizon of 12 months the projection has twelve points, the last on the same day and month one year after the last historical date (for a day every month has) |
| MetricsService.HistoricalPeaks | lib/services/metrics-service.ts:124-127 | one peak per reference cycle, with the cycle's peak date and price |
| MetricsService.GetHistoricalContext | lib/services/metrics-service.ts:119-156 | always carries the historical peaks; any metric other than OCPI is Unknown with confidence 0; OCPI takes the phase and confidence of the first threshold reached |
| MetricsService.Phase.Label | lib/services/metrics-service.ts:129-145 | the `phase` strings: "Peak Zone", "Accumulation", "Distribution", "Bottom Zone" and the initial "Unknown"; the Phase value stands for the string the source returns |
| MetricsService.HistoricalContextLabel | lib/services/metrics-service.ts:129-149 | the returned `phase` string is "Unknown" for any metric but OCPI, and for OCPI "Peak Zone" exactly from 75, "Accumulation" exactly on [50, 75), "Distribution" exactly on [25, 50), "Bottom Zone" exactly below 25; distinct phases have distinct strings |
| MetricsService.HistoricalContextBands | lib/services/metrics-service.ts:132-149 | OCPI phase bands: Peak Zone from 75, Accumulation on [50, 75), Distribution on [25, 50), Bottom Zone below 25; confidence in [0.6, 0.8] |
| MetricsService.HistoricalContextMonotone | lib/services/metrics-service.ts:132-149 | a higher OCPI never takes a lower phase branch, and Peak Zone persists upward |
| MetricsApi.Ttl | lib/api/index.ts:60-129 | every key has a positive time to live |
| MetricsApi.Stale | lib/api/index.ts:51-54 | `isStale`: never stamped, stamped at 0 (`!lastUpdated`), or more than `ttl` ms ago |
| MetricsApi.StaleBoundary | lib/api/index.ts:51-54 | an entry stamped at a non-zero time is fresh for exactly `ttl` ms and stale from the next ms on |
| MetricsApi.StaleMonotone | lib/api/index.ts:51-54 | a stale entry stays stale as time passes |
| MetricsApi.Cache.constructor | lib/api/index.ts:40-45 | the store starts with four empty series and no timestamps |
| MetricsApi.Cache.GetData | lib/api/index.ts:50 | the field named by the key, which has that key's shape |
| MetricsApi.Cache.IsStale | lib/api/index.ts:51-54 | `isStale` on the store's own timestamps |
| MetricsApi.Cache.Served | lib/api/index.ts:58-148 | what a fetch function returns: the cached series while fresh, else the fetched series, else [] |
| MetricsApi.Cache.AfterFetch | lib/api/index.ts:58-78 | what a key holds after its fetch: the fetched series when the fetch wrote the store, otherwise the old series |
| MetricsApi.Cache.StampsAfter | lib/api/index.ts:151-156 | the timestamps after the three metric fetches: each written key stamped with the time its own write ran, the rest unchanged |
| MetricsApi.Cache.Refetched | lib/api/index.ts:58-74 | a fetch writes the store exactly when the entry is stale and the fetch succeeds |
| MetricsApi.Cache.SetData | lib/api/index.ts:46-49 | stores the series under its key, stamps that key with the write time, and leaves the other keys' data and stamps as they were |
| MetricsApi.Cache.Fetch | lib/api/index.ts:58-148 | returns the cached series while fresh at the check time, without touching the store; otherwise stores a successful fetch, stamped with the later write time, and returns it; a failure returns [] and leaves the store as it was; no other key's series or stamp changes |
| MetricsApi.Cache.GenerateCompositeData | lib/api/index.ts:151-175 | the composite is the index-wise combination of the three series the fetches serve; each metric key that was stale and fetched successfully holds the fetched series, stamped with the time its own write ran (all three staleness checks happen at one time, before any write); every other key, the price included, keeps its series and its stamp |
| MetricsApi.OutcomeOf | lib/api/index.ts:152-156 | the fetch outcome each key sees in the composite: the three metric fetches, and none for the price |
| MetricsApi.ValueOrZero | lib/api/index.ts:160-161 | a missing point reads as 0 |
| MetricsApi.LegacyScore | lib/api/index.ts:164-172 | the older composite, clamped only after summing, lies in [0, 100] |
| MetricsApi.CombineByIndex | lib/api/index.ts:159-174 | one point per NUPL point, with its date; the value is the older score of the values at the same index, within [0, 100] |
| MetricsApi.CombineIgnoresDates | lib/api/index.ts:159-161 | alignment is by position only: MVRV and SOPR dates do not matter |
| MetricsApi.LegacyAgreesInRange | lib/api/index.ts:164-172 | inside the normalisers' linear ranges, the older composite equals the OCPI |
| MetricsApi.LegacyDivergesOutOfRange | lib/api/index.ts:164-172 | at NUPL −0.5, MVRV 4 and SOPR 1.3 the older composite is 40 while the OCPI is 60 |
| MetricsApi.MissingSoprZeroesComposite | lib/api/index.ts:161-172 | a SOPR series shorter than the NUPL series zeroes the composite at the missing indices (NUPL ≤ 1, MVRV ≤ 4) |
| ChartData.Filter | components/charts/nupl-chart.tsx:30-32 | `Array.prototype.filter` keeps exactly the items that pass, and no more items than it was given |
| ChartData.FilterAppend | components/charts/nupl-chart.tsx:30-32 | filtering distributes over concatenation, so the kept items stay in order |
| ChartData.LastKeptIndex | components/charts/nupl-chart.tsx:91 | the position of the last item that passes, with nothing after it passing; −1 when none passes |
| ChartData.FilterLast | components/charts/nupl-chart.tsx:91 | the filtered array is non-empty exactly when some item passes, and it ends with the last such item |
| ChartData.LastValid | components/charts/composite-metric-chart.tsx:102-103 | the last element of the filtered array: absent exactly when nothing passes, otherwise the last item that passes |
| ChartData.ValidMetricRow | components/charts/nupl-chart.tsx:30-32 | the row test of the NUPL, MVRV and SOPR charts: a present row, a string date, a numeric value that is not NaN |
| ChartData.ValidMetricRowShape | components/charts/nupl-chart.tsx:30-32 | the row test holds exactly for rows with a string date and a numeric value that is not NaN |
| NuplChart.ChartRows | components/charts/nupl-chart.tsx:30-32 | the drawn rows are exactly the input rows with a string date and a numeric value that is not NaN |
| NuplChart.CurrentValue | components/charts/nupl-chart.tsx:91 | the value of the last valid row, or 0.5 when there is none |
| NuplChart.GetZone | components/charts/nupl-chart.tsx:93-99 | the zone of the first threshold reached |
| NuplChart.GetZoneBands | components/charts/nupl-chart.tsx:93-99 | Euphoria from 0.75, Belief on [0.5, 0.75), Optimism on [0.25, 0.5), Hope on [0, 0.25), Capitulation below 0 |
| NuplChart.GetZoneMonotone | components/charts/nupl-chart.tsx:93-99 | a higher NUPL never lands in a lower zone |
| MvrvChart.ChartRows | components/charts/mvrv-chart.tsx:29-31 | the drawn rows are exactly the input rows with a string date and a numeric value that is not NaN |
| MvrvChart.CurrentValue | components/charts/mvrv-chart.tsx:56 | the value of the last valid row, or 2.5 when there is none |
| MvrvChart.GetZone | components/charts/mvrv-chart.tsx:58-64 | the zone of the first threshold reached |
| MvrvChart.GetZoneBands | components/charts/mvrv-chart.tsx:58-64 | Extreme Overvaluation from 3.7, Overvaluation on [3, 3.7), Fair Value on [2, 3), Undervaluation on [1, 2), Extreme Undervaluation below 1 |
| MvrvChart.GetZoneMonotone | components/charts/mvrv-chart.tsx:58-64 | a higher MVRV never lands in a lower zone |
| SoprChart.ChartRows | components/charts/sopr-chart.tsx:19-21 | the drawn rows are exactly the input rows with a string date and a numeric value that is not NaN |
| SoprChart.CurrentValue | components/charts/sopr-chart.tsx:46 | the value of the last valid row, or 1.1 when there is none |
| SoprChart.GetZone | components/charts/sopr-chart.tsx:48-54 | the zone of the first threshold reached |
| SoprChart.GetZoneBands | components/charts/sopr-chart.tsx:48-54 | Extreme Profit Taking from 1.3, High Profit Taking on [1.2, 1.3), Moderate Profit on [1.1, 1.2), Break Even on [1, 1.1), Losses Realized below 1 |
| SoprChart.GetZoneMonotone | components/charts/sopr-chart.tsx:48-54 | a higher SOPR never lands in a lower zone |
| CompositeMetricChart.ValidCompositeRow | components/charts/composite-metric-chart.tsx:23-31 | the row test: a present row, a string date, and a value and a price that are numbers and not NaN |
| CompositeMetricChart.ChartRows | components/charts/composite-metric-chart.tsx:23-31 | the drawn rows are exactly the input rows with a string date and a value and a price that are numbers and not NaN |
| CompositeMetricChart.CurrentReading | components/charts/composite-metric-chart.tsx:102-103 | the value and price of the last valid row; absent exactly when no row is valid |
| CompositeMetricChart.GetZoneInfo | components/charts/composite-metric-chart.tsx:106-112 | the zone of the first threshold reached |
| CompositeMetricChart.GetZoneInfoBands | components/charts/composite-metric-chart.tsx:106-112 | SELL from 80, MONITOR on [65, 80), HOLD on [45, 65), ACCUMULATE on [30, 45), BUY below 30 |
| CompositeMetricChart.GetZoneInfoMonotone | components/charts/composite-metric-chart.tsx:106-112 | a higher OCPI never lands in a lower zone |
| CompositeMetricChart.ZoneColorClass | components/charts/composite-metric-chart.tsx:116-131 | a zone's text class is the class at the zone's position, never the gray default |
| CompositeMetricChart.ZoneTablesDiffer | components/charts/composite-metric-chart.tsx:106-112 | at 77 the service's context says Peak Zone while the chart says MONITOR: the two tables use different cut-offs |
| CompositeMetricChart.DaysToProjectedPeak | components/charts/composite-metric-chart.tsx:134-136 | 81 whole days from 2025-05-26 to the projected peak date |
| RiskGauge.GetRiskLevel | components/metrics/risk-gauge.tsx:19-25 | the level of the first threshold reached |
| RiskGauge.GetRiskLevelBands | components/metrics/risk-gauge.tsx:19-25 | EXTREME from 80, HIGH on [60, 80), MODERATE on [40, 60), LOW on [20, 40), MINIMAL below 20 |
| RiskGauge.GetRiskLevelMonotone | components/metrics/risk-gauge.tsx:19-25 | a higher score never gives a lower level |
| RiskGauge.GetColorClass | components/metrics/risk-gauge.tsx:27-43 | the text class at the position of the score's level |
| RiskGauge.GetBgColorClass | components/metrics/risk-gauge.tsx:45-61 | the background class at the position of the score's level |
| RiskGauge.ClassesFollowLevel | components/metrics/risk-gauge.tsx:27-61 | two scores get the same text class, and the same background class, exactly when they get the same level |
| RiskGauge.Rotation | components/metrics/risk-gauge.tsx:83 | a score in [0, 100] turns the needle within [−90°, 90°] |
| RiskGauge.RotationLinear | components/metrics/risk-gauge.tsx:83 | the needle runs from −90° at 0 to 90° at 100, 1.8° per point, strictly increasing |
| RiskGauge.RiskScoreReading | components/metrics/risk-gauge.tsx:63-83 | the fixed score 68 is HIGH (orange) and turns the needle to 32.4° |
| RainbowChart.GetBandInfo | components/charts/rainbow-chart.tsx:54-69 | each of the five bands gets its own zone, with the band's own colour; any other band is Unknown/gray/WAIT |
| RainbowChart.BandInfoInjective | components/charts/rainbow-chart.tsx:54-69 | distinct bands get distinct zone records, and a known band is never Unknown |
| RainbowChart.ValidRainbowRow | components/charts/rainbow-chart.tsx:19-26 | the row test: a present row, a string date, a numeric price that is not NaN, and a string band |
| RainbowChart.ChartRows | components/charts/rainbow-chart.tsx:19-26 | the drawn rows are exactly the input rows with a string date, a numeric price that is not NaN and a string band |
| RainbowChart.CurrentReading | components/charts/rainbow-chart.tsx:51-52 | the price and band of the last valid row, or 80000 and green when there is none |

## Left out

- Network access, the API keys and the JSON response mapping (`lib/api/index.ts:64-74` and the corresponding lines of the other fetch functions) are not modelled. A fetch is a parameter: either the formatted series or a failure, and every exception the `try` catches counts as a failure.
- Each reading of `Date.now()` is a parameter of the cache methods: `now` where staleness is checked, `stamp` (no earlier than `now`) where `setData` writes. The three synchronous staleness checks under `Promise.all` are read as one time `now`. `Math.sin` is a parameter `sin: real -> real`, and `Math.PI` is its 16-digit literal.
- Date strings are modelled as already-parsed (year, month, day) triples. Not modelled: the local-time versus UTC reading of `new Date(...)`, the hours of the ISO timestamps the fetch functions produce, and `toISOString().split('T')[0]`. In `predictOCPI` an unparseable date is a triple that is not a valid calendar date.
- IEEE floating point is modelled by exact reals. Rounding, infinities and `NaN` inside the arithmetic are not modelled. `NaN` and `undefined` appear only where the charts test for them, in their row filters.
- ChartData.ValidMetricRow: a numeric field is a real or `NaN`; ±Infinity, which the charts' `typeof … === "number" && !isNaN(…)` tests let through, is not representable, and the same holds for the composite and rainbow row tests.
- MetricsService.AggregateToMonthly: the aggregator, and `calculateOCPI` built on it, are modelled for parseable dates only. The source puts every unparseable date into the single bucket `NaN-NaN` (its `getFullYear()` and `getMonth()` are NaN), emits it dated `NaN-NaN-01`, and `calculateOCPI` then sorts with a comparator that returns NaN for it; here a triple that is not a calendar date keeps its own (year, month) bucket instead.
- MetricsService.Monthly: the output follows the Map's insertion order, as the code does. It is not sorted by date for unsorted input; the sorted case is MetricsService.MonthlySortedWhenInputSorted.
- MetricsService.SortByDate: the sort is modelled on sequences, as an insertion sort with the comparator's order. The in-place `Array.prototype.sort` and its particular algorithm are not modelled; only its result (a date-ascending permutation) is.
- MetricsApi.Cache.GenerateCompositeData: the three fetches run one after another. `Promise.all` concurrency is not modelled; the fetches touch different keys, so the result is the same.
- The `console.error` logging of a failed fetch (`lib/api/index.ts:76`, `99`, `122`, `145`) is output only and is not modelled; the failure itself is.
- MetricsService.PredictOCPI: `monthsToPredict` is an integer here. A fractional JavaScript number `n` runs the loop for each integer `i` from 1 up to `n`, that is ⌊n⌋ times for a positive `n`, the same as the integer ⌊n⌋; that conversion is not modelled.
- MetricsApi.Ttl: the contract states only that the time to live is positive. The two values, a day for the metrics and an hour for the price, appear only in its body.
- The `lastUpdated` key of the store is never written through `setData`, so only the four series keys are modelled.
- The historical cycles' bottom dates and prices, and their names, are carried but used by nothing modelled.
- The risk gauge's per-metric scores and its inline colour ternaries in the JSX (`components/metrics/risk-gauge.tsx:11-17`, `91-110` and after), the icons in the composite chart's zone records, and the constant `projectedPeakValue` are not modelled; they are display data.
- Rendering, the React hooks and effects, error boundaries, the dashboard layout, the mock-data generators, the Supabase client, the API route, and the chart files that only lay out constant data are not part of this model.
