# chartjs-plugin-downsample in Dafny

This project models the core of chartjs-plugin-downsample, a Chart.js plugin
that thins large time series with Largest-Triangle-Three-Buckets (LTTB)
before they are drawn. All of the core is in
`src/chartjs-plugin-downsample.js`. It has two parts:

- `lttb.dfy`, module `Lttb`, models the reducer `downsample(data, threshold)`.
  - `Downsampled` is the specification function.
  - `Downsample` is the loop as the source writes it. It is split into the
    look-ahead mean (`LookAheadMean`), the bucket scan (`LargestTriangle`) and
    one bucket step (`PickFromBucket`), and it is proved equal to `Downsampled`.
  - The lemmas state what the output is:
    - The input passes through when the threshold is out of range.
    - Otherwise the output has exactly `threshold` points, or 2 when the
      threshold is 1 or 2.
    - The first and last points are kept.
    - The output keeps the input order.
    - Every bucket is non-empty and lies in the interior.
    - Every kept interior point is the earliest point of its bucket with the
      largest triangle.
    - The result is the only selection with these properties.
    - Reducing twice gives the same result as reducing once.
- `plugin.dfy`, module `DownsamplePlugin`, models the series manager
  `downsampleChart` and the plugin hooks. The chart is a class. Its fields are
  the merged options, the x-axis scale, the user bounds `time.min`/`time.max`,
  and the array of datasets.
  - `DownsampleChart` is proved against `RefreshAll`, the corrected pass (see
    "## Findings"), which refreshes each dataset with `Refresh`:
    - `originalData` is captured once.
    - The candidate points are the whole original series or the points inside
      the time window.
    - `data` becomes their reduction.
  - The constructor stands for chart creation followed by `beforeInit`: the
    option merge, plus the first pass when `onInit` is set.
  - `Downsample` models the manual trigger `chartInstance.downsample`.
  - `BeforeUpdate` models the `beforeUpdate` hook.
  - The lemmas show that the last pass alone decides the datasets, that a pass
    is idempotent, and that resetting the bounds to the empty string brings
    back the reduction of the whole original series.

Timestamps are integers in epoch milliseconds. Values are exact reals.

## Model

| member | source | states |
|---|---|---|
| Lttb.Passthrough | src/chartjs-plugin-downsample.js:32 | the test of the early return: the threshold is at least the number of points, or not positive (a definition; `DownsampledShape` states what it implies) |
| Lttb.Buckets | src/chartjs-plugin-downsample.js:51 | the number of runs of the bucket loop, `threshold - 2`, and none for thresholds 1 and 2 (a definition; `Indices` states the resulting length) |
| Lttb.Every | src/chartjs-plugin-downsample.js:40 | the bucket size `(n-2)/(threshold-2)` as a real (a definition; `EveryAtLeastOne` states its properties) |
| Lttb.Boundary | src/chartjs-plugin-downsample.js:69-70 | `floor(i*every)+1`, the first index of bucket `i`, also used for the look-ahead range at lines 55-56 (a definition; `BoundaryStep`, `BoundaryEnds` and `BoundaryExact` state its properties) |
| Lttb.LookAheadEnd | src/chartjs-plugin-downsample.js:56-57 | the end of the look-ahead range, clipped so that it is never past the last point |
| Lttb.AvgT | src/chartjs-plugin-downsample.js:53-66 | the mean timestamp of the look-ahead range of bucket `i` (a definition; `LookAheadInRange` shows the range is non-empty and `LookAheadMean` that the loop computes it) |
| Lttb.AvgY | src/chartjs-plugin-downsample.js:53-66 | the mean value of the look-ahead range of bucket `i` (a definition; `LookAheadInRange` shows the range is non-empty and `LookAheadMean` that the loop computes it) |
| Lttb.Downsampled | src/chartjs-plugin-downsample.js:27-97 | what the reducer returns: the input on pass-through, otherwise the points at the kept indices; it is never longer than its input, and the lemmas below state its shape and selection |
| Lttb.BucketFloor | src/chartjs-plugin-downsample.js:69-70 | computing `floor(i*every)+1` with the product, as the source does, gives the boundary the proofs use |
| Lttb.Area | src/chartjs-plugin-downsample.js:80-82 | the triangle area on the anchor, a candidate and the look-ahead mean is never negative |
| Lttb.EveryAtLeastOne | src/chartjs-plugin-downsample.js:40 | for 3 <= threshold < n the bucket size `every` is at least 1, and `(threshold-2) * every == n-2` |
| Lttb.ScaledIsProduct | src/chartjs-plugin-downsample.js:69-70 | `i` repeated additions of `every` equal the product `i * every` used by the boundary |
| Lttb.ScaleMonotone | src/chartjs-plugin-downsample.js:69-70 | for a non-negative bucket size, `i * every` grows with `i` |
| Lttb.BoundaryStep | src/chartjs-plugin-downsample.js:69-70 | consecutive bucket boundaries `floor(i*every)+1` strictly increase, so no bucket is empty |
| Lttb.BoundaryMonotone | src/chartjs-plugin-downsample.js:69-70 | bucket boundaries never decrease as the bucket number grows |
| Lttb.BoundaryEnds | src/chartjs-plugin-downsample.js:55-57 | bucket 0 starts at index 1, the last bucket ends at boundary `n-1`, and the boundary after that is at least `n` |
| Lttb.BoundaryExact | src/chartjs-plugin-downsample.js:69-70 | the real-valued boundary `floor(i*every)+1` equals the integer `i*(n-2)/(threshold-2)+1` |
| Lttb.BucketInRange | src/chartjs-plugin-downsample.js:69-70 | every bucket `[B(i), B(i+1))` is non-empty and inside `1 .. n-2`, so the first and last points are never in a bucket |
| Lttb.LookAheadInRange | src/chartjs-plugin-downsample.js:55-59 | the look-ahead range is non-empty and inside the data, so `avgRangeLength` is never zero; for the last bucket it is exactly the last point |
| Lttb.FirstMax | src/chartjs-plugin-downsample.js:76-88 | the scan result lies in the bucket, its area is maximal over the bucket and strictly greater than the area of every earlier point (strict `>` keeps the first maximum) |
| Lttb.FirstMaxUnique | src/chartjs-plugin-downsample.js:76-88 | only one index is maximal and strictly ahead of every earlier one, so the first maximum is unique |
| Lttb.Pick | src/chartjs-plugin-downsample.js:68-91 | the pick of a bucket is an interior index, `1 <= r < n-1` |
| Lttb.PickInBucket | src/chartjs-plugin-downsample.js:69-70 | the pick of bucket `i` lies in `[B(i), B(i+1))` |
| Lttb.Anchor | src/chartjs-plugin-downsample.js:42-91 | the anchor `a` is the first point before any pick and the latest pick after each bucket (`a = nextA`) (a definition; `PicksAt` and `IndexIsPick` state what it anchors) |
| Lttb.Picks | src/chartjs-plugin-downsample.js:51-92 | after `k` runs of the bucket loop there are `k` interior picks |
| Lttb.PicksPrefix | src/chartjs-plugin-downsample.js:51-92 | a shorter run of the bucket loop is a prefix of a longer one |
| Lttb.PicksAt | src/chartjs-plugin-downsample.js:89-91 | pick `j` is made on the anchor left by the picks before it and lies in bucket `j` |
| Lttb.PicksOrdered | src/chartjs-plugin-downsample.js:51-92 | picks made by later runs of the loop have larger indices |
| Lttb.Indices | src/chartjs-plugin-downsample.js:49-94 | the kept indices are `threshold` in number (2 for thresholds 1 and 2), and each is a valid index |
| Lttb.IndicesOrdered | src/chartjs-plugin-downsample.js:49-94 | the kept indices are pairwise ordered by position |
| Lttb.Select | src/chartjs-plugin-downsample.js:90-94 | the output holds, in order, the points at the kept indices |
| Lttb.DownsampledShape | src/chartjs-plugin-downsample.js:32-34 | the pass-through branch is taken iff `threshold >= n` or `threshold <= 0`, and then the input comes back unchanged; otherwise the output has exactly `threshold` points (or the two endpoints for thresholds 1 and 2), starting with `data[0]` and ending with `data[n-1]` |
| Lttb.IndicesIncreasing | src/chartjs-plugin-downsample.js:49-94 | the output is an order-preserving selection: kept indices start at 0, end at `n-1`, strictly increase, and `out[k] == data[idx[k]]` |
| Lttb.IndexIsPick | src/chartjs-plugin-downsample.js:90-91 | kept index `k` is the pick of bucket `k-1` anchored on kept index `k-1` (`a = nextA`) |
| Lttb.PickIsLargestTriangle | src/chartjs-plugin-downsample.js:68-91 | interior kept point `k` is in bucket `k-1` and is the earliest point there with the largest triangle on the previous kept point and the mean of the look-ahead range |
| Lttb.IndicesAreSelection | src/chartjs-plugin-downsample.js:49-94 | the kept indices start at 0, end at `n-1`, and each interior one is the earliest largest-triangle point of its bucket on the index before it |
| Lttb.BucketPickUnique | src/chartjs-plugin-downsample.js:76-88 | for a given anchor, a bucket has only one earliest largest-triangle point |
| Lttb.SelectionCharacterised | src/chartjs-plugin-downsample.js:27-97 | the kept indices satisfy the declarative LTTB selection, and any index sequence satisfies it if and only if it equals them |
| Lttb.SelectionAgrees | src/chartjs-plugin-downsample.js:49-94 | every sequence meeting the LTTB selection agrees with the kept indices, prefix by prefix |
| Lttb.DownsampleIdempotent | src/chartjs-plugin-downsample.js:32-34 | reducing the output again with the same threshold returns it unchanged |
| Lttb.LookAheadMean | src/chartjs-plugin-downsample.js:53-66 | the loop returns the mean timestamp and the mean value of `data[lo..hi)` |
| Lttb.LargestTriangle | src/chartjs-plugin-downsample.js:76-88 | the scan with `maxArea = -1` and strict `>` returns the first index of maximal area (`FirstMax`) |
| Lttb.PickFromBucket | src/chartjs-plugin-downsample.js:52-91 | one run of the bucket loop body returns the bucket's pick `Pick(data, threshold, i, a)` |
| Lttb.SampledIsDownsampled | src/chartjs-plugin-downsample.js:90-94 | the first point, then the points at the picks of all buckets, then the last point, make up the specified output |
| Lttb.Downsample | src/chartjs-plugin-downsample.js:27-97 | the reducer returns exactly `Downsampled(data, threshold)` |
| DownsamplePlugin.Merge | src/chartjs-plugin-downsample.js:6-22 | each option the chart sets wins; each option it leaves out takes its default (`enabled` false, `threshold` 1000, `auto` true, `onInit` true) |
| DownsamplePlugin.InWindow | src/chartjs-plugin-downsample.js:137-144 | the filtered series is no longer than the original |
| DownsamplePlugin.InWindowMembers | src/chartjs-plugin-downsample.js:137-144 | a point is kept if and only if it is in the series and `lo <= t <= hi` |
| DownsamplePlugin.InWindowAppend | src/chartjs-plugin-downsample.js:138-143 | the filter keeps input order: it distributes over concatenation |
| DownsamplePlugin.InWindowInside | src/chartjs-plugin-downsample.js:141 | a series lying wholly inside the window passes the filter unchanged |
| DownsamplePlugin.UsesWholeSeries | src/chartjs-plugin-downsample.js:125-128 | the whole original series is reduced when the scale spans exactly one day, a user bound is undefined, or both user bounds are the empty-string reset (a definition; `Candidate` states what follows from it) |
| DownsamplePlugin.WindowOf | src/chartjs-plugin-downsample.js:130-135 | the filter window is the user bounds when both are timestamps, and the scale's bounds otherwise (a definition; `Candidate` states what follows from it) |
| DownsamplePlugin.Original | src/chartjs-plugin-downsample.js:122-123 | a pass reads the cached `originalData`, or the current `data` when nothing is cached (a definition; `Refresh` states the capture) |
| DownsamplePlugin.Candidate | src/chartjs-plugin-downsample.js:125-145 | the whole original series when the scale spans one day, a user bound is undefined, or both are the empty reset; otherwise exactly its points inside the window (user bounds when both are timestamps, the scale's otherwise) |
| DownsamplePlugin.Refresh | src/chartjs-plugin-downsample.js:118-147 | a cached `originalData` is kept, a missing one becomes the current `data`, and `data` becomes the reduction of the candidate points |
| DownsamplePlugin.RefreshAll | src/chartjs-plugin-downsample.js:117-148 | the corrected pass (see "## Findings"): each dataset is refreshed on its own, all on the same window, and the number of datasets is unchanged |
| DownsamplePlugin.Pass | src/chartjs-plugin-downsample.js:103-110 | a disabled plugin, or a chart whose scales are undefined, leaves every dataset as it is; a pass never changes the number of datasets |
| DownsamplePlugin.LastPassWins | src/chartjs-plugin-downsample.js:122-123 | since the original series is captured only once, two passes leave what the second pass alone leaves |
| DownsamplePlugin.RefreshAllIdempotent | src/chartjs-plugin-downsample.js:117-148 | repeating a pass with the same settings changes nothing |
| DownsamplePlugin.ResetRestoresWholeSeries | src/chartjs-plugin-downsample.js:127-128 | after any earlier pass, resetting both user bounds to `""` shows the reduction of the whole original series |
| DownsamplePlugin.Carry | src/chartjs-plugin-downsample.js:130-135 | after one dataset the user bounds are unchanged, and `min`/`max` change only when both user bounds are timestamps, which is the carry-over the finding rests on |
| DownsamplePlugin.PassAsWritten | src/chartjs-plugin-downsample.js:117-148 | the loop as written, which carries the locals `min`/`max` from one dataset to the next, leaves as many datasets as it was given |
| DownsamplePlugin.AsWrittenFromStable | src/chartjs-plugin-downsample.js:130-135 | locals that give the same window decision as the scale, and that the loop does not change, make the loop as written equal `RefreshAll` |
| DownsamplePlugin.PassAsWrittenAgrees | src/chartjs-plugin-downsample.js:125-135 | the loop as written equals `RefreshAll` unless both user bounds are timestamps exactly one day apart and the scale span is not one day |
| DownsamplePlugin.CarryOverCounterexample | src/chartjs-plugin-downsample.js:125-135 | with two equal datasets, a 1000 ms scale and user bounds one day apart, the loop as written filters the first dataset but not the second; `RefreshAll` filters both |
| DownsamplePlugin.FilterWindow | src/chartjs-plugin-downsample.js:137-144 | the filter loop returns `InWindow(originalData, lo, hi)` |
| DownsamplePlugin.RefreshDataset | src/chartjs-plugin-downsample.js:118-147 | one run of the dataset loop body returns `Refresh` of the dataset |
| DownsamplePlugin.Chart.constructor | src/chartjs-plugin-downsample.js:152-165 | the options are `Merge` of the chart's settings; the datasets are the given ones, after one corrected pass when `onInit` is set |
| DownsamplePlugin.Chart.DownsampleChart | src/chartjs-plugin-downsample.js:103-149 | the datasets are unchanged when disabled or without scales; otherwise they are `RefreshAll` of the old datasets, the corrected pass, which differs from the loop as written only where `PassAsWrittenAgrees` says |
| DownsamplePlugin.Chart.Downsample | src/chartjs-plugin-downsample.js:159-165 | a given threshold replaces the configured one (no other option changes), then one corrected pass runs with it |
| DownsamplePlugin.Chart.BeforeUpdate | src/chartjs-plugin-downsample.js:168-172 | one corrected pass runs when `auto` is set; otherwise the datasets are unchanged |

## Left out

- Date parsing: `new Date(x).getTime()` on point timestamps and on the user bounds is not modelled. Timestamps and bounds are integers in epoch milliseconds, so an unparsable date (NaN) does not arise.
- Floating point: the model uses exact reals. In IEEE arithmetic `floor((threshold-2) * every)` could come out one below `n-2`. The bucket and look-ahead facts (`BoundaryEnds`, `LookAheadInRange`) hold for exact arithmetic only. With exact arithmetic the look-ahead range is never empty, so the division by `avgRangeLength` never divides by zero.
- Thresholds 1 and 2: the source computes `every` as a negative number or as Infinity and never reads it. The model computes `every` only when the threshold is above 2.
- Aliasing: the reducer returns its input object on pass-through, and `originalData` may share its array with `data`. Datasets are values, so this sharing is not modelled. No code in the core mutates those arrays in place.
- DownsamplePlugin.Chart.DownsampleChart: runs the corrected pass `RefreshAll`, in which every dataset is filtered on the window taken from the scale and the user bounds. The loop as written carries `min`/`max` from one dataset to the next (lines 130-135). So the constructor, `DownsamplePlugin.Chart.Downsample` and `DownsamplePlugin.Chart.BeforeUpdate`, which run this pass, promise the corrected behaviour too. The loop as written is `PassAsWritten`, and `PassAsWrittenAgrees` shows the two can differ only when both user bounds are timestamps one day apart and the scale does not span one day; in that case they may still agree, for example with a single dataset (see "## Findings").
- Non-integer thresholds: thresholds are integers in the model. A fractional one, such as `chart.downsample(width / 2)`, is not modelled. In the source the bucket loop then runs `ceil(threshold - 2)` times, so more than `threshold` points come out, and the last bucket can end past the data: with 10 points and threshold 3.5, bucket 1 is `[6, 11)` and line 80 reads `data[10]`, which is undefined, and the program throws.
- Option values of the wrong type (`null`, strings, non-numeric thresholds) are not modelled. An option explicitly set to `undefined`, which `helpers.extend` copies over the default, is not modelled either. Options are typed and absent ones are `None`.
- DownsamplePlugin.Chart.Downsample: takes `Option<int>`, while the source accepts any defined value as the new threshold.
- A user bound that is neither undefined, the empty string, nor a date is not modelled.
- `restoreOriginalData` and `preferOriginalData` are carried in the options but never read, as in the source.
- `afterDatasetsUpdate` is empty and `beforeDatasetsUpdate` is commented out, so neither is modelled.
- Plugin registration with `Chart.pluginService` and the lookup of the Chart.js global are host wiring and are not modelled.
- Chart.js itself (scales, layout, redraw) is not part of this model. The scale bounds and user bounds are fields the host sets.

## Findings

| source | as written | input that shows it | evidently intended | confidence | as-written member | corrected member |
|---|---|---|---|---|---|---|
| src/chartjs-plugin-downsample.js:125-135 | the locals `min` and `max` are overwritten with the user bounds inside the per-dataset loop, so from the second dataset on, the one-day test `max-min === 86400000` reads the user bounds instead of the scale | scale 0..1000 ms, `time.min` = 0, `time.max` = 86400000, two equal datasets with points at t = 0 and t = 100000000, threshold 1000: the first dataset becomes `[t=0]` and the second keeps both points | every dataset of one pass uses the same window, taken from the scale and the user bounds | not executed | DownsamplePlugin.CarryOverCounterexample | DownsamplePlugin.RefreshAll |
