# SALA plots: a Dafny model of the clock plot and the light plot

This project models the computational core of `SALA/plots.py`, the
plotting module of SALA (a library for sleep and light analysis). The
module has two parts.

- `ClockPlot` draws one polar panel per group of a timing table. A panel
  holds:
  - night arcs before sunrise and after sunset;
  - one onset band and one offset band per light threshold, each spanning
    the interquartile range of first or last light, with a median marker;
  - a sleep band;
  - a legend;
  - a title with subject, date and person-day counts.
- `LightPlot` overlays light series. Each series is a centre curve with a
  shaded band, chosen by plot type: mean ± standard error, sample counts,
  or median with quartiles.

The model keeps the following decisions of these two functions, and
records them instead of drawing them (what it leaves out, such as the
light-exposure figures and the title's formatting, is listed under
"Left out"):
- Strings: clock labels, legend labels and the axis label.
- Integers: the minutes enumerated into bars, the thresholds used, the
  y-limit, the ticks and the title's three counts.
- Control flow: which legend entry each threshold gets, which rows each
  part of a panel is computed from, and which error is raised.

Modules:

- `Wrappers`: `Option`, `Result`, and `Collect`. `Collect` turns a sequence
  of results into the first failure or into all of the values.
- `PyFormat`: Python's `str` of an int and the format specs `{:02d}` and
  `{:3d}`.
- `Seqs`: filtering (pandas boolean indexing), `Distinct` (pandas `unique`,
  which keeps the order of first appearance) and the maximum of a list.
- `NumpyRange`: `np.arange` over integers, with and without a step.
- `ClockPlot`:
  - `print_time`;
  - `mins_to_radians`;
  - the night arcs;
  - the threshold fallback;
  - the threshold loop with its `added` flag;
  - a whole panel, and the figure as one panel per group.

  The loops and the code around them are methods, each proved against
  specification functions, and lemmas state the source's promises about
  those functions:
  - `DrawThreshold` is one pass of the threshold loop. It raises exactly
    where `ThresholdError` says, and otherwise extends the legend by
    `EntriesFor` of that threshold.
  - `ThresholdLoop` is the whole loop. It raises exactly where
    `ThresholdError` says, and otherwise builds the legend `LightLegend`
    and the bands of every threshold.
  - `DrawPanel` equals `PanelSpec`, and `Plot` equals `PlotSpec`.
- `LightPlot`: the length check, the `plot_type` dispatch and its loops over
  the series, and the palette loop.
  - `ComputeBands` is the dispatch, proved against `SeriesBands` and
    `YLimit`.
  - `ColorCurves` is the palette loop, proved to give the list of curves
    the series and labels determine.
  - `Plot`, the whole function, is proved equal to the function `PlotSpec`.

Conventions:

- A clock position is kept as a fraction of a full turn, `x / 1440` as a
  `real`. The source multiplies that by 2π, and π is not modelled.
- pandas statistics are supplied by the caller as function values:
  - `ClockPlot.Stats` gives the quartiles of a column of minutes;
  - `LightPlot.Stats` gives the mean, standard error, median and quartiles
    of a bucket's present readings.

  The model therefore holds for any integer-valued statistics of
  `ClockPlot` and any real-valued ones of `LightPlot`. The
  sample count of `LightPlot` is computed, since it is integer logic.
- The model keeps three of the places where `ClockPlot.plot` raises, each
  as a `ClockError` (see `ClockPlot.ThresholdError` and `ClockPlot.PlotSpec`);
  the ones it omits are listed under "Left out":
  - `NoThresholds`: line 109 divides by `len(thresholds)`, which fails when
    no threshold is given and the table has none.
  - `NoRowsAtThreshold`: a threshold without rows in a group has NaN
    quartiles, and `np.arange` at line 43 rejects NaN.
  - `PaletteExhausted`: `colors[i]` at line 172 fails past the seven colours
    of "Set2".
- The model keeps four of the places where `LightPlot.plot` raises, each as
  a `LightError`; the ones it omits are listed under "Left out":
  - `LengthMismatch`: `data_list` and `labels` differ in length.
  - `UnknownPlotType`: an unrecognised `plot_type`.
  - `EmptyMaximum`: `np.max` of an empty list, for "counts" with no series.
  - `PaletteExhausted`: the palette has fewer colours than there are series.

## Model

| member | source | states |
|---|---|---|
| `ClockPlot.TruncDiv` | SALA/plots.py:58 | `int(a / 60.)` truncates toward zero: for a >= 0 the quotient q has q·d <= a < q·d + d, for a < 0 it has q·d - d < a <= q·d |
| `ClockPlot.PrintTime` | SALA/plots.py:46-62 | for a non-negative count the label has at least five characters and a colon third from the end |
| `ClockPlot.PrintTimeRoundTrip` | SALA/plots.py:58-62 | every non-negative count reads back as hour = whole hours (minus 24 once they reach 24) and minute = count mod 60 |
| `ClockPlot.PrintTimeInDay` | SALA/plots.py:58-62 | within a day the label is the two-digit hour, ':', and the two-digit minute |
| `ClockPlot.PrintTimeWrapsOnce` | SALA/plots.py:60-61 | a count in the second day gives the same label as the count one day earlier |
| `ClockPlot.PrintTimeNoSecondWrap` | SALA/plots.py:60-61 | the wrap happens only once: from 2880 minutes on, the hour field stays at 24 or more |
| `ClockPlot.PrintTimeShape` | SALA/plots.py:62 | below two days the label is exactly five characters with the colon in the middle |
| `ClockPlot.PrintTimeInjectiveInDay` | SALA/plots.py:58-62 | two minutes of the same day with the same label are equal |
| `ClockPlot.PrintTimeExamples` | SALA/plots.py:58-62 | 0 prints as "00:00" and 720 as "12:00" |
| `ClockPlot.PrintTimeWrapExample` | SALA/plots.py:60-62 | 1500 prints as "01:00" |
| `ClockPlot.PrintTimeSecondDayExample` | SALA/plots.py:60-62 | 2900 prints as "24:20" |
| `ClockPlot.PrintTimeNegativeExample` | SALA/plots.py:58-62 | -90 prints as "-1:-30" (truncation toward zero, and `{:02d}` puts the sign before the padding) |
| `PyFormat.IntToString` | SALA/plots.py:196 | `str` of an int: a non-negative number prints as digits, without a leading zero when positive; a negative one as "-" followed by digits |
| `PyFormat.IntToStringRoundTrip` | SALA/plots.py:196 | the printed digits read back as the number, or as its magnitude after the "-" |
| `PyFormat.Decimal` | SALA/plots.py:62 | `str` of a natural number: only digits, one digit exactly below 10, no leading zero |
| `PyFormat.DecimalRoundTrip` | SALA/plots.py:62 | reading the decimal digits back gives the number |
| `PyFormat.ZeroPad2` | SALA/plots.py:62 | `{:02d}`: two digits for 0..99, all digits and at least two for any non-negative number, plain `str` for a negative one |
| `PyFormat.ZeroPad2Value` | SALA/plots.py:62 | a zero-padded number reads back as itself |
| `PyFormat.SpacePad3` | SALA/plots.py:182 | `{:3d}`: at least three characters, with the number's `str` right-aligned after spaces |
| `NumpyRange.Arange` | SALA/plots.py:43 | `np.arange(a, b)` over ints has `b - a` elements (none when `b <= a`), element k being `a + k` |
| `NumpyRange.ArangeMembers` | SALA/plots.py:43 | x is enumerated exactly when a <= x < b |
| `NumpyRange.ArangeIncreasing` | SALA/plots.py:43 | the enumeration is strictly increasing |
| `NumpyRange.ArangeBy` | SALA/plots.py:347 | `np.arange(start, stop, step)`: element k is `start + k * step`, all below stop, and the next one would not be |
| `NumpyRange.ArangeByMembers` | SALA/plots.py:347 | x is enumerated exactly when start <= x < stop and x - start is a multiple of step |
| `NumpyRange.MultiplesBelow` | SALA/plots.py:347 | `np.arange(step, stop, step)` enumerates exactly the positive multiples of step below stop |
| `ClockPlot.Turn` | SALA/plots.py:43 | a minute of the day lies in [0, 1) of a turn, and turns times 1440 gives back the minute |
| `ClockPlot.Turns` | SALA/plots.py:43 | the list comprehension keeps the length; element k times 1440 is the k-th minute listed, and a minute of the day lands in [0, 1) of a turn |
| `ClockPlot.MinsToRadians` | SALA/plots.py:39-43 | the band has one position per integer minute from the 25th percentile up to the 75th, minute p25 + k at index k, and the median's position goes with it |
| `ClockPlot.MinsToRadiansBand` | SALA/plots.py:43 | a position is in the band exactly when it is that of a minute in [p25, p75) |
| `ClockPlot.NightMinutes` | SALA/plots.py:154-156 | the morning arc enumerates 0, 1, ..., sunrise - 1 (nothing when sunrise <= 0), the evening arc sunset, ..., 1439 (nothing when sunset >= 1440) |
| `ClockPlot.NightMinutesExact` | SALA/plots.py:154-156 | the morning arc covers exactly [0, sunrise) and the evening arc exactly [sunset, 1440); when sunrise <= sunset the arcs are disjoint and a minute of the day is dark exactly when it is outside [sunrise, sunset) |
| `Seqs.Filter` | SALA/plots.py:164 | boolean indexing keeps exactly the rows that satisfy the condition, and never more rows than there were |
| `Seqs.Distinct` | SALA/plots.py:105 | `unique()` has no duplicates, the same elements as its input, and at most as many |
| `Seqs.FirstIndex` | SALA/plots.py:105 | the first position where a value occurs: it holds the value and no earlier position does |
| `Seqs.DistinctFirstAppearance` | SALA/plots.py:105 | `unique()` lists the values in the order of their first appearance in the input |
| `Seqs.DistinctCard` | SALA/plots.py:239-241 | `len(unique())` is the number of distinct values: the size of the set of the input's elements |
| `Seqs.MaxOf` | SALA/plots.py:303 | `np.max` of a non-empty list is one of its elements and bounds all of them |
| `ClockPlot.ResolveThresholds` | SALA/plots.py:104-105 | a list with an element is used unchanged and in its order; a missing or empty list is replaced by the table's thresholds, each once |
| `ClockPlot.LabelText` | SALA/plots.py:182-214 | a plain label `'{}lx'` ends in "lx" and its digits read back as the threshold; a detailed label `'{:3d}lx {}-{}'` of a threshold below 1000 has "lx " in columns 3 to 5; a sleep label starts with "Sleep " (where the threshold and the medians sit: `ClockPlot.LabelShowsThreshold`, `ClockPlot.LabelShowsMedians`) |
| `ClockPlot.LabelShowsThreshold` | SALA/plots.py:182-184 | a detailed label of a threshold below 1000 lux shows the threshold in columns 0 to 2 as `{:3d}` renders it: its digits right-aligned after spaces |
| `ClockPlot.MedianTimes` | SALA/plots.py:182-214 | the `'{}-{}'` of two medians within two days is the onset's five-character clock time, a dash, and the offset's |
| `ClockPlot.LabelShowsMedians` | SALA/plots.py:182-214 | a detailed label of a threshold below 1000 lux, and a sleep label, with medians within two days are 17 characters wide, so the monospace legend lines up, and show the onset median's clock time in columns 6 to 10, a dash, and the offset median's in columns 12 to 16 |
| `ClockPlot.LabelTimesReadBack` | SALA/plots.py:182-214 | within a day, the two times such a label shows read back as the hour and minute of its onset and offset medians |
| `ClockPlot.EntriesFor` | SALA/plots.py:177-196 | one pass adds at most one legend entry, one exactly when the onset or the offset band is non-empty, and that entry points at the pass's own threshold |
| `ClockPlot.LightLegend` | SALA/plots.py:159-196 | the threshold legend never has more entries than there are thresholds |
| `ClockPlot.LightLegendBounded` | SALA/plots.py:162-196 | every threshold entry points at a band of a threshold of the list, never at the sleep band |
| `ClockPlot.LightLegendOrdered` | SALA/plots.py:162-196 | the threshold entries come in strictly increasing threshold index, so each threshold appears at most once |
| `ClockPlot.LightLegendIndexed` | SALA/plots.py:162-196 | the entries that belong to threshold i are exactly those its own pass of the loop appended |
| `ClockPlot.LightLegendLength` | SALA/plots.py:162-196 | there is one threshold entry per threshold whose onset or offset band is non-empty |
| `ClockPlot.LightLegendEntryKinds` | SALA/plots.py:177-196 | a threshold gets the detailed onset entry exactly when its onset band is non-empty, gets the plain `"{t}lx"` offset entry exactly when only its offset band is, and gets some entry exactly when either band is |
| `ClockPlot.ThresholdError` | SALA/plots.py:162-172 | the loop raises only for a threshold of the list without rows, or for the eighth threshold, past the seven colours; getting through leaves at most seven thresholds drawn |
| `ClockPlot.ThresholdErrorIff` | SALA/plots.py:162-172 | the threshold loop gets through without raising exactly when there are at most seven thresholds and each has a row in the group |
| `ClockPlot.ThresholdErrorPersists` | SALA/plots.py:162-172 | once a threshold raises, the loop's error is that threshold's error |
| `ClockPlot.DrawThreshold` | SALA/plots.py:163-196 | one pass of the loop: it raises exactly where the threshold has no rows or no colour, and otherwise appends that threshold's entry to the legend lists (the `added` flag stops the plain label after a detailed one) |
| `ClockPlot.ThresholdLoop` | SALA/plots.py:159-196 | the whole loop: it raises exactly when the specification says, and otherwise builds the threshold legend, one band pair per threshold in order, and leaves behind the rows of the last threshold |
| `ClockPlot.DrawPanel` | SALA/plots.py:145-248 | one group's panel, step by step, is the specified panel or the specified error |
| `ClockPlot.DrawnPanel` | SALA/plots.py:145-241 | a drawn panel names its group, has one band pair per threshold, ends its legend with the sleep entry, and counts at most as many subjects and dates as the group has rows and at most as many person-days as the last threshold has rows (the exact counts are `ClockPlot.PanelCounts`) |
| `ClockPlot.PanelCounts` | SALA/plots.py:239-241 | the title's counts are the number of distinct subjects and of distinct dates of the group's rows, and the number of distinct (subject, date) pairs among the rows of the last threshold |
| `ClockPlot.SubjectCount` | SALA/plots.py:239 | `len(current_group["UID"].unique())` is the number of distinct subjects of the rows |
| `ClockPlot.DateCount` | SALA/plots.py:240 | `len(current_group["Date"].unique())` is the number of distinct dates of the rows |
| `ClockPlot.SubjectDayCount` | SALA/plots.py:241 | `len(drop_duplicates())` of the (UID, Date) columns is the number of distinct (subject, date) pairs of the rows |
| `ClockPlot.PanelSpec` | SALA/plots.py:145-196 | a group's panel is drawn exactly when there are at most seven thresholds and each has a row in the group, and then it is labelled with that group |
| `ClockPlot.PanelLegend` | SALA/plots.py:159-215 | the legend has one entry per threshold with a non-empty band, plus the sleep entry, which is last and appears only once |
| `ClockPlot.PanelSleep` | SALA/plots.py:198-215 | the sleep band and the sleep label come from the rows of the last threshold iterated, not from the whole group |
| `ClockPlot.PanelPersonDays` | SALA/plots.py:241 | the person-day count of a drawn panel is the number of distinct (subject, date) pairs among the rows of the last threshold: positive, and at most the number of those rows |
| `ClockPlot.GroupPanelsAt` | SALA/plots.py:145-148 | the k-th panel is drawn from the rows of the k-th distinct group alone |
| `ClockPlot.GroupPanelsGroups` | SALA/plots.py:142-148 | every panel that can be drawn carries the name of the group it was drawn for |
| `ClockPlot.PlotSpec` | SALA/plots.py:104-148 | a figure that is drawn has one panel per distinct group, and panel k is labelled with the k-th distinct group |
| `ClockPlot.Plot` | SALA/plots.py:104-248 | the figure, group by group, equals the specified figure or its first error |
| `ClockPlot.PlotNoThresholds` | SALA/plots.py:104-109 | the plot fails for lack of thresholds exactly when no threshold list is given and the table is empty |
| `ClockPlot.PlotPanels` | SALA/plots.py:142-148 | with thresholds, the plot succeeds exactly when every group's panel can be drawn, and then it has one panel per distinct group, in order of first appearance |
| `ClockPlot.PlotFailure` | SALA/plots.py:145-196 | a failing plot raises the error of one of its groups' panels |
| `LightPlot.Present` | SALA/plots.py:305 | the readings pandas keeps are the present readings, each as many times as it occurs among the samples, and never more than the samples |
| `LightPlot.CountPlusMissing` | SALA/plots.py:305 | `count()` plus the number of missing readings is the number of samples |
| `LightPlot.CountExtremes` | SALA/plots.py:305 | a bucket with no missing reading counts all its samples; one with only missing readings counts none |
| `LightPlot.SeriesBands` | SALA/plots.py:290-312 | each band edge has one value per bucket; the "counts" bands collapse onto the centre curve and the "mean/sem" bands are symmetric about it |
| `LightPlot.YLimit` | SALA/plots.py:301-303 | the caller's y-limit except for "counts", where it is ten times the bucket count of the longest series: at least ten times every series' count and equal to one of them |
| `LightPlot.PlotSpec` | SALA/plots.py:282-350 | a drawn chart has one curve per series and per label, no more than the palette has colours, a recognised type and the type's y-limit; a palette error names the palette size, which is below the number of series |
| `LightPlot.ComputeBands` | SALA/plots.py:284-314 | the dispatch raises for an unrecognised type and for "counts" with no series; otherwise its three lists are the bands of every series, and its tick increment, axis name and y-limit are those of the type |
| `LightPlot.ColorCurves` | SALA/plots.py:318-338 | the drawing loop raises once the palette runs out, and otherwise gives series k the k-th label, the palette colour k and its own bucket times |
| `LightPlot.Plot` | SALA/plots.py:282-350 | the whole function, step by step, equals the specified chart or error |
| `LightPlot.PlotSucceeds` | SALA/plots.py:282-323 | the plot draws exactly when the lengths match, the type is recognised, "counts" has a series and the palette has a colour for every series |
| `LightPlot.PlotErrors` | SALA/plots.py:282-323 | each error is raised by its own condition: length mismatch first, then unknown type, then the empty maximum, then the palette |
| `LightPlot.PlotCurves` | SALA/plots.py:321-338 | one curve per series, in order, with its own label and bucket times, bands as long as the series, and colours that are all distinct and within the palette |
| `LightPlot.PlotAxis` | SALA/plots.py:287-350 | "mean/sem" and "quantiles" keep the caller's y-limit and use ticks every 200 with "Lux mean/sem" or "Lux quantiles"; "counts" uses ticks every 5000 and "Number of Samples counts" |
| `LightPlot.CountsLimit` | SALA/plots.py:301-303 | for "counts" the y-limit is ten times the bucket count of the longest series: at least ten times every series' bucket count, and equal to it for one of them |
| `LightPlot.PlotTicks` | SALA/plots.py:346-347 | the y ticks are exactly the positive multiples of the tick increment below the y-limit |
| `LightPlot.DefaultTicks` | SALA/plots.py:259 | the default y-limit 2500 gives the ticks 200, 400, ..., 2400 |
| `LightPlot.MeanSemBands` | SALA/plots.py:290-296 | the centre is the mean, the band edges are the mean minus and plus the standard error, the band is symmetric, and it encloses the mean when the error is non-negative |
| `LightPlot.CountBands` | SALA/plots.py:304-307 | the count band collapses onto the number of present readings, which lies between zero and the bucket's sample count |
| `LightPlot.QuantileBands` | SALA/plots.py:308-312 | the centre is the median and the band edges are the 25th and 75th percentiles of the present readings |

## Left out

- Rendering (every matplotlib and seaborn call, figure layout, colours as
  hex, the theta grid, the legend placement): these are calls into charting
  libraries whose code is not part of this model. A panel or chart records
  what would be drawn.
- pandas and numpy statistics (`median`, `quantile`, `mean`, `sem`) are
  abstract caller-supplied functions. Float rounding, NaN propagation and
  pandas' interpolation between quantiles are not modelled. A threshold
  without rows is treated as the `np.arange(NaN, NaN)` error; other NaN
  inputs are out of scope.
- Minutes and quartiles are integers. For a float input to `print_time`,
  `int(mins / 60.)` is the truncation of the real quotient, so the integer
  model is exact up to float rounding. `np.arange(p25, p75)` over fractional
  quartiles would start at the fractional p25 and is not modelled.
- Timezone handling (SALA/plots.py:117-140) needs pandas and pytz timezone
  objects, so it is left out. Sunrise and sunset enter as minutes after
  local midnight. In the source:
  - the `tz_localize` results at lines 119 and 122 are discarded;
  - `.dt.tz.zone` on timezone-naive data raises, rather than warning;
  - the night arcs are drawn even after the mismatch warning.
- Three of the places where the source raises are not modelled, since the
  model has no counterpart for what triggers them:
  - `.dt.tz.zone` when `timezone` is None and the data is timezone naive,
    at SALA/plots.py:124-125, and the `tz_localize` calls at lines 134-140
    (timezones are not modelled);
  - the `KeyError` at SALA/plots.py:329 for a series whose column is not
    named 'White Light' (series are modelled without column names);
  - the float `0/0` and the `ValueError` of `int(NaN)` at SALA/plots.py:330-331
    for a series without readings (the exposure arithmetic is not modelled,
    see below).
- The type check on `pd.Series` (SALA/plots.py:37-38) is a runtime type
  test on a library type with no counterpart here.
- The radial layout floats (`box_rad`, `bar_width`, `box_sep`, the bar
  bottoms) are not modelled. The one integer consequence of `box_rad` is
  modelled: it divides by zero when there are no thresholds.
- The centre-of-light-exposure and cumulative-exposure arithmetic and its
  console output (SALA/plots.py:324-335) are float means, `datetime.time`
  objects and printing. The legend label of a series is the given label,
  without the exposure suffix line 335 appends.
- `sort_index` in `LightPlot.plot`: a grouped series already comes in
  increasing time order, so the model keeps the buckets' order.
- `LightPlot.plot`'s palette is modelled by its number of colours. An
  unknown seaborn palette name is not modelled.
- The panel title string (SALA/plots.py:244-246): its formatting is not
  modelled. Its three counts are, in `ClockPlot.PanelCounts`.
- The "counts" y-limit is not ten times the largest sample count. The code
  computes `x.max().to_frame().shape[0]`, which is the number of time
  buckets of a series. The model follows the code (`BucketCounts`,
  `LightPlot.CountsLimit`).
