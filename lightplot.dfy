/** Model of `LightPlot.plot` in SALA/plots.py: the length check, the
    plot-type dispatch that fixes the tick increment, the axis label and the
    y-limit, the loops that build the centre curve and the lower and upper
    band of every series, and the palette loop that gives each series its
    colour. */
module LightPlot {
  import opened Wrappers
  import opened Seqs
  import opened NumpyRange

  /** One time-of-day bucket of a grouped light series: its key and its
      samples, `None` for a missing reading. The key stands for the index
      value of the series (a time of day with seconds); it is carried to the
      chart as the x value and never interpreted. */
  datatype Bucket = Bucket(time: int, samples: seq<Option<real>>)

  /** The statistics pandas computes over the present samples of a bucket. */
  datatype Stats = Stats(
    mean: seq<real> -> real,
    sem: seq<real> -> real,
    median: seq<real> -> real,
    q25: seq<real> -> real,
    q75: seq<real> -> real)

  /** The centre curve and the two band edges of one series, bucket by bucket. */
  datatype Bands = Bands(mid: seq<real>, low: seq<real>, high: seq<real>)

  /** One drawn series: legend label, palette index, x values and bands. */
  datatype Curve = Curve(legend: string, color: nat, times: seq<int>, bands: Bands)

  datatype Chart = Chart(curves: seq<Curve>, yLim: int, ticks: seq<int>, yLabel: string)

  datatype LightError =
    | LengthMismatch
    | UnknownPlotType
    | EmptyMaximum
    | PaletteExhausted(index: nat)

  const MeanSem: string := "mean/sem"
  const Counts: string := "counts"
  const Quantiles: string := "quantiles"

  predicate KnownPlotType(plotType: string) {
    plotType == MeanSem || plotType == Counts || plotType == Quantiles
  }

  /** The readings of a bucket that are present, in order (pandas skips
      missing values). */
  function Present(samples: seq<Option<real>>): (r: seq<real>)
    ensures |r| <= |samples|
    ensures forall v :: v in r <==> Some(v) in samples
    ensures forall v :: multiset(r)[v] == multiset(samples)[Some(v)]
  {
    if |samples| == 0 then []
    else
      var init, last := samples[..|samples| - 1], samples[|samples| - 1];
      assert samples == init + [last];
      assert forall o :: o in samples <==> o in init || o == last;
      Present(init) + (if last.Some? then [last.value] else [])
  }

  /** The number of present readings of a bucket (`count`). */
  function Count(b: Bucket): nat {
    |Present(b.samples)|
  }

  /** Every sample is either counted or missing. */
  lemma {:induction false} CountPlusMissing(samples: seq<Option<real>>)
    ensures |Present(samples)| + multiset(samples)[None] == |samples|
  {
    if |samples| > 0 {
      var init := samples[..|samples| - 1];
      CountPlusMissing(init);
      assert samples == init + [samples[|samples| - 1]];
    }
  }

  function Times(data: seq<Bucket>): seq<int> {
    seq(|data|, k requires 0 <= k < |data| => data[k].time)
  }

  /** Applies a statistic to every bucket. */
  function PerBucket(data: seq<Bucket>, f: seq<real> -> real): seq<real> {
    seq(|data|, k requires 0 <= k < |data| => f(Present(data[k].samples)))
  }

  function CountCurve(data: seq<Bucket>): seq<real> {
    seq(|data|, k requires 0 <= k < |data| => Count(data[k]) as real)
  }

  /** Element-wise `a - b` and `a + b` of two aligned series. */
  function Minus(a: seq<real>, b: seq<real>): seq<real>
    requires |a| == |b|
  {
    seq(|a|, k requires 0 <= k < |a| => a[k] - b[k])
  }

  function Plus(a: seq<real>, b: seq<real>): seq<real>
    requires |a| == |b|
  {
    seq(|a|, k requires 0 <= k < |a| => a[k] + b[k])
  }

  /** The bands of one series under a recognised plot type: one value per
      bucket on each edge; the count bands collapse onto the centre curve and
      the mean/sem bands are symmetric about it. */
  function SeriesBands(data: seq<Bucket>, plotType: string, st: Stats): (b: Bands)
    requires KnownPlotType(plotType)
    ensures |b.mid| == |b.low| == |b.high| == |data|
    ensures plotType == Counts ==> b.low == b.mid && b.high == b.mid
    ensures plotType == MeanSem ==>
              forall k :: 0 <= k < |data| ==> b.high[k] - b.mid[k] == b.mid[k] - b.low[k]
  {
    if plotType == MeanSem then
      var m := PerBucket(data, st.mean);
      var e := PerBucket(data, st.sem);
      Bands(m, Minus(m, e), Plus(m, e))
    else if plotType == Counts then
      var c := CountCurve(data);
      Bands(c, c, c)
    else
      Bands(PerBucket(data, st.median), PerBucket(data, st.q25), PerBucket(data, st.q75))
  }

  function TickIncrement(plotType: string): int {
    if plotType == Counts then 5000 else 200
  }

  function AxisName(plotType: string): string {
    if plotType == Counts then "Number of Samples" else "Lux"
  }

  /** The number of time buckets of each series (`x.max().to_frame().shape[0]`). */
  function BucketCounts(dataList: seq<seq<Bucket>>): seq<int> {
    seq(|dataList|, k requires 0 <= k < |dataList| => |dataList[k]|)
  }

  /** The upper y-limit: the caller's, or ten times the largest bucket count
      for "counts". */
  function YLimit(dataList: seq<seq<Bucket>>, plotType: string, yLim: int): (lim: int)
    requires plotType == Counts ==> |dataList| > 0
    ensures plotType != Counts ==> lim == yLim
    ensures plotType == Counts ==>
              (forall k :: 0 <= k < |dataList| ==> 10 * |dataList[k]| <= lim)
              && exists k :: 0 <= k < |dataList| && lim == 10 * |dataList[k]|
  {
    if plotType == Counts then
      var counts := BucketCounts(dataList);
      assert forall k :: 0 <= k < |dataList| ==> counts[k] == |dataList[k]|;
      MaxOf(counts) * 10
    else yLim
  }

  /** What LightPlot.plot draws, or the error it raises. `paletteSize` is the
      number of colours of the chosen seaborn palette. */
  function PlotSpec(dataList: seq<seq<Bucket>>, labels: seq<string>, paletteSize: nat,
                    plotType: string, yLim: int, st: Stats): (r: Result<Chart, LightError>)
    ensures r.Success? ==> |r.value.curves| == |dataList| == |labels| <= paletteSize
    ensures r.Success? ==>
              KnownPlotType(plotType) && (plotType == Counts ==> |dataList| > 0)
              && r.value.yLim == YLimit(dataList, plotType, yLim)
    ensures r.Failure? && r.error.PaletteExhausted? ==> r.error.index == paletteSize < |dataList|
  {
    if |dataList| != |labels| then Failure(LengthMismatch)
    else if !KnownPlotType(plotType) then Failure(UnknownPlotType)
    else if plotType == Counts && |dataList| == 0 then Failure(EmptyMaximum)
    else if |dataList| > paletteSize then Failure(PaletteExhausted(paletteSize))
    else
      var lim := YLimit(dataList, plotType, yLim);
      var tinc := TickIncrement(plotType);
      var curves := seq(|dataList|, k requires 0 <= k < |dataList| =>
                          Curve(labels[k], k, Times(dataList[k]), SeriesBands(dataList[k], plotType, st)));
      Success(Chart(curves, lim, ArangeBy(tinc, lim, tinc), AxisName(plotType) + " " + plotType))
  }

  /** The three per-series lists `d_m`, `d_low` and `d_high` agree with the
      bands of the first `k` series. */
  ghost predicate BandsSoFar(dataList: seq<seq<Bucket>>, plotType: string, st: Stats,
                             dM: seq<seq<real>>, dLow: seq<seq<real>>, dHigh: seq<seq<real>>, k: nat)
    requires KnownPlotType(plotType) && k <= |dataList|
  {
    |dM| == k && |dLow| == k && |dHigh| == k
    && forall j :: 0 <= j < k ==> Bands(dM[j], dLow[j], dHigh[j]) == SeriesBands(dataList[j], plotType, st)
  }

  /** What the dispatch on the plot type leaves behind: the three lists and
      the tick increment, axis name and y-limit. */
  datatype Dispatch = Dispatch(dM: seq<seq<real>>, dLow: seq<seq<real>>, dHigh: seq<seq<real>>,
                               tinc: int, yLabel: string, yLim: int)

  /** The `plot_type` branches of LightPlot.plot, with their loops over the
      series. */
  method ComputeBands(dataList: seq<seq<Bucket>>, plotType: string, yLim: int, st: Stats)
    returns (r: Result<Dispatch, LightError>)
    ensures !KnownPlotType(plotType) ==> r == Failure(UnknownPlotType)
    ensures plotType == Counts && |dataList| == 0 ==> r == Failure(EmptyMaximum)
    ensures KnownPlotType(plotType) && (plotType == Counts ==> |dataList| > 0) ==>
              r.Success?
              && BandsSoFar(dataList, plotType, st, r.value.dM, r.value.dLow, r.value.dHigh, |dataList|)
              && r.value.tinc == TickIncrement(plotType) && r.value.yLabel == AxisName(plotType)
              && r.value.yLim == YLimit(dataList, plotType, yLim)
  {
    var dM: seq<seq<real>> := [];
    var dLow: seq<seq<real>> := [];
    var dHigh: seq<seq<real>> := [];
    var tinc := 200;
    var yLabel := "Lux";
    var lim := yLim;
    if plotType == MeanSem {
      for k := 0 to |dataList|
        invariant BandsSoFar(dataList, plotType, st, dM, dLow, dHigh, k)
      {
        dM := dM + [PerBucket(dataList[k], st.mean)];
        var tmp := PerBucket(dataList[k], st.sem);
        dLow := dLow + [Minus(dM[k], tmp)];
        dHigh := dHigh + [Plus(dM[k], tmp)];
      }
    } else if plotType == Counts {
      tinc := 5000;
      yLabel := "Number of Samples";
      var yChoices := BucketCounts(dataList);
      if |yChoices| == 0 {
        return Failure(EmptyMaximum);
      }
      lim := MaxOf(yChoices) * 10;
      for k := 0 to |dataList|
        invariant BandsSoFar(dataList, plotType, st, dM, dLow, dHigh, k)
      {
        dM := dM + [CountCurve(dataList[k])];
        dLow := dLow + [dM[k]];
        dHigh := dHigh + [dM[k]];
      }
    } else if plotType == Quantiles {
      for k := 0 to |dataList|
        invariant BandsSoFar(dataList, plotType, st, dM, dLow, dHigh, k)
      {
        dM := dM + [PerBucket(dataList[k], st.median)];
        dLow := dLow + [PerBucket(dataList[k], st.q25)];
        dHigh := dHigh + [PerBucket(dataList[k], st.q75)];
      }
    } else {
      return Failure(UnknownPlotType);
    }
    r := Success(Dispatch(dM, dLow, dHigh, tinc, yLabel, lim));
  }

  /** The drawing loop: one colour per series, taken from the palette in
      order until it runs out. */
  method ColorCurves(dataList: seq<seq<Bucket>>, labels: seq<string>, paletteSize: nat,
                     dM: seq<seq<real>>, dLow: seq<seq<real>>, dHigh: seq<seq<real>>)
    returns (r: Result<seq<Curve>, LightError>)
    requires |labels| == |dM| == |dLow| == |dHigh| == |dataList|
    ensures |dataList| > paletteSize ==> r == Failure(PaletteExhausted(paletteSize))
    ensures |dataList| <= paletteSize ==>
              r.Success? && |r.value| == |dataList|
              && forall j :: 0 <= j < |dataList| ==>
                   r.value[j] == Curve(labels[j], j, Times(dataList[j]), Bands(dM[j], dLow[j], dHigh[j]))
  {
    var curves: seq<Curve> := [];
    var paletteIdx := 0;
    for k := 0 to |dataList|
      invariant paletteIdx == k <= paletteSize && |curves| == k
      invariant forall j :: 0 <= j < k ==>
                  curves[j] == Curve(labels[j], j, Times(dataList[j]), Bands(dM[j], dLow[j], dHigh[j]))
    {
      if paletteIdx >= paletteSize {
        return Failure(PaletteExhausted(paletteIdx));
      }
      var color := paletteIdx;
      paletteIdx := paletteIdx + 1;
      curves := curves + [Curve(labels[k], color, Times(dataList[k]), Bands(dM[k], dLow[k], dHigh[k]))];
    }
    r := Success(curves);
  }

  /** LightPlot.plot, step by step. */
  method Plot(dataList: seq<seq<Bucket>>, labels: seq<string>, paletteSize: nat,
              plotType: string, yLim: int, st: Stats) returns (r: Result<Chart, LightError>)
    ensures r == PlotSpec(dataList, labels, paletteSize, plotType, yLim, st)
  {
    if |dataList| != |labels| {
      return Failure(LengthMismatch);
    }
    var d := ComputeBands(dataList, plotType, yLim, st);
    if d.Failure? {
      return Failure(d.error);
    }
    var curves := ColorCurves(dataList, labels, paletteSize, d.value.dM, d.value.dLow, d.value.dHigh);
    if curves.Failure? {
      return Failure(curves.error);
    }
    assert curves.value == PlotSpec(dataList, labels, paletteSize, plotType, yLim, st).value.curves;
    var lim := d.value.yLim;
    r := Success(Chart(curves.value, lim, ArangeBy(d.value.tinc, lim, d.value.tinc), d.value.yLabel + " " + plotType));
  }

  /** The plot draws exactly when there is one label per series, the plot
      type is recognised, "counts" has at least one series and the palette
      has a colour for every series. */
  lemma PlotSucceeds(dataList: seq<seq<Bucket>>, labels: seq<string>, paletteSize: nat,
                     plotType: string, yLim: int, st: Stats)
    ensures PlotSpec(dataList, labels, paletteSize, plotType, yLim, st).Success?
            <==> |dataList| == |labels| && KnownPlotType(plotType)
                 && (plotType == Counts ==> |dataList| > 0) && |dataList| <= paletteSize
  {
  }

  /** Each error is raised by its own condition, checked in the order of the
      source: lengths, plot type, empty maximum, palette. */
  lemma PlotErrors(dataList: seq<seq<Bucket>>, labels: seq<string>, paletteSize: nat,
                   plotType: string, yLim: int, st: Stats)
    ensures PlotSpec(dataList, labels, paletteSize, plotType, yLim, st) == Failure(LengthMismatch)
            <==> |dataList| != |labels|
    ensures PlotSpec(dataList, labels, paletteSize, plotType, yLim, st) == Failure(UnknownPlotType)
            <==> |dataList| == |labels| && !KnownPlotType(plotType)
    ensures PlotSpec(dataList, labels, paletteSize, plotType, yLim, st) == Failure(EmptyMaximum)
            <==> |labels| == 0 && plotType == Counts && |dataList| == 0
    ensures PlotSpec(dataList, labels, paletteSize, plotType, yLim, st).Failure?
            && PlotSpec(dataList, labels, paletteSize, plotType, yLim, st).error.PaletteExhausted?
            <==> |dataList| == |labels| && KnownPlotType(plotType) && |dataList| > 0 && |dataList| > paletteSize
  {
  }

  /** One curve per series, in order, with its own label, its own bucket
      times and a palette colour no other curve uses. */
  lemma PlotCurves(dataList: seq<seq<Bucket>>, labels: seq<string>, paletteSize: nat,
                   plotType: string, yLim: int, st: Stats)
    requires PlotSpec(dataList, labels, paletteSize, plotType, yLim, st).Success?
    ensures var c := PlotSpec(dataList, labels, paletteSize, plotType, yLim, st).value.curves;
            |c| == |dataList| == |labels|
            && (forall k :: 0 <= k < |c| ==> c[k].legend == labels[k] && c[k].color < paletteSize)
            && (forall k :: 0 <= k < |c| ==> c[k].times == Times(dataList[k]))
            && (forall k :: 0 <= k < |c| ==> |c[k].bands.mid| == |c[k].bands.low| == |c[k].bands.high| == |dataList[k]|)
            && (forall i, j :: 0 <= i < j < |c| ==> c[i].color != c[j].color)
  {
  }

  /** The tick increment, the axis label and the y-limit of each plot type. */
  lemma PlotAxis(dataList: seq<seq<Bucket>>, labels: seq<string>, paletteSize: nat,
                 plotType: string, yLim: int, st: Stats)
    requires PlotSpec(dataList, labels, paletteSize, plotType, yLim, st).Success?
    ensures var chart := PlotSpec(dataList, labels, paletteSize, plotType, yLim, st).value;
            (plotType == MeanSem ==>
               chart.yLabel == "Lux mean/sem" && chart.yLim == yLim && chart.ticks == ArangeBy(200, yLim, 200))
            && (plotType == Quantiles ==>
               chart.yLabel == "Lux quantiles" && chart.yLim == yLim && chart.ticks == ArangeBy(200, yLim, 200))
            && (plotType == Counts ==>
               chart.yLabel == "Number of Samples counts" && chart.ticks == ArangeBy(5000, chart.yLim, 5000))
  {
  }

  /** For "counts" the y-limit is ten times the number of buckets of the
      longest series: at least ten times every series' length, and attained
      by one of them. */
  lemma CountsLimit(dataList: seq<seq<Bucket>>, labels: seq<string>, paletteSize: nat, yLim: int, st: Stats)
    requires PlotSpec(dataList, labels, paletteSize, Counts, yLim, st).Success?
    ensures var lim := PlotSpec(dataList, labels, paletteSize, Counts, yLim, st).value.yLim;
            (forall k :: 0 <= k < |dataList| ==> 10 * |dataList[k]| <= lim)
            && (exists k :: 0 <= k < |dataList| && lim == 10 * |dataList[k]|)
  {
    var counts := BucketCounts(dataList);
    var k :| 0 <= k < |counts| && counts[k] == MaxOf(counts);
    assert PlotSpec(dataList, labels, paletteSize, Counts, yLim, st).value.yLim == 10 * |dataList[k]|;
  }

  /** The y ticks are exactly the positive multiples of the tick increment
      below the y-limit. */
  lemma PlotTicks(dataList: seq<seq<Bucket>>, labels: seq<string>, paletteSize: nat,
                  plotType: string, yLim: int, st: Stats, t: int)
    requires PlotSpec(dataList, labels, paletteSize, plotType, yLim, st).Success?
    ensures var chart := PlotSpec(dataList, labels, paletteSize, plotType, yLim, st).value;
            t in chart.ticks <==> 0 < t < chart.yLim && t % TickIncrement(plotType) == 0
  {
    var tinc := TickIncrement(plotType);
    var chart := PlotSpec(dataList, labels, paletteSize, plotType, yLim, st).value;
    assert chart.ticks == ArangeBy(tinc, chart.yLim, tinc);
    MultiplesBelow(tinc, chart.yLim, t);
  }

  /** The default mean/sem chart (y-limit 2500) has the ticks 200, 400, ..., 2400. */
  lemma DefaultTicks()
    ensures ArangeBy(200, 2500, 200) == [200, 400, 600, 800, 1000, 1200, 1400, 1600, 1800, 2000, 2200, 2400]
  {
    var r := ArangeBy(200, 2500, 200);
    assert |r| == 12;
  }

  /** Mean/sem bands lie the standard error either side of the mean; with
      a non-negative error they enclose it. */
  lemma MeanSemBands(data: seq<Bucket>, st: Stats, k: nat)
    requires k < |data|
    ensures var b := SeriesBands(data, MeanSem, st);
            var m := st.mean(Present(data[k].samples));
            var e := st.sem(Present(data[k].samples));
            b.mid[k] == m && b.low[k] == m - e && b.high[k] == m + e
            && b.high[k] - b.mid[k] == b.mid[k] - b.low[k]
            && (e >= 0.0 ==> b.low[k] <= b.mid[k] <= b.high[k])
  {
  }

  /** Count bands collapse onto the number of present readings, which is
      between zero and the number of samples of the bucket. */
  lemma CountBands(data: seq<Bucket>, st: Stats, k: nat)
    requires k < |data|
    ensures var b := SeriesBands(data, Counts, st);
            b.mid[k] == b.low[k] == b.high[k] == Count(data[k]) as real
            && 0.0 <= b.mid[k] <= |data[k].samples| as real
  {
  }

  /** Quantile bands are the median between the 25th and 75th percentiles. */
  lemma QuantileBands(data: seq<Bucket>, st: Stats, k: nat)
    requires k < |data|
    ensures var b := SeriesBands(data, Quantiles, st);
            var xs := Present(data[k].samples);
            b.mid[k] == st.median(xs) && b.low[k] == st.q25(xs) && b.high[k] == st.q75(xs)
  {
  }

  /** A bucket without missing readings counts all of its samples; one with
      only missing readings counts none. */
  lemma CountExtremes(samples: seq<Option<real>>)
    ensures (forall k :: 0 <= k < |samples| ==> samples[k].Some?) ==> |Present(samples)| == |samples|
    ensures (forall k :: 0 <= k < |samples| ==> samples[k].None?) ==> Present(samples) == []
  {
    CountPlusMissing(samples);
    if forall k :: 0 <= k < |samples| ==> samples[k].Some? {
      assert None !in samples;
    }
    if forall k :: 0 <= k < |samples| ==> samples[k].None? {
      assert forall v :: Some(v) !in samples;
      assert forall v :: v !in Present(samples);
    }
  }
}
