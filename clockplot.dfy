/** The integer and string logic of `ClockPlot` in SALA/plots.py: clock-time
    labels, the one-bar-per-minute discretisation of a range of minutes onto the
    clock face, and the per-group panel (night arcs, one band pair per light
    threshold, the sleep band, the legend and the title counts). Drawing is not
    modelled: a panel records what would be drawn. */
module ClockPlot {
  import opened Wrappers
  import opened PyFormat
  import opened Seqs
  import opened NumpyRange

  // ---------------------------------------------------------------------------
  // print_time

  /** `int(a / d)` in Python for an int `a`: the quotient truncated toward zero. */
  function TruncDiv(a: int, d: int): (q: int)
    requires d > 0
    ensures a >= 0 ==> q * d <= a < q * d + d
    ensures a < 0 ==> q * d - d < a <= q * d
  {
    if a >= 0 then a / d else -((-a) / d)
  }

  /** The hour field: whole hours, brought back by 24 once if they reach 24. */
  function HourField(mins: int): int {
    var h := TruncDiv(mins, 60);
    if h >= 24 then h - 24 else h
  }

  /** The minute field: what is left over after the whole hours. */
  function MinuteField(mins: int): int {
    mins - TruncDiv(mins, 60) * 60
  }

  /** `ClockPlot.print_time`: a minute count as `"HH:MM"`. */
  function PrintTime(mins: int): (r: string)
    ensures mins >= 0 ==> |r| >= 5 && r[|r| - 3] == ':'
  {
    ZeroPad2(HourField(mins)) + ":" + ZeroPad2(MinuteField(mins))
  }

  /** Reads a label of the form `<digits>:<two digits>` back into its hour and
      minute fields. */
  function ParseTime(s: string): Option<(nat, nat)> {
    if |s| >= 4 && s[|s| - 3] == ':' && AllDigits(s[..|s| - 3]) && AllDigits(s[|s| - 2..])
    then Some((DecimalValue(s[..|s| - 3]), DecimalValue(s[|s| - 2..])))
    else None
  }

  /** For every non-negative count the label reads back as the hour (wrapped
      once) and the minute of that count. */
  lemma PrintTimeRoundTrip(mins: int)
    requires mins >= 0
    ensures ParseTime(PrintTime(mins))
            == Some((if mins / 60 >= 24 then mins / 60 - 24 else mins / 60, mins % 60))
  {
    var h, m := HourField(mins), MinuteField(mins);
    assert h >= 0 && m == mins % 60;
    var hs, ms := ZeroPad2(h), ZeroPad2(m);
    var s := PrintTime(mins);
    assert s == hs + ":" + ms;
    assert |ms| == 2;
    assert s[..|s| - 3] == hs;
    assert s[|s| - 2..] == ms;
    ZeroPad2Value(h);
    ZeroPad2Value(m);
  }

  /** Within a day the label is the two-digit hour, a colon and the two-digit
      minute. */
  lemma PrintTimeInDay(mins: int)
    requires 0 <= mins < 1440
    ensures PrintTime(mins)
            == [DigitChar(mins / 600), DigitChar(mins / 60 % 10), ':',
                DigitChar(mins % 60 / 10), DigitChar(mins % 10)]
  {
    assert mins / 60 / 10 == mins / 600;
    assert mins % 60 % 10 == mins % 10;
  }

  /** A count in the second day reads as the same clock time one day earlier. */
  lemma PrintTimeWrapsOnce(mins: int)
    requires 1440 <= mins < 2880
    ensures PrintTime(mins) == PrintTime(mins - 1440)
    ensures HourField(mins) == mins / 60 - 24
  {
    assert (mins - 1440) / 60 == mins / 60 - 24;
    assert (mins - 1440) % 60 == mins % 60;
  }

  /** The wrap is applied only once: from the third day on, the hour field
      keeps a value of 24 or more. */
  lemma PrintTimeNoSecondWrap(mins: int)
    requires mins >= 2880
    ensures ParseTime(PrintTime(mins)) == Some((mins / 60 - 24, mins % 60))
    ensures mins / 60 - 24 >= 24
  {
    PrintTimeRoundTrip(mins);
  }

  /** Below two days the label is exactly five characters with the colon in the
      middle. */
  lemma PrintTimeShape(mins: int)
    requires 0 <= mins < 2880
    ensures |PrintTime(mins)| == 5 && PrintTime(mins)[2] == ':'
  {
    if mins < 1440 {
      PrintTimeInDay(mins);
    } else {
      PrintTimeWrapsOnce(mins);
      PrintTimeInDay(mins - 1440);
    }
  }

  /** Distinct minutes of one day get distinct labels. */
  lemma PrintTimeInjectiveInDay(a: int, b: int)
    requires 0 <= a < 1440 && 0 <= b < 1440
    requires PrintTime(a) == PrintTime(b)
    ensures a == b
  {
    PrintTimeRoundTrip(a);
    PrintTimeRoundTrip(b);
    assert a / 60 == b / 60 && a % 60 == b % 60;
  }

  /** Midnight and noon. */
  lemma PrintTimeExamples()
    ensures PrintTime(0) == "00:00"
    ensures PrintTime(720) == "12:00"
  {
    PrintTimeInDay(0);
    PrintTimeInDay(720);
  }

  /** 1500 minutes is one hour into the next day. */
  lemma PrintTimeWrapExample()
    ensures PrintTime(1500) == "01:00"
  {
    PrintTimeWrapsOnce(1500);
    PrintTimeInDay(60);
  }

  /** 2900 minutes is past the second midnight, yet reads as hour 24. */
  lemma PrintTimeSecondDayExample()
    ensures PrintTime(2900) == "24:20"
  {
    assert HourField(2900) == 24 && MinuteField(2900) == 20;
    assert Decimal(24) == "24" && Decimal(20) == "20";
  }

  /** A negative count keeps Python's signs: hour -1 and minute -30. */
  lemma PrintTimeNegativeExample()
    ensures PrintTime(-90) == "-1:-30"
  {
    assert HourField(-90) == -1 && MinuteField(-90) == -30;
    assert ZeroPad2(-1) == "-1";
    assert Decimal(30) == "30";
  }

  // ---------------------------------------------------------------------------
  // mins_to_radians and the night arcs

  /** The quartiles pandas reports for a column of minutes (`quantile(0.25)`,
      `median()`, `quantile(0.75)`); pandas itself is not modelled. */
  datatype Summary = Summary(p25: int, median: int, p75: int)

  /** Statistics of a column, supplied by the caller in place of pandas. */
  type Stats = seq<int> -> Summary

  /** The position of minute `x` on the clock face, as a fraction of a full
      turn (the plot multiplies it by 2 pi). */
  function Turn(x: int): (t: real)
    ensures 0 <= x < 1440 ==> 0.0 <= t < 1.0
    ensures t * 1440.0 == x as real
  {
    x as real / 1440.0
  }

  /** A list comprehension mapping minutes to their positions. */
  function Turns(xs: seq<int>): (r: seq<real>)
    ensures |r| == |xs|
    ensures forall k :: 0 <= k < |xs| ==> r[k] * 1440.0 == xs[k] as real
    ensures forall k :: 0 <= k < |xs| && 0 <= xs[k] < 1440 ==> 0.0 <= r[k] < 1.0
  {
    seq(|xs|, k requires 0 <= k < |xs| => Turn(xs[k]))
  }

  /** An enumerated band on the clock face and the position of its median. */
  datatype Arc = Arc(band: seq<real>, median: real)

  /** `ClockPlot.mins_to_radians`: one position per integer minute from the
      25th percentile up to the 75th, and the median's position. */
  function MinsToRadians(q: Summary): (a: Arc)
    ensures |a.band| == if q.p75 <= q.p25 then 0 else q.p75 - q.p25
    ensures forall k :: 0 <= k < |a.band| ==> a.band[k] * 1440.0 == (q.p25 + k) as real
    ensures a.median * 1440.0 == q.median as real
  {
    Arc(Turns(Arange(q.p25, q.p75)), Turn(q.median))
  }

  /** A position lies in the band exactly when it is that of a minute from the
      25th percentile (included) to the 75th (excluded). */
  lemma MinsToRadiansBand(q: Summary, t: real)
    ensures t in MinsToRadians(q).band <==> exists x :: q.p25 <= x < q.p75 && t == Turn(x)
  {
    var band := MinsToRadians(q).band;
    if t in band {
      var k :| 0 <= k < |band| && band[k] == t;
      assert Arange(q.p25, q.p75)[k] == q.p25 + k;
    }
    if exists x :: q.p25 <= x < q.p75 && t == Turn(x) {
      var x :| q.p25 <= x < q.p75 && t == Turn(x);
      assert band[x - q.p25] == Turn(x);
    }
  }

  /** The minutes shaded dark: `np.arange(0, sunrise)` and `np.arange(sunset, 1440)`. */
  function NightMinutes(sunrise: int, sunset: int): (r: (seq<int>, seq<int>))
    ensures |r.0| == if sunrise <= 0 then 0 else sunrise
    ensures |r.1| == if sunset >= 1440 then 0 else 1440 - sunset
    ensures forall k :: 0 <= k < |r.0| ==> r.0[k] == k
    ensures forall k :: 0 <= k < |r.1| ==> r.1[k] == sunset + k
  {
    (Arange(0, sunrise), Arange(sunset, 1440))
  }

  /** The morning arc covers exactly the minutes before sunrise, the evening arc
      exactly those from sunset to midnight; they never share a minute when
      sunrise is not after sunset, and then a minute of the day is dark exactly
      when it is outside daylight. */
  lemma NightMinutesExact(sunrise: int, sunset: int, x: int)
    ensures x in NightMinutes(sunrise, sunset).0 <==> 0 <= x < sunrise
    ensures x in NightMinutes(sunrise, sunset).1 <==> sunset <= x < 1440
    ensures sunrise <= sunset ==>
              !(x in NightMinutes(sunrise, sunset).0 && x in NightMinutes(sunrise, sunset).1)
    ensures sunrise <= sunset && 0 <= x < 1440 ==>
              (x in NightMinutes(sunrise, sunset).0 + NightMinutes(sunrise, sunset).1
               <==> !(sunrise <= x < sunset))
  {
    ArangeMembers(0, sunrise, x);
    ArangeMembers(sunset, 1440, x);
  }

  // ---------------------------------------------------------------------------
  // The rows of a timing table

  /** One row of the timing table: a subject-day at one light threshold. The
      sunrise and sunset columns are already minutes after local midnight. */
  datatype Row = Row(
    uid: int, date: int, threshold: int, group: string,
    sunrise: int, sunset: int,
    sleepOnset: int, sleepOffset: int,
    minsToFirstLight: int, minsToLastLight: int)

  function Thresholds(rows: seq<Row>): seq<int> {
    seq(|rows|, i requires 0 <= i < |rows| => rows[i].threshold)
  }

  function Groups(rows: seq<Row>): seq<string> {
    seq(|rows|, i requires 0 <= i < |rows| => rows[i].group)
  }

  function Sunrises(rows: seq<Row>): seq<int> {
    seq(|rows|, i requires 0 <= i < |rows| => rows[i].sunrise)
  }

  function Sunsets(rows: seq<Row>): seq<int> {
    seq(|rows|, i requires 0 <= i < |rows| => rows[i].sunset)
  }

  /** First light as minutes after midnight: `4 * 60 + Mins to FL from 4AM`. */
  function LightOnsets(rows: seq<Row>): seq<int> {
    seq(|rows|, i requires 0 <= i < |rows| => 4 * 60 + rows[i].minsToFirstLight)
  }

  /** Last light as minutes after midnight: `4 * 60 + Mins to LL from 4AM`. */
  function LightOffsets(rows: seq<Row>): seq<int> {
    seq(|rows|, i requires 0 <= i < |rows| => 4 * 60 + rows[i].minsToLastLight)
  }

  function SleepOnsets(rows: seq<Row>): seq<int> {
    seq(|rows|, i requires 0 <= i < |rows| => rows[i].sleepOnset)
  }

  function SleepOffsets(rows: seq<Row>): seq<int> {
    seq(|rows|, i requires 0 <= i < |rows| => rows[i].sleepOffset)
  }

  function Uids(rows: seq<Row>): seq<int> {
    seq(|rows|, i requires 0 <= i < |rows| => rows[i].uid)
  }

  function Dates(rows: seq<Row>): seq<int> {
    seq(|rows|, i requires 0 <= i < |rows| => rows[i].date)
  }

  function SubjectDays(rows: seq<Row>): seq<(int, int)> {
    seq(|rows|, i requires 0 <= i < |rows| => (rows[i].uid, rows[i].date))
  }

  /** `current_group[current_group["Threshold"] == threshold]`. */
  function AtThreshold(rows: seq<Row>, t: int): seq<Row> {
    Filter(rows, (r: Row) => r.threshold == t)
  }

  /** `data.groupby(group_by).get_group(group)`. */
  function InGroup(rows: seq<Row>, g: string): seq<Row> {
    Filter(rows, (r: Row) => r.group == g)
  }

  /** The thresholds drawn: the given list when it has an element, otherwise
      every distinct threshold of the table in order of first appearance. */
  function ResolveThresholds(given: Option<seq<int>>, rows: seq<Row>): (r: seq<int>)
    ensures given.Some? && |given.value| >= 1 ==> r == given.value
    ensures given.None? || |given.value| < 1 ==>
              NoDuplicates(r) && forall t :: t in r <==> t in Thresholds(rows)
  {
    if given.None? || |given.value| < 1 then Distinct(Thresholds(rows)) else given.value
  }

  // ---------------------------------------------------------------------------
  // The legend

  /** What a legend entry points at: the onset or offset band of the threshold
      with that index, or the sleep-onset band. */
  datatype Handle = LightOnset(index: nat) | LightOffset(index: nat) | SleepOnset

  /** A legend label, kept as the values its format string is filled with;
      `LabelText` renders it. */
  datatype Label =
    | Detailed(threshold: int, onsetMedian: int, offsetMedian: int) // '{:3d}lx {}-{}'
    | Plain(threshold: int)                                          // '{}lx'
    | Sleep(onsetMedian: int, offsetMedian: int)                     // 'Sleep {}-{}'

  /** The two median times of a label, `'{}-{}'`: for medians within two days,
      five characters, a dash and five characters. */
  lemma MedianTimes(on: int, off: int)
    ensures 0 <= on < 2880 && 0 <= off < 2880 ==>
              var times := PrintTime(on) + "-" + PrintTime(off);
              |times| == 11 && times[..5] == PrintTime(on) && times[5] == '-' && times[6..] == PrintTime(off)
  {
    if 0 <= on < 2880 && 0 <= off < 2880 {
      PrintTimeShape(on);
      PrintTimeShape(off);
    }
  }

  /** The text of a label.
      - A plain label ends in "lx" after digits that read back as its threshold.
      - A detailed label of a threshold below 1000 lux has "lx " in columns 3
        to 5.
      - A sleep label starts with "Sleep ".
      Where the threshold sits is `LabelShowsThreshold`, and where the two
      median times sit is `LabelShowsMedians`. */
  function LabelText(l: Label): (r: string)
    ensures l.Plain? && l.threshold >= 0 ==>
              |r| >= 3 && r[|r| - 2..] == "lx" && AllDigits(r[..|r| - 2])
              && DecimalValue(r[..|r| - 2]) == l.threshold
    ensures l.Detailed? && 0 <= l.threshold < 1000 ==> |r| >= 6 && r[3..6] == "lx "
    ensures l.Sleep? ==> |r| >= 6 && r[..6] == "Sleep "
  {
    match l
    case Detailed(t, on, off) =>
      var pad, times := SpacePad3(t), PrintTime(on) + "-" + PrintTime(off);
      ThreeDigits(t);
      LabelLayout3(pad, times);
      pad + "lx " + times
    case Plain(t) =>
      var digits := IntToString(t);
      IntToStringRoundTrip(t);
      assert (digits + "lx")[..|digits|] == digits;
      digits + "lx"
    case Sleep(on, off) =>
      var times := PrintTime(on) + "-" + PrintTime(off);
      LabelPrefix("Sleep ", times);
      "Sleep " + times
  }

  /** A detailed label of a threshold below 1000 lux, and a sleep label, whose
      medians lie within two days are 17 characters wide, with the onset
      median's clock time in columns 6 to 10, a dash, and the offset median's
      clock time in columns 12 to 16. */
  lemma LabelShowsMedians(l: Label)
    ensures (l.Sleep? || (l.Detailed? && 0 <= l.threshold < 1000))
            && 0 <= l.onsetMedian < 2880 && 0 <= l.offsetMedian < 2880 ==>
              var r := LabelText(l);
              |r| == 17 && r[6..11] == PrintTime(l.onsetMedian) && r[11] == '-'
              && r[12..] == PrintTime(l.offsetMedian)
  {
    if (l.Sleep? || (l.Detailed? && 0 <= l.threshold < 1000))
       && 0 <= l.onsetMedian < 2880 && 0 <= l.offsetMedian < 2880 {
      var on, off := l.onsetMedian, l.offsetMedian;
      var times := PrintTime(on) + "-" + PrintTime(off);
      MedianTimes(on, off);
      if l.Detailed? {
        var pad := SpacePad3(l.threshold);
        ThreeDigits(l.threshold);
        assert LabelText(l) == (pad + "lx ") + times;
        LabelLayout(pad + "lx ", times);
      } else {
        assert LabelText(l) == "Sleep " + times;
        LabelLayout("Sleep ", times);
      }
    }
  }

  /** A detailed label of a threshold below 1000 lux shows that threshold in
      its first three columns, right-aligned after spaces (`{:3d}`). */
  lemma LabelShowsThreshold(l: Label)
    ensures l.Detailed? && 0 <= l.threshold < 1000 ==>
              |LabelText(l)| >= 3 && LabelText(l)[..3] == SpacePad3(l.threshold)
  {
    if l.Detailed? && 0 <= l.threshold < 1000 {
      var pad := SpacePad3(l.threshold);
      var times := PrintTime(l.onsetMedian) + "-" + PrintTime(l.offsetMedian);
      ThreeDigits(l.threshold);
      assert |pad| == 3;
      assert LabelText(l) == pad + ("lx " + times);
      LabelPrefix(pad, "lx " + times);
    }
  }

  /** Where the pieces of a label sit: six leading characters, then the two
      times. */
  lemma LabelLayout(pre: string, times: string)
    ensures |pre| == 6 && |times| == 11 ==>
              var r := pre + times;
              |r| == 17 && r[..6] == pre && r[6..11] == times[..5] && r[11] == times[5]
              && r[12..] == times[6..]
  {
  }

  /** "lx " follows a field of width three. */
  lemma LabelLayout3(pad: string, times: string)
    ensures |pad| == 3 ==> |pad + "lx " + times| >= 6 && (pad + "lx " + times)[3..6] == "lx "
  {
  }

  /** A label begins with its fixed prefix. */
  lemma LabelPrefix(pre: string, times: string)
    ensures |pre + times| >= |pre| && (pre + times)[..|pre|] == pre
  {
  }

  /** Within a day the times a detailed or sleep label shows read back as the
      hour and minute of its two medians. */
  lemma LabelTimesReadBack(l: Label)
    requires l.Sleep? || (l.Detailed? && 0 <= l.threshold < 1000)
    requires 0 <= l.onsetMedian < 1440 && 0 <= l.offsetMedian < 1440
    ensures ParseTime(LabelText(l)[6..11]) == Some((l.onsetMedian / 60, l.onsetMedian % 60))
    ensures ParseTime(LabelText(l)[12..]) == Some((l.offsetMedian / 60, l.offsetMedian % 60))
  {
    LabelShowsMedians(l);
    PrintTimeRoundTrip(l.onsetMedian);
    PrintTimeRoundTrip(l.offsetMedian);
  }

  datatype LegendEntry = LegendEntry(handle: Handle, caption: Label)

  /** The two quartile summaries computed for one threshold of a group. */
  datatype ThresholdSummary = ThresholdSummary(threshold: int, onset: Summary, offset: Summary)

  /** `len(light_box) > 0` for the onset bars: one bar per enumerated minute. */
  predicate OnsetDrawn(s: ThresholdSummary) {
    |Arange(s.onset.p25, s.onset.p75)| > 0
  }

  predicate OffsetDrawn(s: ThresholdSummary) {
    |Arange(s.offset.p25, s.offset.p75)| > 0
  }

  predicate HasEntry(s: ThresholdSummary) {
    OnsetDrawn(s) || OffsetDrawn(s)
  }

  function DetailedLabel(s: ThresholdSummary): Label {
    Detailed(s.threshold, s.onset.median, s.offset.median)
  }

  function PlainLabel(s: ThresholdSummary): Label {
    Plain(s.threshold)
  }

  /** The entry (if any) the threshold with index `i` contributes. */
  function EntriesFor(i: nat, s: ThresholdSummary): (r: seq<LegendEntry>)
    ensures |r| <= 1
    ensures |r| == 1 <==> HasEntry(s)
    ensures forall e :: e in r ==> HandleIndex(e.handle) == i
  {
    if OnsetDrawn(s) then [LegendEntry(LightOnset(i), DetailedLabel(s))]
    else if OffsetDrawn(s) then [LegendEntry(LightOffset(i), PlainLabel(s))]
    else []
  }

  /** The threshold part of the legend, threshold by threshold. */
  function LightLegend(sums: seq<ThresholdSummary>): (r: seq<LegendEntry>)
    ensures |r| <= |sums|
  {
    if |sums| == 0 then []
    else LightLegend(sums[..|sums| - 1]) + EntriesFor(|sums| - 1, sums[|sums| - 1])
  }

  function HandleIndex(h: Handle): int {
    match h
    case LightOnset(i) => i
    case LightOffset(i) => i
    case SleepOnset => -1
  }

  /** The threshold entries name thresholds of the list, never the sleep band. */
  lemma {:induction false} LightLegendBounded(sums: seq<ThresholdSummary>)
    ensures forall j :: 0 <= j < |LightLegend(sums)| ==>
              0 <= HandleIndex(LightLegend(sums)[j].handle) < |sums|
  {
    if |sums| > 0 {
      LightLegendBounded(sums[..|sums| - 1]);
    }
  }

  /** The threshold entries come in strictly increasing threshold order, so
      each threshold appears at most once. */
  lemma {:induction false} LightLegendOrdered(sums: seq<ThresholdSummary>)
    ensures forall j, k :: 0 <= j < k < |LightLegend(sums)| ==>
              HandleIndex(LightLegend(sums)[j].handle) < HandleIndex(LightLegend(sums)[k].handle)
  {
    if |sums| > 0 {
      LightLegendOrdered(sums[..|sums| - 1]);
      LightLegendBounded(sums[..|sums| - 1]);
    }
  }

  /** One entry per threshold whose onset or offset band is non-empty. */
  lemma {:induction false} LightLegendLength(sums: seq<ThresholdSummary>)
    ensures |LightLegend(sums)| == |Filter(sums, HasEntry)|
  {
    if |sums| > 0 {
      var init, last := sums[..|sums| - 1], sums[|sums| - 1];
      LightLegendLength(init);
      var extra := if HasEntry(last) then 1 else 0;
      assert |LightLegend(sums)| == |LightLegend(init)| + extra;
      FilterInit(sums, HasEntry);
    }
  }

  /** The legend of a prefix of the thresholds is a prefix of the legend, and
      every later entry belongs to a later threshold. */
  lemma {:induction false} LightLegendPrefix(sums: seq<ThresholdSummary>, m: nat)
    requires m <= |sums|
    ensures LightLegend(sums[..m]) <= LightLegend(sums)
    ensures forall j :: |LightLegend(sums[..m])| <= j < |LightLegend(sums)| ==>
              HandleIndex(LightLegend(sums)[j].handle) >= m
  {
    if m < |sums| {
      var init := sums[..|sums| - 1];
      LightLegendPrefix(init, m);
      assert init[..m] == sums[..m];
    } else {
      assert sums[..m] == sums;
    }
  }

  /** The entries of the legend that belong to threshold `i` are exactly the
      ones its own pass of the loop contributes. */
  lemma LightLegendIndexed(sums: seq<ThresholdSummary>, i: nat, e: LegendEntry)
    requires i < |sums|
    ensures e in LightLegend(sums) && HandleIndex(e.handle) == i <==> e in EntriesFor(i, sums[i])
  {
    var pre, mid, full := LightLegend(sums[..i]), EntriesFor(i, sums[i]), LightLegend(sums);
    var key := (x: LegendEntry) => HandleIndex(x.handle);
    assert pre + mid <= full && forall j :: |pre| + |mid| <= j < |full| ==> key(full[j]) > i by {
      LightLegendStep(sums, i);
      LightLegendPrefix(sums, i + 1);
    }
    assert forall j :: 0 <= j < |pre| ==> key(pre[j]) < i by {
      LightLegendBounded(sums[..i]);
    }
    KeyedSlice(full, pre, mid, key, i, e);
  }

  /** The kind of entry threshold `i` gets: the detailed onset entry exactly
      when its onset band is non-empty, the plain offset entry exactly when
      only its offset band is, and some entry exactly when either band is. */
  lemma LightLegendEntryKinds(sums: seq<ThresholdSummary>, i: nat)
    requires i < |sums|
    ensures LegendEntry(LightOnset(i), DetailedLabel(sums[i])) in LightLegend(sums)
            <==> OnsetDrawn(sums[i])
    ensures LegendEntry(LightOffset(i), PlainLabel(sums[i])) in LightLegend(sums)
            <==> !OnsetDrawn(sums[i]) && OffsetDrawn(sums[i])
    ensures (exists j :: 0 <= j < |LightLegend(sums)| && HandleIndex(LightLegend(sums)[j].handle) == i)
            <==> HasEntry(sums[i])
  {
    var full, mid := LightLegend(sums), EntriesFor(i, sums[i]);
    LightLegendIndexed(sums, i, LegendEntry(LightOnset(i), DetailedLabel(sums[i])));
    LightLegendIndexed(sums, i, LegendEntry(LightOffset(i), PlainLabel(sums[i])));
    if HasEntry(sums[i]) {
      LightLegendIndexed(sums, i, mid[0]);
      var j :| 0 <= j < |full| && full[j] == mid[0];
    }
    if exists j :: 0 <= j < |full| && HandleIndex(full[j].handle) == i {
      var j :| 0 <= j < |full| && HandleIndex(full[j].handle) == i;
      LightLegendIndexed(sums, i, full[j]);
    }
  }

  // ---------------------------------------------------------------------------
  // One panel

  datatype BandPair = BandPair(onset: Arc, offset: Arc)

  /** What one polar subplot shows. */
  datatype Panel = Panel(
    group: string,
    morning: seq<real>, evening: seq<real>,
    bands: seq<BandPair>, sleep: BandPair,
    legend: seq<LegendEntry>,
    subjects: nat, dates: nat, personDays: nat)

  /** Why `ClockPlot.plot` raises. */
  datatype ClockError =
    | NoThresholds                      // `0.3 / len(thresholds)` with no thresholds
    | NoRowsAtThreshold(threshold: int) // quartiles of an empty column are NaN; `np.arange` rejects them
    | PaletteExhausted(index: nat)      // `colors[i]` past the seven colours of "Set2"

  const PaletteSize: nat := 7

  function Summarize(rows: seq<Row>, t: int, stats: Stats): ThresholdSummary {
    var at := AtThreshold(rows, t);
    ThresholdSummary(t, stats(LightOnsets(at)), stats(LightOffsets(at)))
  }

  function Summaries(rows: seq<Row>, ths: seq<int>, stats: Stats): seq<ThresholdSummary> {
    seq(|ths|, i requires 0 <= i < |ths| => Summarize(rows, ths[i], stats))
  }

  function BandsOf(s: ThresholdSummary): BandPair {
    BandPair(MinsToRadians(s.onset), MinsToRadians(s.offset))
  }

  /** The first error met while going through the first `n` thresholds. */
  function ThresholdError(rows: seq<Row>, ths: seq<int>, n: nat): (r: Option<ClockError>)
    requires n <= |ths|
    ensures r.None? ==> n <= PaletteSize
    ensures r.Some? ==> r.value.NoRowsAtThreshold? || r.value == PaletteExhausted(PaletteSize)
    ensures r.Some? && r.value.NoRowsAtThreshold? ==>
              exists i :: 0 <= i < n && ths[i] == r.value.threshold && |AtThreshold(rows, ths[i])| == 0
  {
    if n == 0 then None
    else if ThresholdError(rows, ths, n - 1).Some? then ThresholdError(rows, ths, n - 1)
    else if |AtThreshold(rows, ths[n - 1])| == 0 then Some(NoRowsAtThreshold(ths[n - 1]))
    else if n - 1 >= PaletteSize then Some(PaletteExhausted(n - 1))
    else None
  }

  /** The thresholds go through without error exactly when there are at most
      seven of them and each has a row in the group. */
  lemma {:induction false} ThresholdErrorIff(rows: seq<Row>, ths: seq<int>, n: nat)
    requires n <= |ths|
    ensures ThresholdError(rows, ths, n).None?
            <==> n <= PaletteSize && forall i :: 0 <= i < n ==> |AtThreshold(rows, ths[i])| > 0
  {
    if n > 0 {
      ThresholdErrorIff(rows, ths, n - 1);
    }
  }

  /** An error met in a prefix of the thresholds is the error of the whole list. */
  lemma {:induction false} ThresholdErrorPersists(rows: seq<Row>, ths: seq<int>, n: nat, m: nat)
    requires n <= m <= |ths|
    requires ThresholdError(rows, ths, n).Some?
    ensures ThresholdError(rows, ths, m) == ThresholdError(rows, ths, n)
    decreases m - n
  {
    if n < m {
      ThresholdErrorPersists(rows, ths, n, m - 1);
    }
  }

  function SleepEntry(sleepOnset: Summary, sleepOffset: Summary): LegendEntry {
    LegendEntry(SleepOnset, Sleep(sleepOnset.median, sleepOffset.median))
  }

  /** The panel drawn for one group, whose rows are `rows`, once every
      threshold has gone through. The sleep band and the person-day count use
      the rows of the last threshold only. */
  function DrawnPanel(rows: seq<Row>, group: string, ths: seq<int>, stats: Stats): (p: Panel)
    requires |ths| > 0
    ensures p.group == group && |p.bands| == |ths|
    ensures |p.legend| >= 1 && p.legend[|p.legend| - 1].handle == SleepOnset
    ensures p.personDays <= |AtThreshold(rows, ths[|ths| - 1])|
    ensures p.subjects <= |rows| && p.dates <= |rows|
  {
    var sums := Summaries(rows, ths, stats);
    var last := AtThreshold(rows, ths[|ths| - 1]);
    var night := NightMinutes(stats(Sunrises(rows)).median, stats(Sunsets(rows)).median);
    var sleepOn, sleepOff := stats(SleepOnsets(last)), stats(SleepOffsets(last));
    Panel(
      group, Turns(night.0), Turns(night.1),
      seq(|sums|, i requires 0 <= i < |sums| => BandsOf(sums[i])),
      BandPair(MinsToRadians(sleepOn), MinsToRadians(sleepOff)),
      LightLegend(sums) + [SleepEntry(sleepOn, sleepOff)],
      |Distinct(Uids(rows))|, |Distinct(Dates(rows))|, |Distinct(SubjectDays(last))|)
  }

  /** The title counts: the distinct subjects and the distinct dates of the
      group, and the distinct (subject, date) pairs among the rows of the last
      threshold. */
  lemma PanelCounts(rows: seq<Row>, group: string, ths: seq<int>, stats: Stats)
    requires |ths| > 0
    ensures var p := DrawnPanel(rows, group, ths, stats);
            var last := AtThreshold(rows, ths[|ths| - 1]);
            p.subjects == |set r | r in rows :: r.uid|
            && p.dates == |set r | r in rows :: r.date|
            && p.personDays == |set r | r in last :: (r.uid, r.date)|
  {
    SubjectCount(rows);
    DateCount(rows);
    SubjectDayCount(AtThreshold(rows, ths[|ths| - 1]));
  }

  /** The number of distinct subjects of some rows. */
  lemma SubjectCount(rows: seq<Row>)
    ensures |Distinct(Uids(rows))| == |set r | r in rows :: r.uid|
  {
    var vs := Uids(rows);
    DistinctCard(vs);
    forall v | v in vs
      ensures v in (set r | r in rows :: r.uid)
    {
      var i :| 0 <= i < |vs| && vs[i] == v;
      assert rows[i] in rows;
    }
    forall r | r in rows
      ensures r.uid in (set v | v in vs)
    {
      var i :| 0 <= i < |rows| && rows[i] == r;
      assert vs[i] == r.uid;
    }
    assert (set v | v in vs) == (set r | r in rows :: r.uid);
  }

  /** The number of distinct dates of some rows. */
  lemma DateCount(rows: seq<Row>)
    ensures |Distinct(Dates(rows))| == |set r | r in rows :: r.date|
  {
    var vs := Dates(rows);
    DistinctCard(vs);
    forall v | v in vs
      ensures v in (set r | r in rows :: r.date)
    {
      var i :| 0 <= i < |vs| && vs[i] == v;
      assert rows[i] in rows;
    }
    forall r | r in rows
      ensures r.date in (set v | v in vs)
    {
      var i :| 0 <= i < |rows| && rows[i] == r;
      assert vs[i] == r.date;
    }
    assert (set v | v in vs) == (set r | r in rows :: r.date);
  }

  /** The number of distinct subject-days of some rows. */
  lemma SubjectDayCount(rows: seq<Row>)
    ensures |Distinct(SubjectDays(rows))| == |set r | r in rows :: (r.uid, r.date)|
  {
    var vs := SubjectDays(rows);
    DistinctCard(vs);
    forall v | v in vs
      ensures v in (set r | r in rows :: (r.uid, r.date))
    {
      var i :| 0 <= i < |vs| && vs[i] == v;
      assert rows[i] in rows;
    }
    forall r | r in rows
      ensures (r.uid, r.date) in (set v | v in vs)
    {
      var i :| 0 <= i < |rows| && rows[i] == r;
      assert vs[i] == (r.uid, r.date);
    }
    assert (set v | v in vs) == (set r | r in rows :: (r.uid, r.date));
  }

  /** The panel of one group, or the error raised while drawing it. */
  function PanelSpec(rows: seq<Row>, group: string, ths: seq<int>, stats: Stats)
    : (r: Result<Panel, ClockError>)
    requires |ths| > 0
    ensures r.Success? ==>
              |ths| <= PaletteSize && forall i :: 0 <= i < |ths| ==> |AtThreshold(rows, ths[i])| > 0
    ensures (|ths| <= PaletteSize && forall i :: 0 <= i < |ths| ==> |AtThreshold(rows, ths[i])| > 0)
            ==> r.Success?
    ensures r.Success? ==> r.value.group == group
  {
    ThresholdErrorIff(rows, ths, |ths|);
    var err := ThresholdError(rows, ths, |ths|);
    if err.Some? then Failure(err.value) else Success(DrawnPanel(rows, group, ths, stats))
  }

  /** The legend of a drawn panel: the threshold entries, one per threshold
      with a non-empty band, then the sleep entry, which is always last. */
  lemma PanelLegend(rows: seq<Row>, group: string, ths: seq<int>, stats: Stats)
    requires |ths| > 0
    requires PanelSpec(rows, group, ths, stats).Success?
    ensures var p := PanelSpec(rows, group, ths, stats).value;
            |p.legend| == |Filter(Summaries(rows, ths, stats), HasEntry)| + 1
            && p.legend[|p.legend| - 1].handle == SleepOnset
            && forall j :: 0 <= j < |p.legend| - 1 ==> p.legend[j].handle != SleepOnset
  {
    var sums := Summaries(rows, ths, stats);
    LightLegendLength(sums);
    LightLegendBounded(sums);
  }

  /** A drawn panel counts the distinct (subject, date) pairs of the rows of
      the last threshold: at least one, and never more than those rows. */
  lemma PanelPersonDays(rows: seq<Row>, group: string, ths: seq<int>, stats: Stats)
    requires |ths| > 0
    requires PanelSpec(rows, group, ths, stats).Success?
    ensures var p := PanelSpec(rows, group, ths, stats).value;
            var last := AtThreshold(rows, ths[|ths| - 1]);
            0 < p.personDays <= |last|
            && p.personDays == |set r | r in last :: (r.uid, r.date)|
  {
    var last := AtThreshold(rows, ths[|ths| - 1]);
    SubjectDayCount(last);
    assert |last| > 0;
    assert SubjectDays(last)[0] in Distinct(SubjectDays(last));
  }

  /** The sleep band and the sleep legend entry are computed from the rows of
      the last threshold of the list, not from every row of the group. */
  lemma PanelSleep(rows: seq<Row>, group: string, ths: seq<int>, stats: Stats)
    requires |ths| > 0
    requires PanelSpec(rows, group, ths, stats).Success?
    ensures var p := PanelSpec(rows, group, ths, stats).value;
            var last := AtThreshold(rows, ths[|ths| - 1]);
            var on, off := stats(SleepOnsets(last)), stats(SleepOffsets(last));
            p.sleep == BandPair(MinsToRadians(on), MinsToRadians(off))
            && p.legend[|p.legend| - 1].caption == Sleep(on.median, off.median)
            && forall r :: r in last ==> r in rows && r.threshold == ths[|ths| - 1]
  {
  }

  lemma LightLegendStep(sums: seq<ThresholdSummary>, i: nat)
    requires i < |sums|
    ensures LightLegend(sums[..i + 1]) == LightLegend(sums[..i]) + EntriesFor(i, sums[i])
  {
    assert sums[..i + 1][..i] == sums[..i];
  }

  /** Pairs a list of handles with the list of their labels. */
  function Entries(boxes: seq<Handle>, labels: seq<Label>): seq<LegendEntry>
    requires |boxes| == |labels|
  {
    seq(|boxes|, k requires 0 <= k < |boxes| => LegendEntry(boxes[k], labels[k]))
  }

  lemma EntriesSnoc(boxes: seq<Handle>, labels: seq<Label>, h: Handle, l: Label)
    requires |boxes| == |labels|
    ensures Entries(boxes + [h], labels + [l]) == Entries(boxes, labels) + [LegendEntry(h, l)]
  {
  }

  /** What one pass of the threshold loop leaves behind: the legend lists, the
      pair of bands drawn and the threshold's rows (`group_by_thresh`). */
  datatype Pass = Pass(lightBoxes: seq<Handle>, lightLabels: seq<Label>, bands: BandPair, rows: seq<Row>)

  /** One pass of the threshold loop of `ClockPlot.plot`: select the rows of
      threshold `i`, fail where the source raises, and otherwise append the
      threshold's legend entry, tracking whether the onset entry was `added`. */
  method DrawThreshold(rows: seq<Row>, ths: seq<int>, i: nat, stats: Stats,
                       lightBoxes: seq<Handle>, lightLabels: seq<Label>)
    returns (r: Result<Pass, ClockError>)
    requires i < |ths| && |lightBoxes| == |lightLabels|
    requires ThresholdError(rows, ths, i).None?
    ensures r.Failure? <==> ThresholdError(rows, ths, i + 1).Some?
    ensures r.Failure? ==> ThresholdError(rows, ths, i + 1) == Some(r.error)
    ensures r.Success? ==>
              var s := Summarize(rows, ths[i], stats);
              r.value.rows == AtThreshold(rows, ths[i])
              && r.value.bands == BandsOf(s)
              && |r.value.lightBoxes| == |r.value.lightLabels|
              && Entries(r.value.lightBoxes, r.value.lightLabels)
                 == Entries(lightBoxes, lightLabels) + EntriesFor(i, s)
  {
    var added := false;
    var groupByThresh := AtThreshold(rows, ths[i]);
    if |groupByThresh| == 0 {
      return Failure(NoRowsAtThreshold(ths[i]));
    }
    var s := ThresholdSummary(ths[i], stats(LightOnsets(groupByThresh)), stats(LightOffsets(groupByThresh)));
    var pair := BandsOf(s);
    if i >= PaletteSize {
      return Failure(PaletteExhausted(i));
    }
    var boxes, labels := lightBoxes, lightLabels;
    if |pair.onset.band| > 0 {
      EntriesSnoc(boxes, labels, LightOnset(i), DetailedLabel(s));
      boxes := boxes + [LightOnset(i)];
      labels := labels + [DetailedLabel(s)];
      added := true;
    }
    if |pair.offset.band| > 0 && !added {
      EntriesSnoc(boxes, labels, LightOffset(i), PlainLabel(s));
      boxes := boxes + [LightOffset(i)];
      labels := labels + [PlainLabel(s)];
    }
    r := Success(Pass(boxes, labels, pair, groupByThresh));
  }

  /** What the threshold loop leaves behind: the legend lists, every pair of
      bands drawn and the last threshold's rows. */
  datatype Loop = Loop(lightBoxes: seq<Handle>, lightLabels: seq<Label>, bands: seq<BandPair>, rows: seq<Row>)

  /** What holds after the first `i` passes of the threshold loop. */
  ghost predicate ThresholdLoopInv(rows: seq<Row>, ths: seq<int>, stats: Stats, i: nat,
                                   lightBoxes: seq<Handle>, lightLabels: seq<Label>,
                                   bands: seq<BandPair>, groupByThresh: seq<Row>)
    requires i <= |ths|
  {
    var sums := Summaries(rows, ths, stats);
    ThresholdError(rows, ths, i).None?
    && |lightBoxes| == |lightLabels|
    && Entries(lightBoxes, lightLabels) == LightLegend(sums[..i])
    && |bands| == i && (forall k :: 0 <= k < i ==> bands[k] == BandsOf(sums[k]))
    && (i > 0 ==> groupByThresh == AtThreshold(rows, ths[i - 1]))
  }

  /** A pass that goes through keeps the loop invariant. */
  lemma ThresholdLoopStep(rows: seq<Row>, ths: seq<int>, stats: Stats, i: nat,
                          lightBoxes: seq<Handle>, lightLabels: seq<Label>,
                          bands: seq<BandPair>, groupByThresh: seq<Row>, pass: Pass)
    requires i < |ths|
    requires ThresholdLoopInv(rows, ths, stats, i, lightBoxes, lightLabels, bands, groupByThresh)
    requires ThresholdError(rows, ths, i + 1).None?
    requires pass.rows == AtThreshold(rows, ths[i])
    requires pass.bands == BandsOf(Summarize(rows, ths[i], stats))
    requires |pass.lightBoxes| == |pass.lightLabels|
    requires Entries(pass.lightBoxes, pass.lightLabels)
             == Entries(lightBoxes, lightLabels) + EntriesFor(i, Summarize(rows, ths[i], stats))
    ensures ThresholdLoopInv(rows, ths, stats, i + 1, pass.lightBoxes, pass.lightLabels,
                             bands + [pass.bands], pass.rows)
  {
    LightLegendStep(Summaries(rows, ths, stats), i);
  }

  /** The threshold loop of `ClockPlot.plot`. */
  method ThresholdLoop(rows: seq<Row>, ths: seq<int>, stats: Stats)
    returns (r: Result<Loop, ClockError>)
    requires |ths| > 0
    ensures r.Failure? <==> ThresholdError(rows, ths, |ths|).Some?
    ensures r.Failure? ==> ThresholdError(rows, ths, |ths|) == Some(r.error)
    ensures r.Success? ==>
              var sums := Summaries(rows, ths, stats);
              |r.value.lightBoxes| == |r.value.lightLabels|
              && Entries(r.value.lightBoxes, r.value.lightLabels) == LightLegend(sums)
              && |r.value.bands| == |ths|
              && (forall k :: 0 <= k < |ths| ==> r.value.bands[k] == BandsOf(sums[k]))
              && r.value.rows == AtThreshold(rows, ths[|ths| - 1])
  {
    var lightBoxes: seq<Handle> := [];
    var lightLabels: seq<Label> := [];
    var groupByThresh: seq<Row> := [];
    var bands: seq<BandPair> := [];
    var i := 0;
    while i < |ths|
      invariant 0 <= i <= |ths|
      invariant ThresholdLoopInv(rows, ths, stats, i, lightBoxes, lightLabels, bands, groupByThresh)
    {
      var pass := DrawThreshold(rows, ths, i, stats, lightBoxes, lightLabels);
      if pass.Failure? {
        ThresholdErrorPersists(rows, ths, i + 1, |ths|);
        return Failure(pass.error);
      }
      ThresholdLoopStep(rows, ths, stats, i, lightBoxes, lightLabels, bands, groupByThresh, pass.value);
      lightBoxes, lightLabels := pass.value.lightBoxes, pass.value.lightLabels;
      bands := bands + [pass.value.bands];
      groupByThresh := pass.value.rows;
      i := i + 1;
    }
    assert Summaries(rows, ths, stats)[..i] == Summaries(rows, ths, stats);
    r := Success(Loop(lightBoxes, lightLabels, bands, groupByThresh));
  }

  /** The body of the group loop of `ClockPlot.plot`: the night arcs, the
      threshold loop, then the sleep band, the legend and the title counts. */
  method DrawPanel(rows: seq<Row>, group: string, ths: seq<int>, stats: Stats)
    returns (r: Result<Panel, ClockError>)
    requires |ths| > 0
    ensures r == PanelSpec(rows, group, ths, stats)
  {
    var sunrise := stats(Sunrises(rows)).median;
    var sunset := stats(Sunsets(rows)).median;
    var morning := Turns(Arange(0, sunrise));
    var evening := Turns(Arange(sunset, 1440));

    var loop := ThresholdLoop(rows, ths, stats);
    if loop.Failure? {
      return Failure(loop.error);
    }
    var lightBoxes, lightLabels, groupByThresh := loop.value.lightBoxes, loop.value.lightLabels, loop.value.rows;
    var bands := loop.value.bands;
    ghost var sums := Summaries(rows, ths, stats);
    assert bands == seq(|sums|, k requires 0 <= k < |sums| => BandsOf(sums[k]));

    var sleepOn := stats(SleepOnsets(groupByThresh));
    var sleepOff := stats(SleepOffsets(groupByThresh));
    EntriesSnoc(lightBoxes, lightLabels, SleepOnset, SleepEntry(sleepOn, sleepOff).caption);
    lightBoxes := lightBoxes + [SleepOnset];
    lightLabels := lightLabels + [SleepEntry(sleepOn, sleepOff).caption];

    var subjects := |Distinct(Uids(rows))|;
    var dates := |Distinct(Dates(rows))|;
    var personDays := |Distinct(SubjectDays(groupByThresh))|;
    r := Success(Panel(
      group, morning, evening, bands,
      BandPair(MinsToRadians(sleepOn), MinsToRadians(sleepOff)),
      Entries(lightBoxes, lightLabels),
      subjects, dates, personDays));
  }

  // ---------------------------------------------------------------------------
  // The whole figure

  /** What drawing each group gives, group by group. */
  function GroupPanels(rows: seq<Row>, groups: seq<string>, ths: seq<int>, stats: Stats)
    : (r: seq<Result<Panel, ClockError>>)
    requires |ths| > 0
    ensures |r| == |groups|
  {
    if |groups| == 0 then []
    else
      var g := groups[|groups| - 1];
      GroupPanels(rows, groups[..|groups| - 1], ths, stats) + [PanelSpec(InGroup(rows, g), g, ths, stats)]
  }

  /** Entry `k` is the panel drawn from the rows of group `k` alone. */
  lemma {:induction false} GroupPanelsAt(rows: seq<Row>, groups: seq<string>, ths: seq<int>, stats: Stats, k: nat)
    requires |ths| > 0 && k < |groups|
    ensures GroupPanels(rows, groups, ths, stats)[k] == PanelSpec(InGroup(rows, groups[k]), groups[k], ths, stats)
  {
    if k < |groups| - 1 {
      GroupPanelsAt(rows, groups[..|groups| - 1], ths, stats, k);
    }
  }

  /** A panel that can be drawn is labelled with its own group. */
  lemma GroupPanelsGroups(rows: seq<Row>, groups: seq<string>, ths: seq<int>, stats: Stats)
    requires |ths| > 0
    ensures forall k :: 0 <= k < |groups| && GroupPanels(rows, groups, ths, stats)[k].Success? ==>
              GroupPanels(rows, groups, ths, stats)[k].value.group == groups[k]
  {
    forall k | 0 <= k < |groups| && GroupPanels(rows, groups, ths, stats)[k].Success?
      ensures GroupPanels(rows, groups, ths, stats)[k].value.group == groups[k]
    {
      GroupPanelsAt(rows, groups, ths, stats, k);
    }
  }

  /** `ClockPlot.plot`: one panel per distinct group value, in order of first
      appearance, or the first error raised. */
  function PlotSpec(rows: seq<Row>, thresholds: Option<seq<int>>, stats: Stats)
    : (r: Result<seq<Panel>, ClockError>)
    ensures r.Success? ==> |r.value| == |Distinct(Groups(rows))|
    ensures r.Success? ==> forall k :: 0 <= k < |r.value| ==> r.value[k].group == Distinct(Groups(rows))[k]
  {
    var ths := ResolveThresholds(thresholds, rows);
    if |ths| == 0 then Failure(NoThresholds)
    else
      var results := GroupPanels(rows, Distinct(Groups(rows)), ths, stats);
      CollectIff(results);
      GroupPanelsGroups(rows, Distinct(Groups(rows)), ths, stats);
      Collect(results)
  }

  method Plot(rows: seq<Row>, thresholds: Option<seq<int>>, stats: Stats)
    returns (r: Result<seq<Panel>, ClockError>)
    ensures r == PlotSpec(rows, thresholds, stats)
  {
    var ths := ResolveThresholds(thresholds, rows);
    if |ths| == 0 {
      return Failure(NoThresholds);
    }
    var groups := Distinct(Groups(rows));
    ghost var results := GroupPanels(rows, groups, ths, stats);
    var panels: seq<Panel> := [];
    for k := 0 to |groups|
      invariant Collect(results[..k]) == Success(panels)
    {
      var p := DrawPanel(InGroup(rows, groups[k]), groups[k], ths, stats);
      GroupPanelsAt(rows, groups, ths, stats, k);
      CollectStep(results, k);
      if p.Failure? {
        CollectFailurePersists(results, k + 1);
        return Failure(p.error);
      }
      panels := panels + [p.value];
    }
    assert results[..|groups|] == results;
    r := Success(panels);
  }

  /** The plot raises for want of thresholds exactly when none are given and
      the table has no rows. */
  lemma PlotNoThresholds(rows: seq<Row>, thresholds: Option<seq<int>>, stats: Stats)
    ensures PlotSpec(rows, thresholds, stats) == Failure(NoThresholds)
            <==> (thresholds.None? || |thresholds.value| < 1) && |rows| == 0
  {
    var ths := ResolveThresholds(thresholds, rows);
    if |rows| > 0 && (thresholds.None? || |thresholds.value| < 1) {
      assert Thresholds(rows)[0] in ths;
    }
    if |ths| > 0 {
      var groups := Distinct(Groups(rows));
      var results := GroupPanels(rows, groups, ths, stats);
      CollectIff(results);
      if Collect(results).Failure? {
        var k :| 0 <= k < |results| && results[k] == Failure(Collect(results).error)
                 && forall j :: 0 <= j < k ==> results[j].Success?;
        GroupPanelsAt(rows, groups, ths, stats, k);
      }
    }
  }

  /** Given thresholds, the plot succeeds exactly when every group's panel
      can be drawn, and then draws one panel per distinct group (in order of
      first appearance), each from that group's rows alone. */
  lemma PlotPanels(rows: seq<Row>, thresholds: Option<seq<int>>, stats: Stats)
    requires |ResolveThresholds(thresholds, rows)| > 0
    ensures (forall k :: 0 <= k < |Distinct(Groups(rows))| ==>
              GroupPanels(rows, Distinct(Groups(rows)), ResolveThresholds(thresholds, rows), stats)[k].Success?)
            ==> PlotSpec(rows, thresholds, stats).Success?
    ensures PlotSpec(rows, thresholds, stats).Success? ==>
              forall k :: 0 <= k < |Distinct(Groups(rows))| ==>
                GroupPanels(rows, Distinct(Groups(rows)), ResolveThresholds(thresholds, rows), stats)[k].Success?
    ensures PlotSpec(rows, thresholds, stats).Success? ==>
              |PlotSpec(rows, thresholds, stats).value| == |Distinct(Groups(rows))|
    ensures PlotSpec(rows, thresholds, stats).Success? ==>
              forall k :: 0 <= k < |Distinct(Groups(rows))| ==>
                PlotSpec(rows, thresholds, stats).value[k]
                == GroupPanels(rows, Distinct(Groups(rows)), ResolveThresholds(thresholds, rows), stats)[k].value
  {
    var results := GroupPanels(rows, Distinct(Groups(rows)), ResolveThresholds(thresholds, rows), stats);
    var plot := PlotSpec(rows, thresholds, stats);
    assert plot == Collect(results);
    CollectIff(results);
    if plot.Failure? {
      var k :| 0 <= k < |results| && results[k] == Failure(plot.error);
      assert !results[k].Success?;
    }
  }

  /** Otherwise the plot raises the error of some group's panel. */
  lemma PlotFailure(rows: seq<Row>, thresholds: Option<seq<int>>, stats: Stats)
    requires |ResolveThresholds(thresholds, rows)| > 0
    requires PlotSpec(rows, thresholds, stats).Failure?
    ensures exists k :: 0 <= k < |Distinct(Groups(rows))|
              && GroupPanels(rows, Distinct(Groups(rows)), ResolveThresholds(thresholds, rows), stats)[k]
                 == Failure(PlotSpec(rows, thresholds, stats).error)
  {
    var results := GroupPanels(rows, Distinct(Groups(rows)), ResolveThresholds(thresholds, rows), stats);
    var plot := PlotSpec(rows, thresholds, stats);
    assert plot == Collect(results);
    CollectIff(results);
    var k :| 0 <= k < |results| && results[k] == Failure(plot.error);
    assert results[k] == Failure(plot.error);
  }
}
