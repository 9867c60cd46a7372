/**
 * The rolling chart history of the overview charts: four parallel
 * buffers of capacity 7 (temperature, humidity, light and the time
 * label), updated by shift-then-push, and the null-filtering projection
 * that turns one metric into chart labels and points.
 */
module OverviewChart {
  import opened Wrappers
  import opened Text

  /** Slots per buffer (`Array(7).fill(null)`). */
  const Capacity: nat := 7

  /** The wall clock at push time, the part of `new Date()` that the label uses. */
  datatype Time = Time(hours: nat, minutes: nat)

  /** The argument of `updateHistoricalData`. */
  datatype Sample = Sample(temperature: int, humidity: int, light: int)

  datatype DataType = Temperature | Humidity | Light

  /** What `generateChartData` hands to the chart: the kept labels and the kept numbers. */
  datatype ChartSeries = ChartSeries(labels: seq<Option<string>>, data: seq<int>)

  /** The padded minutes are exactly two digits that read back as the minutes. */
  lemma PaddedMinutes(m: nat)
    requires m < 60
    ensures var p := PadStart(NatToString(m), 2, '0');
      |p| == 2 && AllDigits(p) && DigitsValue(p) == m
  {
    var s := NatToString(m);
    NatToStringBelow100(m);
    DigitsValueOfNatToString(m);
    var p := PadStart(s, 2, '0');
    if |s| == 1 {
      assert p == ['0'] + s;
      assert p[..1] == ['0'];
    } else {
      assert p == s;
    }
  }

  /** `minutes.toString().padStart(2, '0')`: below 60, exactly two digits that read back as the minutes. */
  function MinutesText(m: nat): (p: string)
    ensures m < 60 ==> |p| == 2 && AllDigits(p) && DigitsValue(p) == m
  {
    var p := PadStart(NatToString(m), 2, '0');
    if m < 60 then PaddedMinutes(m); p else p
  }

  /** `` `${hours}:${minutes.toString().padStart(2, '0')}` `` */
  function TimeString(t: Time): (s: string)
    ensures t.minutes < 60 ==> |s| == |NatToString(t.hours)| + 3
  {
    NatToString(t.hours) + ":" + MinutesText(t.minutes)
  }

  /** The labels of a run of clock readings, in order. */
  function TimeLabels(times: seq<Time>): (r: seq<Option<string>>)
    ensures |r| == |times| && forall k :: 0 <= k < |times| ==> r[k] == Some(TimeString(times[k]))
  {
    seq(|times|, k requires 0 <= k < |times| => Some(TimeString(times[k])))
  }

  lemma TimeLabelsSnoc(times: seq<Time>, i: nat)
    requires i < |times|
    ensures TimeLabels(times[..i + 1]) == TimeLabels(times[..i]) + [Some(TimeString(times[i]))]
  {
    var a, b := TimeLabels(times[..i + 1]), TimeLabels(times[..i]) + [Some(TimeString(times[i]))];
    forall k | 0 <= k <= i
      ensures a[k] == b[k]
    {
      assert times[..i + 1][k] == times[k];
      if k < i {
        assert times[..i][k] == times[k];
      }
    }
  }

  /** Splitting `h + ":" + p` at the colon three places from the end. */
  lemma SplitAtColon(h: string, p: string)
    requires |p| == 2
    ensures var s := h + ":" + p;
      |s| == |h| + 3 && s[|s| - 3] == ':' && s[..|s| - 3] == h && s[|s| - 2..] == p
  {
    var s := h + ":" + p;
    assert s[..|h|] == h;
    assert s[|h| + 1..] == p;
  }

  /** Joining at a colon with a two-character tail loses nothing. */
  lemma JoinAtColonInjective(h1: string, p1: string, h2: string, p2: string)
    requires |p1| == 2 && |p2| == 2
    requires h1 + ":" + p1 == h2 + ":" + p2
    ensures h1 == h2 && p1 == p2
  {
    SplitAtColon(h1, p1);
    SplitAtColon(h2, p2);
  }

  /** A time label is the hour, a colon and the two minute digits: the text splits back into its parts. */
  lemma TimeStringShape(t: Time)
    requires t.minutes < 60
    ensures var s := TimeString(t);
      |s| >= 4 && s[|s| - 3] == ':' && s[..|s| - 3] == NatToString(t.hours) && s[|s| - 2..] == MinutesText(t.minutes)
  {
    var h, p := NatToString(t.hours), MinutesText(t.minutes);
    SplitAtColon(h, p);
    assert TimeString(t) == h + ":" + p;
  }

  /** Distinct clock readings give distinct labels. */
  lemma TimeStringInjective(t1: Time, t2: Time)
    requires t1.minutes < 60 && t2.minutes < 60
    requires TimeString(t1) == TimeString(t2)
    ensures t1 == t2
  {
    var h1, p1 := NatToString(t1.hours), MinutesText(t1.minutes);
    var h2, p2 := NatToString(t2.hours), MinutesText(t2.minutes);
    assert TimeString(t1) == h1 + ":" + p1;
    assert TimeString(t2) == h2 + ":" + p2;
    JoinAtColonInjective(h1, p1, h2, p2);
    NatToStringInjective(t1.hours, t2.hours);
  }

  /** `Array(n).fill(null)` */
  function Nulls<T>(n: nat): (r: seq<Option<T>>)
    ensures |r| == n && forall i :: 0 <= i < n ==> r[i] == None
  {
    seq(n, _ => None)
  }

  /** `a.shift()` on the value of `a`: drops the first element, if any. */
  function Shift<T>(s: seq<T>): (r: seq<T>)
    ensures s == [] ==> r == []
    ensures s != [] ==> |r| == |s| - 1
    ensures forall i :: 0 <= i < |r| ==> r[i] == s[i + 1]
  {
    if s == [] then [] else s[1..]
  }

  /** `a.shift(); a.push(x)`: the oldest element leaves, the rest move one place left, `x` is last. */
  function ShiftPush<T>(s: seq<T>, x: T): (r: seq<T>)
    ensures s != [] ==> |r| == |s|
    ensures s == [] ==> r == [x]
    ensures r[|r| - 1] == x
    ensures forall i :: 0 <= i < |s| - 1 ==> r[i] == s[i + 1]
  {
    Shift(s) + [x]
  }

  /** A buffer of `Capacity` slots of which exactly the first `Capacity - u` are null (all of them once u >= Capacity). */
  ghost predicate FilledAfter<T>(s: seq<Option<T>>, u: nat) {
    |s| == Capacity && forall i :: 0 <= i < Capacity ==> (s[i].None? <==> i + u < Capacity)
  }

  /** Pushing a real value into a buffer filled after u pushes gives one filled after u + 1. */
  lemma ShiftPushFills<T>(s: seq<Option<T>>, x: Option<T>, u: nat)
    requires FilledAfter(s, u) && x.Some?
    ensures FilledAfter(ShiftPush(s, x), u + 1)
  {
    var r := ShiftPush(s, x);
    forall i | 0 <= i < Capacity
      ensures r[i].None? <==> i + u + 1 < Capacity
    {
      if i < Capacity - 1 {
        assert r[i] == s[i + 1];
      }
    }
  }

  /** Pushing into a buffer made of the tail of `a` and then `b`. */
  lemma ShiftPushTail<T>(a: seq<T>, b: seq<T>, x: T, i: nat)
    requires i < |a|
    ensures ShiftPush(a[i..] + b, x) == a[i + 1..] + (b + [x])
  {
    assert (a[i..] + b)[1..] == a[i + 1..] + b;
  }

  /** Pushing every element of `xs`, in order. */
  function ShiftPushAll<T>(s: seq<T>, xs: seq<T>): (r: seq<T>)
    ensures s != [] ==> |r| == |s|
    ensures xs != [] ==> r != [] && r[|r| - 1] == xs[|xs| - 1]
    decreases |xs|
  {
    if xs == [] then s else ShiftPushAll(ShiftPush(s, xs[0]), xs[1..])
  }

  /** A non-empty buffer is a sliding window: after pushing `xs` it holds the last |s| elements of s + xs. */
  lemma {:induction false} ShiftPushAllWindow<T>(s: seq<T>, xs: seq<T>)
    requires s != []
    ensures |s + xs| >= |xs|
    ensures ShiftPushAll(s, xs) == (s + xs)[|xs|..]
    decreases |xs|
  {
    if xs != [] {
      var s' := ShiftPush(s, xs[0]);
      ShiftPushAllWindow(s', xs[1..]);
      assert s' == s[1..] + [xs[0]];
      assert s' + xs[1..] == (s + xs)[1..];
    }
  }

  /** Once `Capacity` or more values have been pushed into a full-length buffer, no slot is null. */
  lemma NoNullAfterCapacity<T>(s: seq<Option<T>>, xs: seq<Option<T>>)
    requires |s| == Capacity && |xs| >= Capacity
    requires forall k :: 0 <= k < |xs| ==> xs[k].Some?
    ensures |ShiftPushAll(s, xs)| == Capacity
    ensures forall i :: 0 <= i < Capacity ==> ShiftPushAll(s, xs)[i].Some?
  {
    ShiftPushAllWindow(s, xs);
    var r := ShiftPushAll(s, xs);
    forall i | 0 <= i < Capacity
      ensures r[i].Some?
    {
      assert r[i] == xs[|xs| - Capacity + i];
    }
  }

  /** The filter test for index `i`: `series[i] !== null` (an index past the end reads `undefined`, which passes). */
  predicate Kept(vs: seq<Option<int>>, i: nat) {
    i >= |vs| || vs[i].Some?
  }

  /**
   * `timestamps.filter((_, i) => series[i] !== null)`. The ensures give only
   * bounds; which labels are kept, and in what order, is stated by
   * `ChartAlignment` in terms of `PresentIndices`.
   */
  function Labels(ts: seq<Option<string>>, vs: seq<Option<int>>): (r: seq<Option<string>>)
    ensures |r| <= |ts|
    ensures forall k :: 0 <= k < |r| ==> r[k] in ts
  {
    if ts == [] then []
    else Labels(ts[..|ts| - 1], vs) + (if Kept(vs, |ts| - 1) then [ts[|ts| - 1]] else [])
  }

  /**
   * `series.filter(v => v !== null)`. The ensures give only bounds; which
   * values are kept, and in what order, is stated by `ChartAlignment` in
   * terms of `PresentIndices`.
   */
  function Values(vs: seq<Option<int>>): (r: seq<int>)
    ensures |r| <= |vs|
    ensures forall k :: 0 <= k < |r| ==> Some(r[k]) in vs
  {
    if vs == [] then []
    else Values(vs[..|vs| - 1]) + (if vs[|vs| - 1].Some? then [vs[|vs| - 1].value] else [])
  }

  /** The indices of the non-null entries, in increasing order. */
  function PresentIndices(vs: seq<Option<int>>): (idx: seq<nat>)
    ensures |idx| <= |vs|
    ensures forall k :: 0 <= k < |idx| ==> idx[k] < |vs| && vs[idx[k]].Some?
    ensures forall k, l :: 0 <= k < l < |idx| ==> idx[k] < idx[l]
    ensures forall i :: 0 <= i < |vs| && vs[i].Some? ==> i in idx
  {
    if vs == [] then []
    else PresentIndices(vs[..|vs| - 1]) + (if vs[|vs| - 1].Some? then [|vs| - 1] else [])
  }

  /** With no null in the buffer every index is kept. */
  lemma {:induction false} PresentIndicesOfFull(vs: seq<Option<int>>)
    requires forall i :: 0 <= i < |vs| ==> vs[i].Some?
    ensures |PresentIndices(vs)| == |vs|
  {
    if vs != [] {
      PresentIndicesOfFull(vs[..|vs| - 1]);
    }
  }

  /**
   * On buffers of equal length the filtered labels and points have the same
   * length and stay paired: the k-th kept label and the k-th kept point come
   * from the same original slot, the k-th non-null one.
   */
  lemma {:induction false} ChartAlignment(ts: seq<Option<string>>, vs: seq<Option<int>>, n: nat)
    requires n <= |ts| == |vs|
    ensures var idx := PresentIndices(vs[..n]);
      |Labels(ts[..n], vs)| == |idx| && |Values(vs[..n])| == |idx| &&
      forall k :: 0 <= k < |idx| ==>
        Labels(ts[..n], vs)[k] == ts[idx[k]] && Values(vs[..n])[k] == vs[idx[k]].value
  {
    if n > 0 {
      ChartAlignment(ts, vs, n - 1);
      assert ts[..n][..n - 1] == ts[..n - 1];
      assert vs[..n][..n - 1] == vs[..n - 1];
    }
  }

  /** `generateChartData(type)` without presentation: pick the series, filter both. */
  function ChartOf(ts: seq<Option<string>>, vs: seq<Option<int>>): (c: ChartSeries)
    requires |ts| == |vs|
    ensures |c.labels| == |c.data| == |PresentIndices(vs)|
    ensures forall k :: 0 <= k < |c.data| ==>
      c.labels[k] == ts[PresentIndices(vs)[k]] && c.data[k] == vs[PresentIndices(vs)[k]].value
  {
    ChartAlignment(ts, vs, |ts|);
    assert ts[..|ts|] == ts && vs[..|vs|] == vs;
    ChartSeries(Labels(ts, vs), Values(vs))
  }

  /** The module-level `historicalData` object. */
  class HistoricalData {
    var temperature: seq<Option<int>>
    var humidity: seq<Option<int>>
    var light: seq<Option<int>>
    var timestamps: seq<Option<string>>
    /** How many times `updateHistoricalData` has run. */
    ghost var updates: nat

    /**
     * Every buffer has exactly `Capacity` slots, and the null slots are the
     * same leading ones in all four: those no push has reached yet.
     */
    ghost predicate Valid()
      reads this
    {
      FilledAfter(temperature, updates) && FilledAfter(humidity, updates) &&
      FilledAfter(light, updates) && FilledAfter(timestamps, updates)
    }

    /** The initial state: four buffers of seven nulls. */
    constructor ()
      ensures Valid() && updates == 0
      ensures temperature == humidity == light == Nulls(Capacity)
      ensures timestamps == Nulls(Capacity)
    {
      temperature := Nulls(Capacity);
      humidity := Nulls(Capacity);
      light := Nulls(Capacity);
      timestamps := Nulls(Capacity);
      updates := 0;
    }

    function Series(t: DataType): seq<Option<int>>
      reads this
    {
      match t
      case Temperature => temperature
      case Humidity => humidity
      case Light => light
    }

    /** `updateHistoricalData(newData)` with the clock reading `now`. */
    method Update(newData: Sample, now: Time)
      modifies this
      ensures temperature == ShiftPush(old(temperature), Some(newData.temperature))
      ensures humidity == ShiftPush(old(humidity), Some(newData.humidity))
      ensures light == ShiftPush(old(light), Some(newData.light))
      ensures timestamps == ShiftPush(old(timestamps), Some(TimeString(now)))
      ensures updates == old(updates) + 1
      ensures old(Valid()) ==> Valid()
    {
      var timeString := TimeString(now);
      PushSample(newData, timeString);
    }

    /** The shifts and pushes of `updateHistoricalData`, once the label for the clock reading is known. */
    method PushSample(newData: Sample, timeString: string)
      modifies this
      ensures temperature == ShiftPush(old(temperature), Some(newData.temperature))
      ensures humidity == ShiftPush(old(humidity), Some(newData.humidity))
      ensures light == ShiftPush(old(light), Some(newData.light))
      ensures timestamps == ShiftPush(old(timestamps), Some(timeString))
      ensures updates == old(updates) + 1
      ensures old(Valid()) ==> Valid()
    {
      ghost var wasValid, u := Valid(), updates;
      ghost var t0, h0, l0, s0 := temperature, humidity, light, timestamps;
      temperature := Shift(temperature);
      humidity := Shift(humidity);
      light := Shift(light);
      timestamps := Shift(timestamps);

      temperature := temperature + [Some(newData.temperature)];
      humidity := humidity + [Some(newData.humidity)];
      light := light + [Some(newData.light)];
      timestamps := timestamps + [Some(timeString)];
      updates := updates + 1;

      if wasValid {
        ShiftPushFills(t0, Some(newData.temperature), u);
        ShiftPushFills(h0, Some(newData.humidity), u);
        ShiftPushFills(l0, Some(newData.light), u);
        ShiftPushFills(s0, Some(timeString), u);
      }
    }

    /** `generateChartData(type)`: the labels and points of one metric. */
    function ChartData(t: DataType): (c: ChartSeries)
      reads this
      requires Valid()
      ensures |c.labels| == |c.data| <= Capacity
      ensures forall k :: 0 <= k < |c.labels| ==> c.labels[k].Some?
    {
      ChartOf(timestamps, Series(t))
    }
  }

  /** After `Capacity` or more updates no buffer holds a null, so every chart shows seven points. */
  lemma FullAfterCapacityUpdates(h: HistoricalData, t: DataType)
    requires h.Valid() && h.updates >= Capacity
    ensures forall i :: 0 <= i < Capacity ==>
      h.temperature[i].Some? && h.humidity[i].Some? && h.light[i].Some? && h.timestamps[i].Some?
    ensures |h.ChartData(t).data| == Capacity
  {
    var vs := h.Series(t);
    assert forall i :: 0 <= i < |vs| ==> vs[i].Some?;
    PresentIndicesOfFull(vs);
  }
}
