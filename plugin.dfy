/**
  The series manager of src/chartjs-plugin-downsample.js: `downsampleChart`
  (cache the original series once, pick the points inside the visible time
  window, write the reduced series back), the option merge of `beforeInit`,
  the manual trigger `downsample(threshold)` and the `beforeUpdate` hook.

  The chart is a class whose fields are the parts of the host's chart
  object that the plugin reads or writes; each dataset is a value held in
  an array, and writing an element stands for assigning the dataset's
  `data` and `originalData` properties.
*/
module DownsamplePlugin {
  import opened Lttb

  datatype Option<T> = None | Some(value: T)

  /**
    A user bound of the time axis (`time.min`, `time.max`): undefined, the
    empty string that resets the window, or a timestamp in epoch milliseconds.
  */
  datatype Bound = Undefined | Empty | At(ms: int)

  /** The current bounds of the x-axis scale, in epoch milliseconds. */
  datatype Scale = Scale(min: int, max: int)

  /**
    A dataset: the displayed points `data` and the cached `originalData`
    (None while it is undefined or null).
  */
  datatype Dataset = Dataset(data: seq<Point>, originalData: Option<seq<Point>>)

  /** The plugin options; `restoreOriginalData` and `preferOriginalData` are never read. */
  datatype Options = Options(
    enabled: bool,
    threshold: int,
    auto: bool,
    onInit: bool,
    restoreOriginalData: bool,
    preferOriginalData: bool)

  const DefaultOptions := Options(false, 1000, true, true, true, false)

  /** The options a chart configuration sets; None where it leaves one out. */
  datatype Overrides = Overrides(
    enabled: Option<bool>,
    threshold: Option<int>,
    auto: Option<bool>,
    onInit: Option<bool>,
    restoreOriginalData: Option<bool>,
    preferOriginalData: Option<bool>)

  /** A scale span of exactly one day means "whole series". */
  const FullRangeSpan := 86400000

  function Or<T>(o: Option<T>, default: T): T
  {
    if o.Some? then o.value else default
  }

  /** The options `beforeInit` installs: the defaults, with every option the chart sets winning. */
  function Merge(user: Overrides): (o: Options)
    ensures user.enabled.Some? ==> o.enabled == user.enabled.value
    ensures user.threshold.Some? ==> o.threshold == user.threshold.value
    ensures user.auto.Some? ==> o.auto == user.auto.value
    ensures user.onInit.Some? ==> o.onInit == user.onInit.value
    ensures user.enabled.None? ==> !o.enabled
    ensures user.threshold.None? ==> o.threshold == 1000
    ensures user.auto.None? ==> o.auto
    ensures user.onInit.None? ==> o.onInit
  {
    Options(
      Or(user.enabled, DefaultOptions.enabled),
      Or(user.threshold, DefaultOptions.threshold),
      Or(user.auto, DefaultOptions.auto),
      Or(user.onInit, DefaultOptions.onInit),
      Or(user.restoreOriginalData, DefaultOptions.restoreOriginalData),
      Or(user.preferOriginalData, DefaultOptions.preferOriginalData))
  }

  // ---------------------------------------------------------------------
  // Window selection

  /** The points of `s` with `lo <= t <= hi`, in their order in `s`. */
  function InWindow(s: seq<Point>, lo: int, hi: int): (r: seq<Point>)
    ensures |r| <= |s|
  {
    if s == [] then []
    else
      var last := s[|s| - 1];
      InWindow(s[..|s| - 1], lo, hi) + (if lo <= last.t <= hi then [last] else [])
  }

  /** A point passes the filter if and only if it is in the series and inside the window. */
  lemma {:induction false} InWindowMembers(s: seq<Point>, lo: int, hi: int)
    ensures forall p :: p in InWindow(s, lo, hi) <==> p in s && lo <= p.t <= hi
  {
    if s != [] {
      var init := s[..|s| - 1];
      InWindowMembers(init, lo, hi);
      assert s == init + [s[|s| - 1]];
    }
  }

  /** The window filter keeps the input order: it distributes over concatenation. */
  lemma {:induction false} InWindowAppend(a: seq<Point>, b: seq<Point>, lo: int, hi: int)
    ensures InWindow(a + b, lo, hi) == InWindow(a, lo, hi) + InWindow(b, lo, hi)
    decreases |b|
  {
    if b == [] {
      assert a + b == a;
    } else {
      var b' := b[..|b| - 1];
      assert (a + b)[..|a + b| - 1] == a + b';
      InWindowAppend(a, b', lo, hi);
    }
  }

  /** A series that lies wholly inside the window passes the filter unchanged. */
  lemma {:induction false} InWindowInside(s: seq<Point>, lo: int, hi: int)
    requires forall k :: 0 <= k < |s| ==> lo <= s[k].t <= hi
    ensures InWindow(s, lo, hi) == s
  {
    if s != [] {
      InWindowInside(s[..|s| - 1], lo, hi);
    }
  }

  /**
    Whether a pass reduces the whole original series (lines 125-128): the
    scale spans exactly one day, a user bound is undefined, or both user
    bounds are the empty-string reset.
  */
  predicate UsesWholeSeries(scale: Scale, min2: Bound, max2: Bound)
  {
    || scale.max - scale.min == FullRangeSpan
    || min2.Undefined? || max2.Undefined?
    || (min2.Empty? && max2.Empty?)
  }

  /** The filter window (lines 130-135): the user bounds when both are timestamps, else the scale's. */
  function WindowOf(scale: Scale, min2: Bound, max2: Bound): (int, int)
  {
    if min2.At? && max2.At? then (min2.ms, max2.ms) else (scale.min, scale.max)
  }

  /** The points a pass hands to the reducer, from the original series `orig`. */
  function Candidate(orig: seq<Point>, scale: Scale, min2: Bound, max2: Bound): (r: seq<Point>)
    ensures UsesWholeSeries(scale, min2, max2) ==> r == orig
    ensures !UsesWholeSeries(scale, min2, max2) ==>
      var (lo, hi) := WindowOf(scale, min2, max2);
      forall p :: p in r <==> p in orig && lo <= p.t <= hi
  {
    if UsesWholeSeries(scale, min2, max2) then orig
    else
      var (lo, hi) := WindowOf(scale, min2, max2);
      InWindowMembers(orig, lo, hi);
      InWindow(orig, lo, hi)
  }

  /** The series a pass reduces from: the cached original, or the current data when none is cached. */
  function Original(d: Dataset): seq<Point>
  {
    if d.originalData.Some? then d.originalData.value else d.data
  }

  /** One dataset after a pass: `originalData` captured once, `data` the reduced candidate. */
  function Refresh(d: Dataset, threshold: int, scale: Scale, min2: Bound, max2: Bound): (r: Dataset)
    ensures d.originalData.Some? ==> r.originalData == d.originalData
    ensures d.originalData.None? ==> r.originalData == Some(d.data)
    ensures r.data == Downsampled(Candidate(Original(d), scale, min2, max2), threshold)
  {
    var orig := Original(d);
    Dataset(Downsampled(Candidate(orig, scale, min2, max2), threshold), Some(orig))
  }

  /** Every dataset after a pass of `downsampleChart`, each refreshed on its own. */
  function RefreshAll(ds: seq<Dataset>, threshold: int, scale: Scale, min2: Bound, max2: Bound): (r: seq<Dataset>)
    ensures |r| == |ds|
    ensures forall i :: 0 <= i < |ds| ==> r[i] == Refresh(ds[i], threshold, scale, min2, max2)
  {
    seq(|ds|, i requires 0 <= i < |ds| => Refresh(ds[i], threshold, scale, min2, max2))
  }

  /** What a call of `downsampleChart` leaves in the datasets. */
  function Pass(ds: seq<Dataset>, options: Options, scales: Option<Scale>, min2: Bound, max2: Bound): (r: seq<Dataset>)
    ensures |r| == |ds|
    ensures !options.enabled || scales.None? ==> r == ds
  {
    if !options.enabled || scales.None? then ds
    else RefreshAll(ds, options.threshold, scales.value, min2, max2)
  }

  // ---------------------------------------------------------------------
  // Properties of passes

  /**
    Once captured, the original series is never replaced, so a pass leaves
    no trace a later pass can see: the last pass alone decides the datasets.
  */
  lemma LastPassWins(ds: seq<Dataset>,
                     t1: int, s1: Scale, min1: Bound, max1: Bound,
                     t2: int, s2: Scale, min2: Bound, max2: Bound)
    ensures RefreshAll(RefreshAll(ds, t1, s1, min1, max1), t2, s2, min2, max2)
         == RefreshAll(ds, t2, s2, min2, max2)
  {
    hide Downsampled;
    var once := RefreshAll(ds, t1, s1, min1, max1);
    var l, r := RefreshAll(once, t2, s2, min2, max2), RefreshAll(ds, t2, s2, min2, max2);
    forall i | 0 <= i < |ds|
      ensures l[i] == r[i]
    {
      assert Original(once[i]) == Original(ds[i]);
    }
  }

  /** Repeating a pass with the same settings changes nothing. */
  lemma RefreshAllIdempotent(ds: seq<Dataset>, threshold: int, scale: Scale, min2: Bound, max2: Bound)
    ensures var once := RefreshAll(ds, threshold, scale, min2, max2);
      RefreshAll(once, threshold, scale, min2, max2) == once
  {
    hide Downsampled;
    LastPassWins(ds, threshold, scale, min2, max2, threshold, scale, min2, max2);
  }

  /**
    After any earlier pass, windowed or not, a reset of the user bounds
    (both the empty string) reduces the whole original series again.
  */
  lemma ResetRestoresWholeSeries(ds: seq<Dataset>,
                                 t1: int, s1: Scale, min1: Bound, max1: Bound,
                                 threshold: int, scale: Scale, i: int)
    requires 0 <= i < |ds|
    ensures RefreshAll(RefreshAll(ds, t1, s1, min1, max1), threshold, scale, Empty, Empty)[i].data
         == Downsampled(Original(ds[i]), threshold)
  {
    hide Downsampled;
    LastPassWins(ds, t1, s1, min1, max1, threshold, scale, Empty, Empty);
  }

  // ---------------------------------------------------------------------
  // The loop as written: bounds carried from one dataset to the next

  /** The locals `min`, `max`, `min2`, `max2` of `downsampleChart`. */
  datatype Locals = Locals(min: int, max: int, min2: Bound, max2: Bound)

  /**
    The locals after one dataset: the filtering branch (lines 130-135)
    overwrites `min` and `max` with the user bounds, and the next dataset's
    one-day test reads them.
  */
  function Carry(l: Locals): (r: Locals)
    ensures r.min2 == l.min2 && r.max2 == l.max2
    ensures !(l.min2.At? && l.max2.At?) ==> r == l
  {
    if !UsesWholeSeries(Scale(l.min, l.max), l.min2, l.max2) && l.min2.At? && l.max2.At?
    then Locals(l.min2.ms, l.max2.ms, l.min2, l.max2)
    else l
  }

  /** The datasets after the loop of lines 117-148 as written, starting from the locals `l`. */
  function PassAsWritten(ds: seq<Dataset>, threshold: int, l: Locals): (r: seq<Dataset>)
    ensures |r| == |ds|
    decreases |ds|
  {
    if ds == [] then []
    else [Refresh(ds[0], threshold, Scale(l.min, l.max), l.min2, l.max2)]
         + PassAsWritten(ds[1..], threshold, Carry(l))
  }

  /** Locals that behave like the scale and user bounds they stand for, and stay so. */
  lemma {:induction false} AsWrittenFromStable(ds: seq<Dataset>, threshold: int, l: Locals,
                                               scale: Scale, min2: Bound, max2: Bound)
    requires Carry(l) == l && l.min2 == min2 && l.max2 == max2
    requires UsesWholeSeries(Scale(l.min, l.max), min2, max2) == UsesWholeSeries(scale, min2, max2)
    requires WindowOf(Scale(l.min, l.max), min2, max2) == WindowOf(scale, min2, max2)
    ensures PassAsWritten(ds, threshold, l) == RefreshAll(ds, threshold, scale, min2, max2)
    decreases |ds|
  {
    hide Downsampled;
    if ds != [] {
      AsWrittenFromStable(ds[1..], threshold, l, scale, min2, max2);
      var l', r' := PassAsWritten(ds, threshold, l), RefreshAll(ds, threshold, scale, min2, max2);
      forall i | 0 <= i < |ds|
        ensures l'[i] == r'[i]
      {
        if i > 0 {
          assert l'[i] == PassAsWritten(ds[1..], threshold, l)[i - 1];
        }
      }
    }
  }

  /**
    The loop as written treats every dataset alike, as `RefreshAll` does,
    except when both user bounds are timestamps exactly one day apart and
    the scale's span is not one day.
  */
  lemma PassAsWrittenAgrees(ds: seq<Dataset>, threshold: int, scale: Scale, min2: Bound, max2: Bound)
    requires !(min2.At? && max2.At? && max2.ms - min2.ms == FullRangeSpan
               && scale.max - scale.min != FullRangeSpan)
    ensures PassAsWritten(ds, threshold, Locals(scale.min, scale.max, min2, max2))
         == RefreshAll(ds, threshold, scale, min2, max2)
  {
    hide Downsampled;
    var l := Locals(scale.min, scale.max, min2, max2);
    if ds != [] {
      AsWrittenFromStable(ds[1..], threshold, Carry(l), scale, min2, max2);
      var l', r' := PassAsWritten(ds, threshold, l), RefreshAll(ds, threshold, scale, min2, max2);
      forall i | 0 <= i < |ds|
        ensures l'[i] == r'[i]
      {
        if i > 0 {
          assert l'[i] == PassAsWritten(ds[1..], threshold, Carry(l))[i - 1];
        }
      }
    }
  }

  /**
    Two identical datasets, a scale spanning 1000 ms and user bounds one day
    apart: as written the first dataset is filtered to the window and the
    second is not; with the window resolved once, both are filtered.
  */
  lemma CarryOverCounterexample()
    ensures
      var d := Dataset([Point(0, 0.0), Point(100000000, 1.0)], None);
      var asWritten := PassAsWritten([d, d], 1000, Locals(0, 1000, At(0), At(86400000)));
      var resolvedOnce := RefreshAll([d, d], 1000, Scale(0, 1000), At(0), At(86400000));
      && asWritten[0].data == [Point(0, 0.0)]
      && asWritten[1].data == [Point(0, 0.0), Point(100000000, 1.0)]
      && resolvedOnce[0].data == [Point(0, 0.0)]
      && resolvedOnce[1].data == [Point(0, 0.0)]
  {
    var s := [Point(0, 0.0), Point(100000000, 1.0)];
    assert s[..1] == [Point(0, 0.0)];
    assert InWindow(s, 0, 86400000) == [Point(0, 0.0)];
    var d := Dataset(s, None);
    var l := Locals(0, 1000, At(0), At(86400000));
    assert Carry(l) == Locals(0, 86400000, At(0), At(86400000));
    assert PassAsWritten([d, d], 1000, l)[1] == PassAsWritten([d], 1000, Carry(l))[0];
  }

  // ---------------------------------------------------------------------
  // The body of the dataset loop

  /** The filter loop of lines 137-144: the points of `originalData` inside `[lo, hi]`, in order. */
  method FilterWindow(originalData: seq<Point>, lo: int, hi: int) returns (dataToDownsample: seq<Point>)
    ensures dataToDownsample == InWindow(originalData, lo, hi)
  {
    dataToDownsample := [];
    var j := 0;
    while j < |originalData|
      invariant 0 <= j <= |originalData|
      invariant dataToDownsample == InWindow(originalData[..j], lo, hi)
    {
      var timestamp := originalData[j].t;
      assert originalData[..j + 1][..j] == originalData[..j];
      if timestamp >= lo && timestamp <= hi {
        dataToDownsample := dataToDownsample + [originalData[j]];
      }
      j := j + 1;
    }
    assert originalData[..j] == originalData;
  }

  /**
    One dataset of `downsampleChart` (lines 118-147): capture the original
    series if none is cached, choose the candidate points, reduce them.
    The filter window comes from the scale and the user bounds themselves,
    not from locals an earlier dataset may have overwritten.
  */
  method RefreshDataset(d: Dataset, threshold: int, scale: Scale, min2: Bound, max2: Bound)
    returns (r: Dataset)
    ensures r == Refresh(d, threshold, scale, min2, max2)
  {
    hide Downsampled;
    var dataset := d;
    if dataset.originalData.None? {
      dataset := dataset.(originalData := Some(dataset.data));
    }
    var originalData := dataset.originalData.value;
    var min, max := scale.min, scale.max;
    var dataToDownsample;
    if max - min == FullRangeSpan || min2.Undefined? || max2.Undefined? {
      dataToDownsample := originalData;
    } else if min2.Empty? && max2.Empty? {
      dataToDownsample := originalData;
    } else {
      if min2.At? && max2.At? {
        min, max := min2.ms, max2.ms;
      }
      dataToDownsample := FilterWindow(originalData, min, max);
    }
    var sampled := Lttb.Downsample(dataToDownsample, threshold);
    r := dataset.(data := sampled);
  }

  // ---------------------------------------------------------------------
  // The chart

  class Chart {
    /** `options.downsample`, installed by `beforeInit`. */
    var options: Options
    /** The x-axis scale bounds; None while `scales` is undefined. */
    var scales: Option<Scale>
    /** The user bounds `time.min` and `time.max` of the x axis. */
    var min2: Bound
    var max2: Bound
    /** `data.datasets`. */
    const datasets: array<Dataset>

    /**
      A chart with the given scale, user bounds and datasets, after the
      plugin's `beforeInit` hook (lines 152-165): the options are merged
      over the defaults and, if `onInit`, a first pass runs.
    */
    constructor (user: Overrides, scales: Option<Scale>, min2: Bound, max2: Bound, data: seq<Dataset>)
      ensures options == Merge(user)
      ensures this.scales == scales && this.min2 == min2 && this.max2 == max2
      ensures fresh(datasets)
      ensures datasets[..] == if options.onInit then Pass(data, options, scales, min2, max2) else data
    {
      this.options := Merge(user);
      this.scales := scales;
      this.min2 := min2;
      this.max2 := max2;
      this.datasets := new Dataset[|data|](i requires 0 <= i < |data| => data[i]);
      new;
      assert datasets[..] == data;
      if options.onInit {
        DownsampleChart();
      }
    }

    /**
      `downsampleChart` (lines 103-149): nothing when disabled or without
      scales; otherwise every dataset captures its original series if it has
      none, and its data becomes the reduction of the candidate points.
      The filter window is resolved once, before the datasets are visited.
    */
    method DownsampleChart()
      modifies datasets
      ensures !options.enabled || scales.None? ==> datasets[..] == old(datasets[..])
      ensures options.enabled && scales.Some? ==>
        datasets[..] == RefreshAll(old(datasets[..]), options.threshold, scales.value, min2, max2)
    {
      hide Downsampled;
      var threshold := options.threshold;
      if !options.enabled {
        return;
      }
      if scales.None? {
        return;
      }
      var scale := scales.value;
      var i := 0;
      while i < datasets.Length
        invariant 0 <= i <= datasets.Length
        invariant forall k :: 0 <= k < i ==>
          datasets[k] == Refresh(old(datasets[k]), threshold, scale, min2, max2)
        invariant forall k :: i <= k < datasets.Length ==> datasets[k] == old(datasets[k])
      {
        var dataset := RefreshDataset(datasets[i], threshold, scale, min2, max2);
        datasets[i] := dataset;
        i := i + 1;
      }
      assert datasets[..] == RefreshAll(old(datasets[..]), threshold, scales.value, min2, max2);
    }

    /**
      The manual trigger `chartInstance.downsample(threshold)` (lines
      159-165): a given threshold replaces the configured one, then a pass runs.
    */
    method Downsample(threshold: Option<int>)
      modifies this`options, datasets
      ensures options == if threshold.Some? then old(options).(threshold := threshold.value) else old(options)
      ensures datasets[..] == Pass(old(datasets[..]), options, scales, min2, max2)
    {
      if threshold.Some? {
        options := options.(threshold := threshold.value);
      }
      DownsampleChart();
    }

    /** The `beforeUpdate` hook (lines 168-172): a pass on every update when `auto` is set. */
    method BeforeUpdate()
      modifies datasets
      ensures datasets[..] == if options.auto then Pass(old(datasets[..]), options, scales, min2, max2)
                              else old(datasets[..])
    {
      if options.auto {
        DownsampleChart();
      }
    }
  }
}
