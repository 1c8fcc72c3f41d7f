/**
 * The temperature chart's data buffer: every data event appends one sample
 * and widens the two axis ranges so that they cover it. The y range is seeded
 * with 0 rather than with the first temperature.
 */
module Chart {
  import opened Common

  /** One recorded point: the simulated elapsed time and the fluid temperature. */
  datatype Sample = Sample(elapsed: real, temperature: real)

  /** A closed axis range `[lo, hi]`. */
  datatype Range = Range(lo: real, hi: real)

  /** The buffer: samples oldest first, and the two ranges (`None` until the first sample). */
  datatype ChartData = ChartData(samples: seq<Sample>, rangeX: Option<Range>, rangeY: Option<Range>)

  const Empty := ChartData([], None, None)

  function Min(a: real, b: real): (m: real)
    ensures m <= a && m <= b && (m == a || m == b)
  {
    if a <= b then a else b
  }

  function Max(a: real, b: real): (m: real)
    ensures m >= a && m >= b && (m == a || m == b)
  {
    if a >= b then a else b
  }

  /** The range stretched to take in `v`. */
  function Widen(r: Range, v: real): (w: Range)
    ensures w.lo <= r.lo && r.hi <= w.hi
    ensures w.lo <= v <= w.hi
    ensures w.lo == r.lo || w.lo == v
    ensures w.hi == r.hi || w.hi == v
  {
    Range(Min(r.lo, v), Max(r.hi, v))
  }

  predicate Contains(r: Range, v: real)
  {
    r.lo <= v <= r.hi
  }

  /**
   * `onSimulationDataUpdated`: append the sample; the first one sets the x range
   * to the single point and the y range to `[0, temperature]`, later ones widen both.
   */
  function Record(c: ChartData, elapsed: real, temperature: real): (r: ChartData)
    ensures r.samples == c.samples + [Sample(elapsed, temperature)]
    ensures r.rangeX.Some? && r.rangeY.Some?
    ensures r.rangeX.value.lo <= elapsed <= r.rangeX.value.hi
    ensures c.rangeX.None? || c.rangeY.None? ==>
              r.rangeX == Some(Range(elapsed, elapsed)) && r.rangeY == Some(Range(0.0, temperature))
    ensures temperature <= r.rangeY.value.hi
    ensures c.rangeX.Some? && c.rangeY.Some? ==>
              && r.rangeX.value.lo <= c.rangeX.value.lo && c.rangeX.value.hi <= r.rangeX.value.hi
              && r.rangeY.value.lo <= c.rangeY.value.lo && c.rangeY.value.hi <= r.rangeY.value.hi
              && r.rangeY.value.lo <= temperature
  {
    var samples := c.samples + [Sample(elapsed, temperature)];
    if c.rangeX.None? || c.rangeY.None? then
      ChartData(samples, Some(Range(elapsed, elapsed)), Some(Range(0.0, temperature)))
    else
      ChartData(samples, Some(Widen(c.rangeX.value, elapsed)), Some(Widen(c.rangeY.value, temperature)))
  }

  /** The buffer after recording `samples` in order, one data event each. */
  function RecordAll(c: ChartData, samples: seq<Sample>): ChartData
    decreases |samples|
  {
    if samples == [] then c
    else RecordAll(Record(c, samples[0].elapsed, samples[0].temperature), samples[1..])
  }

  /**
   * What the buffer always satisfies: the ranges are missing together, exactly
   * when there is no sample; the x range is the tightest range holding every
   * elapsed time; the y range holds every temperature but the first, reaches
   * down to 0, and its top is the highest temperature.
   */
  predicate Valid(c: ChartData)
  {
    && (c.rangeX.None? <==> c.samples == [])
    && (c.rangeY.None? <==> c.samples == [])
    && (c.rangeX.Some? ==>
          && (forall i :: 0 <= i < |c.samples| ==> Contains(c.rangeX.value, c.samples[i].elapsed))
          && (exists i :: 0 <= i < |c.samples| && c.samples[i].elapsed == c.rangeX.value.lo)
          && (exists i :: 0 <= i < |c.samples| && c.samples[i].elapsed == c.rangeX.value.hi))
    && (c.rangeY.Some? ==>
          && c.rangeY.value.lo <= 0.0
          && (forall i :: 0 < i < |c.samples| ==> Contains(c.rangeY.value, c.samples[i].temperature))
          && c.samples[0].temperature <= c.rangeY.value.hi
          && (exists i :: 0 <= i < |c.samples| && c.samples[i].temperature == c.rangeY.value.hi))
  }

  /** Recording a sample keeps the buffer valid. */
  lemma RecordValid(c: ChartData, elapsed: real, temperature: real)
    requires Valid(c)
    ensures Valid(Record(c, elapsed, temperature))
  {
    var r := Record(c, elapsed, temperature);
    var n := |c.samples|;
    assert r.samples[n] == Sample(elapsed, temperature);
    forall i | 0 <= i < n
      ensures r.samples[i] == c.samples[i]
    {
    }
    if c.samples != [] {
      var x, y := c.rangeX.value, c.rangeY.value;
      var ix :| 0 <= ix < n && c.samples[ix].elapsed == x.lo;
      var jx :| 0 <= jx < n && c.samples[jx].elapsed == x.hi;
      var jy :| 0 <= jy < n && c.samples[jy].temperature == y.hi;
      assert r.samples[ix].elapsed == x.lo && r.samples[jx].elapsed == x.hi && r.samples[jy].temperature == y.hi;
      assert r.samples[n].elapsed == elapsed && r.samples[n].temperature == temperature;
    } else {
      assert r.samples[0] == Sample(elapsed, temperature);
    }
  }

  /** Recording a run of samples appends exactly those samples, in order. */
  lemma {:induction false} RecordAllSamples(c: ChartData, samples: seq<Sample>)
    ensures RecordAll(c, samples).samples == c.samples + samples
    decreases |samples|
  {
    if samples != [] {
      var first := samples[0];
      var c1 := Record(c, first.elapsed, first.temperature);
      RecordAllSamples(c1, samples[1..]);
      assert c1.samples + samples[1..] == c.samples + samples;
    }
  }

  /** Recording a run of samples keeps the buffer valid; in particular from the empty buffer. */
  lemma {:induction false} RecordAllValid(c: ChartData, samples: seq<Sample>)
    requires Valid(c)
    ensures Valid(RecordAll(c, samples))
    decreases |samples|
  {
    if samples != [] {
      RecordValid(c, samples[0].elapsed, samples[0].temperature);
      RecordAllValid(Record(c, samples[0].elapsed, samples[0].temperature), samples[1..]);
    }
  }

  /** Recording appends one sample and never narrows a range that was already set. */
  lemma RangesOnlyWiden(c: ChartData, elapsed: real, temperature: real)
    requires Valid(c) && c.samples != []
    ensures var r := Record(c, elapsed, temperature);
            && r.samples[..|c.samples|] == c.samples
            && |r.samples| == |c.samples| + 1
            && r.rangeX.value.lo <= c.rangeX.value.lo && c.rangeX.value.hi <= r.rangeX.value.hi
            && r.rangeY.value.lo <= c.rangeY.value.lo && c.rangeY.value.hi <= r.rangeY.value.hi
  {
    var r := Record(c, elapsed, temperature);
    assert r.samples[..|c.samples|] == c.samples;
  }

  /**
   * The y range is seeded with 0, not with the first temperature: after one
   * sample at -5 degrees the range is `[0, -5]`, which does not contain it.
   */
  lemma FirstSampleMayFallOutside()
    ensures var c := Record(Empty, 0.0, -5.0);
            && c.rangeY == Some(Range(0.0, -5.0))
            && !Contains(c.rangeY.value, c.samples[0].temperature)
  {
  }

  /** The temperature chart; only its data buffer is modelled. */
  class Visualizer {
    var temperatureData: seq<Sample>
    var rangeX: Option<Range>
    var rangeY: Option<Range>

    function Data(): ChartData
      reads this
    {
      ChartData(temperatureData, rangeX, rangeY)
    }

    constructor ()
      ensures Data() == Empty && Valid(Data())
    {
      temperatureData, rangeX, rangeY := [], None, None;
    }

    /** The data-event listener, without the redraw. */
    method OnSimulationDataUpdated(elapsed: real, temperature: real)
      modifies this
      ensures Data() == Record(old(Data()), elapsed, temperature)
      ensures old(Valid(Data())) ==> Valid(Data())
    {
      var oldX, oldY := rangeX, rangeY;
      temperatureData := temperatureData + [Sample(elapsed, temperature)];
      if oldX.None? || oldY.None? {
        rangeX := Some(Range(elapsed, elapsed));
        rangeY := Some(Range(0.0, temperature));
      } else {
        rangeX := Some(Range(Min(oldX.value.lo, elapsed), Max(oldX.value.hi, elapsed)));
        rangeY := Some(Range(Min(oldY.value.lo, temperature), Max(oldY.value.hi, temperature)));
      }
      if old(Valid(Data())) {
        RecordValid(old(Data()), elapsed, temperature);
      }
    }
  }
}
