/**
 * The pump: a running flag, a nullable start time and an append-only log of
 * up-time intervals, each recorded as [startedTime, stoppedTime].
 */
module Pump {
  import opened Common

  /** One recorded up-time interval (the TXY pair pushed onto `_upTimes`). */
  datatype Interval = Interval(start: real, stop: real)

  /** The abstract value of a pump: everything `start` and `stop` read and write. */
  datatype PumpState = PumpState(isRunning: bool, startedTime: Option<real>, upTimes: seq<Interval>)

  /** The state a freshly constructed pump has. */
  const Initial := PumpState(false, None, [])

  /** The pump's invariant: it is running exactly when a start time is held. */
  predicate Valid(p: PumpState)
  {
    p.isRunning <==> p.startedTime.Some?
  }

  /** `start()`: record the clock reading `now` as the start time and mark the pump running. */
  function Started(p: PumpState, now: real): (r: PumpState)
    ensures Valid(r) && r.isRunning
    ensures r.startedTime == Some(now)
    ensures r.upTimes == p.upTimes
  {
    PumpState(true, Some(now), p.upTimes)
  }

  /**
   * `stop()`: when a start time is held, log the interval from it to `now` and
   * forget it; in every case mark the pump stopped.
   */
  function Stopped(p: PumpState, now: real): (r: PumpState)
    ensures Valid(r) && !r.isRunning
    ensures p.upTimes <= r.upTimes && |r.upTimes| <= |p.upTimes| + 1
    ensures p.startedTime.None? ==> r.upTimes == p.upTimes
    ensures p.startedTime.Some? ==> r.upTimes == p.upTimes + [Interval(p.startedTime.value, now)]
  {
    match p.startedTime
    case None => PumpState(false, None, p.upTimes)
    case Some(t) => PumpState(false, None, p.upTimes + [Interval(t, now)])
  }

  /** A call made on the pump, with the clock reading it takes. */
  datatype Call = StartAt(now: real) | StopAt(now: real)

  function Time(c: Call): real
  {
    match c
    case StartAt(t) => t
    case StopAt(t) => t
  }

  /** The effect of one call. */
  function Apply(p: PumpState, c: Call): PumpState
  {
    match c
    case StartAt(t) => Started(p, t)
    case StopAt(t) => Stopped(p, t)
  }

  /** The effect of a sequence of calls, in order. */
  function ApplyAll(p: PumpState, calls: seq<Call>): PumpState
    decreases |calls|
  {
    if calls == [] then p else ApplyAll(Apply(p, calls[0]), calls[1..])
  }

  /** Every recorded interval ends no earlier than it starts. */
  predicate WellOrdered(p: PumpState)
  {
    forall i :: 0 <= i < |p.upTimes| ==> p.upTimes[i].start <= p.upTimes[i].stop
  }

  /** The held start time (if any) is no later than the clock reading `t`. */
  predicate StartedBy(p: PumpState, t: real)
  {
    p.startedTime.Some? ==> p.startedTime.value <= t
  }

  /** The clock readings of `calls` never go backwards and the first is not before `t`. */
  predicate ClockFrom(t: real, calls: seq<Call>)
    decreases |calls|
  {
    calls == [] || (t <= Time(calls[0]) && ClockFrom(Time(calls[0]), calls[1..]))
  }

  /** The invariant is kept by every call, so by every sequence of calls. */
  lemma {:induction false} ApplyAllValid(p: PumpState, calls: seq<Call>)
    requires Valid(p)
    ensures Valid(ApplyAll(p, calls))
    decreases |calls|
  {
    if calls != [] {
      ApplyAllValid(Apply(p, calls[0]), calls[1..]);
    }
  }

  /**
   * The up-time log is append-only: whatever sequence of calls is made, the old
   * log is a prefix of the new one, which grows by at most one entry per call.
   */
  lemma {:induction false} ApplyAllAppendOnly(p: PumpState, calls: seq<Call>)
    ensures p.upTimes <= ApplyAll(p, calls).upTimes
    ensures |ApplyAll(p, calls).upTimes| <= |p.upTimes| + |calls|
    decreases |calls|
  {
    if calls != [] {
      var q := Apply(p, calls[0]);
      ApplyAllAppendOnly(q, calls[1..]);
    }
  }

  /**
   * With a clock that never goes backwards, every interval the pump records
   * starts no later than it stops.
   */
  lemma {:induction false} ApplyAllWellOrdered(p: PumpState, t: real, calls: seq<Call>)
    requires WellOrdered(p) && StartedBy(p, t) && ClockFrom(t, calls)
    ensures WellOrdered(ApplyAll(p, calls))
    decreases |calls|
  {
    if calls != [] {
      var c := calls[0];
      var q := Apply(p, c);
      assert WellOrdered(q) && StartedBy(q, Time(c));
      ApplyAllWellOrdered(q, Time(c), calls[1..]);
    }
  }

  /**
   * Starting twice overwrites the start time: the next stop records a single
   * interval that begins at the second start.
   */
  lemma RestartThenStop(p: PumpState, t1: real, t2: real, t3: real)
    ensures Stopped(Started(Started(p, t1), t2), t3).upTimes == p.upTimes + [Interval(t2, t3)]
  {
  }

  /** Stopping a pump that holds no start time records nothing. */
  lemma StopWhenIdle(p: PumpState, now: real)
    requires Valid(p) && !p.isRunning
    ensures Stopped(p, now) == p
  {
  }

  /** The pump entity, updated in place by `start` and `stop`. */
  class PumpEntity {
    var isRunning: bool
    var startedTime: Option<real>
    var upTimes: seq<Interval>
    var position: Vec3

    /** The abstract value of this pump. */
    function State(): PumpState
      reads this
    {
      PumpState(isRunning, startedTime, upTimes)
    }

    constructor (position: Vec3)
      ensures State() == Initial && Valid(State())
      ensures this.position == position
    {
      isRunning := false;
      startedTime := None;
      upTimes := [];
      this.position := position;
    }

    /** Where the pipe enters the pump: 0.1 to the +x side of its position. */
    function InPoint(): (p: Vec3)
      reads this
    {
      position.(x := position.x + 0.1)
    }

    /** Where the pipe leaves the pump: 0.1 to the -x side of its position. */
    function OutPoint(): (p: Vec3)
      reads this
    {
      position.(x := position.x - 0.1)
    }

    /** `start()`, reading the clock value `now`. */
    method Start(now: real)
      modifies this
      ensures State() == Started(old(State()), now)
      ensures isRunning && startedTime == Some(now) && upTimes == old(upTimes)
      ensures position == old(position)
    {
      startedTime := Some(now);
      isRunning := true;
    }

    /** `stop()`, reading the clock value `now`. */
    method Stop(now: real)
      modifies this
      ensures State() == Stopped(old(State()), now)
      ensures !isRunning && startedTime == None
      ensures old(startedTime).Some? ==> upTimes == old(upTimes) + [Interval(old(startedTime).value, now)]
      ensures old(startedTime).None? ==> upTimes == old(upTimes)
      ensures position == old(position)
    {
      if startedTime.Some? {
        var stoppedTime := now;
        upTimes := upTimes + [Interval(startedTime.value, stoppedTime)];
        startedTime := None;
      }
      isRunning := false;
    }
  }
}
