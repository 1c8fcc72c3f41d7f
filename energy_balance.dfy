/**
 * The energy-balance integrator and the automatic pump control policy, as
 * functions over the readings the simulation system takes from the scene.
 *
 * Each started tick computes the solar energy gained by the panel and the heat
 * lost by the tank (and, while the pump runs, by the pipe and the panel),
 * updates the fluid temperature, accumulates the two energy totals, lets the
 * control policy switch the pump, and emits a data event with the new
 * temperature.
 */
module EnergyBalance {
  import opened Common
  import opened Pump

  /** Why the control policy switched the pump. */
  datatype Reason = NegativeEnergy | TemperatureTooHigh | PositiveEnergyLowTemperature

  /** The events the simulation system dispatches, in the order it dispatches them. */
  datatype Event =
    | SimulationStarted
    | SimulationStopped
    | PumpStatusUpdated(elapsed: real, reason: Reason, deltaEnergy: real, fluidTemp: real, on: bool)
    | DataUpdated(elapsed: real, temperature: real)

  /** What the system reads from (and, for `fluidTemp`, writes to) the storage tank. */
  datatype TankReading = TankReading(fluidTemp: real, fluidMass: real, heatCapacityFluid: real, energyOutRate: real)

  /** What the system reads from the solar panel. */
  datatype PanelReading = PanelReading(efficiencySurface: real, energyOutRate: real)

  /** What the system reads from the environment. */
  datatype EnvReading = EnvReading(latitude: real, speed: real)

  /**
   * The simulator's entities as the system sees them; `None` is a missing entity.
   * `pipeRate` is the pipe's loss rate, `guiEnabled` the GUI's enabled flag.
   */
  datatype Scene = Scene(tank: Option<TankReading>, panel: Option<PanelReading>, pipeRate: Option<real>,
                         env: Option<EnvReading>, pump: Option<PumpState>, guiEnabled: Option<bool>)

  /** The simulation system's own state, with the events it has dispatched so far. */
  datatype Sim = Sim(isStarted: bool, totalEnergyProduced: real, totalEnergyLost: real, events: seq<Event>)

  /** The system together with the scene it drives. */
  datatype World = World(sim: Sim, scene: Scene)

  /** One frame of the host's loop: frame delta, elapsed time, and the clock reading the pump takes. */
  datatype Frame = Frame(delta: real, elapsed: real, now: real)

  /** Energy needed to warm the tank's fluid by one degree. */
  function HeatCapacity(t: TankReading): real
  {
    t.fluidMass * t.heatCapacityFluid
  }

  /** The temperature update divides by the heat capacity, so it must not be zero. */
  predicate NonDegenerate(s: Scene)
  {
    s.tank.Some? ==> HeatCapacity(s.tank.value) != 0.0
  }

  /** Loss rates of every surface that can lose heat are non-negative. */
  predicate LossesNonNegative(s: Scene)
  {
    && (s.tank.Some? ==> s.tank.value.energyOutRate >= 0.0)
    && (s.panel.Some? ==> s.panel.value.energyOutRate >= 0.0)
    && (s.pipeRate.Some? ==> s.pipeRate.value >= 0.0)
  }

  /** The panel absorbs, the radiation shines and time runs forward, so no energy is ever negative. */
  ghost predicate GainsNonNegative(s: Scene, radiation: (real, real) -> real)
  {
    && (s.panel.Some? ==> s.panel.value.efficiencySurface >= 0.0)
    && (forall t, lat :: radiation(t, lat) >= 0.0)
  }

  // ---------------------------------------------------------------------------
  // Energy in and energy out
  // ---------------------------------------------------------------------------

  /**
   * `_calculateEnergyIn`: panel surface times the radiation at the elapsed time
   * and latitude, times `delta / 1000`; 0 without a panel or an environment.
   */
  function EnergyIn(panel: Option<PanelReading>, env: Option<EnvReading>, radiation: (real, real) -> real,
                    delta: real, elapsed: real): (e: real)
    ensures panel.None? || env.None? ==> e == 0.0
    ensures delta == 0.0 ==> e == 0.0
  {
    if panel.None? || env.None? then 0.0
    else panel.value.efficiencySurface * radiation(elapsed, env.value.latitude) * (delta / 1000.0)
  }

  /**
   * `_calculateEnergyOut`: the tank's loss rate, plus the pipe's and the panel's
   * while the pump runs, times `delta / 1000`; 0 when any of the four is missing.
   */
  function EnergyOut(tank: Option<TankReading>, pipeRate: Option<real>, pump: Option<PumpState>,
                     panel: Option<PanelReading>, delta: real): (e: real)
    ensures tank.None? || pipeRate.None? || pump.None? || panel.None? ==> e == 0.0
    ensures delta == 0.0 ==> e == 0.0
  {
    if tank.None? || pipeRate.None? || pump.None? || panel.None? then 0.0
    else
      var rate := tank.value.energyOutRate
        + (if pump.value.isRunning then pipeRate.value + panel.value.energyOutRate else 0.0);
      rate * (delta / 1000.0)
  }

  /** Energy in is linear in the frame time: two short frames gain what one long frame gains. */
  lemma EnergyInAdditive(panel: Option<PanelReading>, env: Option<EnvReading>, radiation: (real, real) -> real,
                         d1: real, d2: real, elapsed: real)
    ensures EnergyIn(panel, env, radiation, d1 + d2, elapsed)
         == EnergyIn(panel, env, radiation, d1, elapsed) + EnergyIn(panel, env, radiation, d2, elapsed)
  {
  }

  /** Energy out is linear in the frame time. */
  lemma EnergyOutAdditive(tank: Option<TankReading>, pipeRate: Option<real>, pump: Option<PumpState>,
                          panel: Option<PanelReading>, d1: real, d2: real)
    ensures EnergyOut(tank, pipeRate, pump, panel, d1 + d2)
         == EnergyOut(tank, pipeRate, pump, panel, d1) + EnergyOut(tank, pipeRate, pump, panel, d2)
  {
  }

  /**
   * The pipe and the panel lose heat only while the pump runs: a running pump's
   * loss is the stopped pump's loss plus theirs.
   */
  lemma RunningPumpExposesCircuit(tank: TankReading, pipeRate: real, p: PumpState, panel: PanelReading, delta: real)
    requires p.isRunning
    ensures EnergyOut(Some(tank), Some(pipeRate), Some(p), Some(panel), delta)
         == EnergyOut(Some(tank), Some(pipeRate), Some(p.(isRunning := false)), Some(panel), delta)
            + (pipeRate + panel.energyOutRate) * (delta / 1000.0)
  {
  }

  /** Energy in is non-negative when the gains are and time runs forward. */
  lemma EnergyInNonNegative(s: Scene, radiation: (real, real) -> real, delta: real, elapsed: real)
    requires GainsNonNegative(s, radiation) && delta >= 0.0
    ensures EnergyIn(s.panel, s.env, radiation, delta, elapsed) >= 0.0
  {
    if s.panel.Some? && s.env.Some? {
      var g := s.panel.value.efficiencySurface * radiation(elapsed, s.env.value.latitude);
      assert g >= 0.0;
    }
  }

  /** Energy out is non-negative when every loss rate is and time runs forward. */
  lemma EnergyOutNonNegative(s: Scene, delta: real)
    requires LossesNonNegative(s) && delta >= 0.0
    ensures EnergyOut(s.tank, s.pipeRate, s.pump, s.panel, delta) >= 0.0
  {
  }

  // ---------------------------------------------------------------------------
  // Automatic pump control
  // ---------------------------------------------------------------------------

  /** The pump after a control step, and the log event it dispatched, if any. */
  datatype Control = Control(pump: PumpState, log: seq<Event>)

  /**
   * `_controlPump` once its guard has passed. First: with no positive energy
   * or a temperature at or over the maximum, a running pump is stopped. Then:
   * with positive energy and a temperature under the minimum, a stopped pump is
   * started. A log event is dispatched when either happened, with the reason
   * and status of the last one.
   */
  function ControlPump(p: PumpState, deltaEnergy: real, fluidTemp: real, elapsed: real, now: real,
                       minTemp: real, maxTemp: real): (c: Control)
    ensures |c.log| <= 1
    ensures c.log == [] <==> c.pump == p
    ensures Valid(p) ==> Valid(c.pump)
    ensures p.upTimes <= c.pump.upTimes
    ensures minTemp <= maxTemp && (deltaEnergy <= 0.0 || fluidTemp >= maxTemp) ==> !c.pump.isRunning
    ensures deltaEnergy > 0.0 && fluidTemp < minTemp ==> c.pump.isRunning
    ensures !(deltaEnergy <= 0.0 || fluidTemp >= maxTemp) && !(deltaEnergy > 0.0 && fluidTemp < minTemp)
            ==> c == Control(p, [])
    ensures p.isRunning && !(deltaEnergy <= 0.0 || fluidTemp >= maxTemp) ==> c == Control(p, [])
    ensures !p.isRunning && !(deltaEnergy > 0.0 && fluidTemp < minTemp) ==> c == Control(p, [])
    ensures c.log != [] ==>
              && c.log[0].PumpStatusUpdated?
              && c.log[0] == PumpStatusUpdated(elapsed, c.log[0].reason, deltaEnergy, fluidTemp, c.pump.isRunning)
              && (c.pump.isRunning ==> c.log[0].reason == PositiveEnergyLowTemperature)
              && (!c.pump.isRunning ==>
                    c.log[0].reason == (if deltaEnergy <= 0.0 then NegativeEnergy else TemperatureTooHigh))
  {
    var stopping := (deltaEnergy <= 0.0 || fluidTemp >= maxTemp) && p.isRunning;
    var p1 := if stopping then Stopped(p, now) else p;
    var starting := deltaEnergy > 0.0 && fluidTemp < minTemp && !p1.isRunning;
    var p2 := if starting then Started(p1, now) else p1;
    if starting then
      Control(p2, [PumpStatusUpdated(elapsed, PositiveEnergyLowTemperature, deltaEnergy, fluidTemp, true)])
    else if stopping then
      var reason := if deltaEnergy <= 0.0 then NegativeEnergy else TemperatureTooHigh;
      Control(p2, [PumpStatusUpdated(elapsed, reason, deltaEnergy, fluidTemp, false)])
    else
      Control(p2, [])
  }

  /**
   * With MIN <= MAX at most one transition happens per call: the pump ends
   * unchanged, stopped, or started from the state it had.
   */
  lemma AtMostOneTransition(p: PumpState, deltaEnergy: real, fluidTemp: real, elapsed: real, now: real,
                            minTemp: real, maxTemp: real)
    requires minTemp <= maxTemp
    ensures var c := ControlPump(p, deltaEnergy, fluidTemp, elapsed, now, minTemp, maxTemp);
            c.pump == p || c.pump == Stopped(p, now) || c.pump == Started(p, now)
  {
  }

  /**
   * When the thresholds are inverted both rules fire in one call: a running
   * pump is stopped, its interval logged, and restarted at once.
   */
  lemma InvertedThresholdsRestart(t0: real, now: real)
    ensures var p := PumpState(true, Some(t0), []);
            var c := ControlPump(p, 1.0, 70.0, 0.0, now, 80.0, 60.0);
            c.pump == Started(Stopped(p, now), now) && c.pump.upTimes == [Interval(t0, now)]
  {
  }

  /**
   * Hysteresis: with MIN <= MAX, repeating a control step with the same energy
   * and temperature changes nothing and dispatches no further log event.
   */
  lemma ControlIdempotent(p: PumpState, deltaEnergy: real, fluidTemp: real, elapsed: real, now: real,
                          minTemp: real, maxTemp: real)
    requires minTemp <= maxTemp
    ensures var c := ControlPump(p, deltaEnergy, fluidTemp, elapsed, now, minTemp, maxTemp);
            ControlPump(c.pump, deltaEnergy, fluidTemp, elapsed, now, minTemp, maxTemp) == Control(c.pump, [])
  {
  }

  // ---------------------------------------------------------------------------
  // One tick
  // ---------------------------------------------------------------------------

  /** Everything but the fluid temperature and the pump is as it was. */
  predicate SameReadings(a: Scene, b: Scene)
  {
    && b.panel == a.panel && b.pipeRate == a.pipeRate && b.env == a.env && b.guiEnabled == a.guiEnabled
    && b.tank.Some? == a.tank.Some? && b.pump.Some? == a.pump.Some?
    && (a.tank.Some? ==>
          && b.tank.value.fluidMass == a.tank.value.fluidMass
          && b.tank.value.heatCapacityFluid == a.tank.value.heatCapacityFluid
          && b.tank.value.energyOutRate == a.tank.value.energyOutRate)
  }

  /** The pump's log only grows, and its invariant is kept. */
  predicate PumpProgresses(a: Scene, b: Scene)
  {
    a.pump.Some? && b.pump.Some? ==>
      && a.pump.value.upTimes <= b.pump.value.upTimes
      && (Valid(a.pump.value) ==> Valid(b.pump.value))
  }

  /**
   * Conservation of energy: the heat the fluid gained between `a` and `b` is
   * the energy produced minus the energy lost in between.
   */
  predicate Conserves(a: World, b: World)
  {
    a.scene.tank.Some? && b.scene.tank.Some? ==>
      (b.scene.tank.value.fluidTemp - a.scene.tank.value.fluidTemp) * HeatCapacity(a.scene.tank.value)
      == (b.sim.totalEnergyProduced - a.sim.totalEnergyProduced) - (b.sim.totalEnergyLost - a.sim.totalEnergyLost)
  }

  /** Whether a tick does anything: `_updateTemp` returns early otherwise. */
  predicate Ticks(w: World)
  {
    w.sim.isStarted && w.scene.tank.Some? && w.scene.pump.Some?
  }

  /** The temperature change an energy difference causes in a fluid of the given heat capacity. */
  function TemperatureChange(absorbed: real, energyOut: real, heatCapacity: real): real
    requires heatCapacity != 0.0
  {
    (absorbed - energyOut) / heatCapacity
  }

  /**
   * `_updateTemp`: energy balance, temperature update, totals, the control step
   * (with the unzeroed energy difference and the updated temperature) and the
   * data event, in that order.
   */
  function UpdateTemp(w: World, radiation: (real, real) -> real, delta: real, elapsed: real, now: real,
                      minTemp: real, maxTemp: real): (r: World)
    requires NonDegenerate(w.scene)
    ensures !Ticks(w) ==> r == w
    ensures r.sim.isStarted == w.sim.isStarted
    ensures SameReadings(w.scene, r.scene) && PumpProgresses(w.scene, r.scene)
    ensures Conserves(w, r)
    ensures w.sim.events <= r.sim.events
    ensures Ticks(w) ==>
              |r.sim.events| > 0 && r.sim.events[|r.sim.events| - 1] == DataUpdated(elapsed, r.scene.tank.value.fluidTemp)
  {
    if !Ticks(w) then w
    else
      var tank, pump := w.scene.tank.value, w.scene.pump.value;
      var energyIn := EnergyIn(w.scene.panel, w.scene.env, radiation, delta, elapsed);
      var energyOut := EnergyOut(w.scene.tank, w.scene.pipeRate, w.scene.pump, w.scene.panel, delta);
      var deltaEnergy := energyIn - energyOut;
      var lost := w.sim.totalEnergyLost + energyOut;
      var produced := if pump.isRunning then w.sim.totalEnergyProduced + energyIn else w.sim.totalEnergyProduced;
      var absorbed := if pump.isRunning then energyIn else 0.0;
      var temp := tank.fluidTemp + TemperatureChange(absorbed, energyOut, HeatCapacity(tank));
      var c := ControlPump(pump, deltaEnergy, temp, elapsed, now, minTemp, maxTemp);
      World(Sim(true, produced, lost, w.sim.events + c.log + [DataUpdated(elapsed, temp)]),
            w.scene.(tank := Some(tank.(fluidTemp := temp)), pump := Some(c.pump)))
  }

  /** A span of frame time in simulated time: the environment's speed multiplies it. */
  function Scaled(t: real, speed: real): real
  {
    t * speed
  }

  /**
   * `update`: scale the frame's delta and elapsed time by the environment's
   * speed and run `_updateTemp`; without an environment, do nothing.
   */
  function Update(w: World, radiation: (real, real) -> real, delta: real, elapsed: real, now: real,
                  minTemp: real, maxTemp: real): (r: World)
    requires NonDegenerate(w.scene)
    ensures w.scene.env.None? ==> r == w
    ensures !Ticks(w) ==> r == w
    ensures r.sim.isStarted == w.sim.isStarted
    ensures SameReadings(w.scene, r.scene) && PumpProgresses(w.scene, r.scene)
    ensures Conserves(w, r)
    ensures w.sim.events <= r.sim.events
    ensures w.scene.env.Some? ==>
              r == UpdateTemp(w, radiation, Scaled(delta, w.scene.env.value.speed),
                              Scaled(elapsed, w.scene.env.value.speed), now, minTemp, maxTemp)
  {
    match w.scene.env
    case None => w
    case Some(env) => UpdateTemp(w, radiation, Scaled(delta, env.speed), Scaled(elapsed, env.speed), now, minTemp, maxTemp)
  }

  /**
   * One started tick: the loss is always added to the lost total, the gain to
   * the produced total only when the pump was running before the control step,
   * and the temperature moves by the absorbed gain minus the loss over the
   * heat capacity. The control step sees the unzeroed difference and the new
   * temperature; its log event, if any, precedes the data event.
   */
  lemma TickAccounting(w: World, radiation: (real, real) -> real, delta: real, elapsed: real, now: real,
                       minTemp: real, maxTemp: real)
    requires NonDegenerate(w.scene) && Ticks(w)
    ensures var r := UpdateTemp(w, radiation, delta, elapsed, now, minTemp, maxTemp);
            var tank, pump := w.scene.tank.value, w.scene.pump.value;
            var energyIn := EnergyIn(w.scene.panel, w.scene.env, radiation, delta, elapsed);
            var energyOut := EnergyOut(w.scene.tank, w.scene.pipeRate, w.scene.pump, w.scene.panel, delta);
            var absorbed := if pump.isRunning then energyIn else 0.0;
            var temp := r.scene.tank.value.fluidTemp;
            var c := ControlPump(pump, energyIn - energyOut, temp, elapsed, now, minTemp, maxTemp);
            && r.sim.totalEnergyLost == w.sim.totalEnergyLost + energyOut
            && r.sim.totalEnergyProduced == w.sim.totalEnergyProduced + absorbed
            && (temp - tank.fluidTemp) * HeatCapacity(tank) == absorbed - energyOut
            && temp == tank.fluidTemp + TemperatureChange(absorbed, energyOut, HeatCapacity(tank))
            && r.scene == w.scene.(tank := Some(tank.(fluidTemp := temp)), pump := Some(c.pump))
            && r.sim == w.sim.(totalEnergyProduced := w.sim.totalEnergyProduced + absorbed,
                               totalEnergyLost := w.sim.totalEnergyLost + energyOut,
                               events := w.sim.events + c.log + [DataUpdated(elapsed, temp)])
  {
  }

  /**
   * A tick of zero length leaves the temperature and both totals as they were
   * (the control step still sees a non-positive energy difference and stops a
   * running pump).
   */
  lemma ZeroDeltaTick(w: World, radiation: (real, real) -> real, elapsed: real, now: real,
                      minTemp: real, maxTemp: real)
    requires NonDegenerate(w.scene) && Ticks(w)
    ensures var r := UpdateTemp(w, radiation, 0.0, elapsed, now, minTemp, maxTemp);
            && r.scene.tank.value.fluidTemp == w.scene.tank.value.fluidTemp
            && r.sim.totalEnergyProduced == w.sim.totalEnergyProduced
            && r.sim.totalEnergyLost == w.sim.totalEnergyLost
            && !r.scene.pump.value.isRunning
  {
  }

  // ---------------------------------------------------------------------------
  // Lifecycle
  // ---------------------------------------------------------------------------

  /** `start` and `stop` need the pump and the GUI; without them they change nothing. */
  predicate Ready(s: Scene)
  {
    s.pump.Some? && s.guiEnabled.Some?
  }

  /**
   * `start`: start the pump at clock reading `now`, mark the simulation started,
   * dispatch the started event and disable the GUI. The totals are untouched.
   */
  function Start(w: World, now: real): (r: World)
    ensures !Ready(w.scene) ==> r == w
    ensures Ready(w.scene) ==>
              && r.sim.isStarted && r.scene.pump.Some? && r.scene.pump.value.isRunning
              && r.sim.totalEnergyProduced == w.sim.totalEnergyProduced
              && r.sim.totalEnergyLost == w.sim.totalEnergyLost
              && r.sim.events == w.sim.events + [SimulationStarted]
              && r.scene.guiEnabled == Some(false)
              && r.scene.pump.value.upTimes == w.scene.pump.value.upTimes
    ensures Ready(w.scene) ==>
              r.scene == w.scene.(pump := Some(Started(w.scene.pump.value, now)), guiEnabled := Some(false))
    ensures r.scene.tank == w.scene.tank
  {
    if !Ready(w.scene) then w
    else
      World(w.sim.(isStarted := true, events := w.sim.events + [SimulationStarted]),
            w.scene.(pump := Some(Started(w.scene.pump.value, now)), guiEnabled := Some(false)))
  }

  /**
   * `stop`: stop the pump at clock reading `now`, mark the simulation stopped,
   * dispatch the stopped event, enable the GUI and reset both totals to 0. The
   * pump's log is not reset: it keeps every interval and gains the current one.
   */
  function Stop(w: World, now: real): (r: World)
    ensures !Ready(w.scene) ==> r == w
    ensures Ready(w.scene) ==>
              && !r.sim.isStarted && r.scene.pump.Some? && !r.scene.pump.value.isRunning
              && r.sim.totalEnergyProduced == 0.0 && r.sim.totalEnergyLost == 0.0
              && r.sim.events == w.sim.events + [SimulationStopped]
              && r.scene.guiEnabled == Some(true)
              && w.scene.pump.value.upTimes <= r.scene.pump.value.upTimes
              && |r.scene.pump.value.upTimes| <= |w.scene.pump.value.upTimes| + 1
    ensures Ready(w.scene) ==>
              r.scene == w.scene.(pump := Some(Stopped(w.scene.pump.value, now)), guiEnabled := Some(true))
    ensures Ready(w.scene) && w.scene.pump.value.startedTime.Some? ==>
              r.scene.pump.value.upTimes
              == w.scene.pump.value.upTimes + [Interval(w.scene.pump.value.startedTime.value, now)]
    ensures r.scene.tank == w.scene.tank
  {
    if !Ready(w.scene) then w
    else
      World(Sim(false, 0.0, 0.0, w.sim.events + [SimulationStopped]),
            w.scene.(pump := Some(Stopped(w.scene.pump.value, now)), guiEnabled := Some(true)))
  }

  // ---------------------------------------------------------------------------
  // Runs of many frames
  // ---------------------------------------------------------------------------

  /** `update` on one frame of the host's loop. */
  function Step(w: World, radiation: (real, real) -> real, f: Frame, minTemp: real, maxTemp: real): World
    requires NonDegenerate(w.scene)
  {
    Update(w, radiation, f.delta, f.elapsed, f.now, minTemp, maxTemp)
  }

  /** The host's loop: `update` once per frame, in order. */
  function Run(w: World, radiation: (real, real) -> real, frames: seq<Frame>, minTemp: real, maxTemp: real): World
    requires NonDegenerate(w.scene)
    decreases |frames|
  {
    if frames == [] then w
    else
      var w1 := Step(w, radiation, frames[0], minTemp, maxTemp);
      Run(w1, radiation, frames[1..], minTemp, maxTemp)
  }

  /** A stopped simulation ignores every frame. */
  lemma {:induction false} IdleRun(w: World, radiation: (real, real) -> real, frames: seq<Frame>,
                                   minTemp: real, maxTemp: real)
    requires NonDegenerate(w.scene) && !w.sim.isStarted
    ensures Run(w, radiation, frames, minTemp, maxTemp) == w
    decreases |frames|
  {
    if frames != [] {
      IdleRun(w, radiation, frames[1..], minTemp, maxTemp);
    }
  }

  /**
   * Over any run of frames the started flag and every reading but the
   * temperature stay as they were, the pump's log only grows and its
   * invariant holds, and events are only appended.
   */
  lemma {:induction false} RunKeepsReadings(w: World, radiation: (real, real) -> real, frames: seq<Frame>,
                                            minTemp: real, maxTemp: real)
    requires NonDegenerate(w.scene)
    ensures var r := Run(w, radiation, frames, minTemp, maxTemp);
            && r.sim.isStarted == w.sim.isStarted
            && SameReadings(w.scene, r.scene) && PumpProgresses(w.scene, r.scene)
            && w.sim.events <= r.sim.events
    decreases |frames|
  {
    if frames != [] {
      var w1 := Step(w, radiation, frames[0], minTemp, maxTemp);
      RunKeepsReadings(w1, radiation, frames[1..], minTemp, maxTemp);
    }
  }

  /** Conservation composes: two conserving steps with the same heat capacity make one. */
  lemma ConservesCompose(a: World, b: World, c: World)
    requires SameReadings(a.scene, b.scene) && Conserves(a, b) && Conserves(b, c)
    ensures Conserves(a, c)
  {
    if a.scene.tank.Some? && c.scene.tank.Some? {
      var k := HeatCapacity(a.scene.tank.value);
      assert HeatCapacity(b.scene.tank.value) == k;
      var t0, t1, t2 := a.scene.tank.value.fluidTemp, b.scene.tank.value.fluidTemp, c.scene.tank.value.fluidTemp;
      assert (t2 - t0) * k == (t1 - t0) * k + (t2 - t1) * k;
    }
  }

  /**
   * Conservation of energy over any run: the heat stored in the fluid changed
   * by exactly the energy produced minus the energy lost.
   */
  lemma {:induction false} RunConserves(w: World, radiation: (real, real) -> real, frames: seq<Frame>,
                                        minTemp: real, maxTemp: real)
    requires NonDegenerate(w.scene)
    ensures Conserves(w, Run(w, radiation, frames, minTemp, maxTemp))
    decreases |frames|
  {
    if frames != [] {
      var w1 := Step(w, radiation, frames[0], minTemp, maxTemp);
      RunConserves(w1, radiation, frames[1..], minTemp, maxTemp);
      ConservesCompose(w, w1, Run(w1, radiation, frames[1..], minTemp, maxTemp));
    }
  }

  /** The positive frames of a run: time never runs backwards, nor does the environment's speed. */
  predicate ForwardFrames(s: Scene, frames: seq<Frame>)
  {
    && (s.env.Some? ==> s.env.value.speed >= 0.0)
    && forall i :: 0 <= i < |frames| ==> frames[i].delta >= 0.0
  }

  /**
   * With non-negative loss rates and forward time, the lost total never
   * decreases over a run; with non-negative gains, neither does the produced total.
   */
  lemma {:induction false} RunTotalsGrow(w: World, radiation: (real, real) -> real, frames: seq<Frame>,
                                         minTemp: real, maxTemp: real)
    requires NonDegenerate(w.scene) && ForwardFrames(w.scene, frames)
    ensures LossesNonNegative(w.scene) ==>
              Run(w, radiation, frames, minTemp, maxTemp).sim.totalEnergyLost >= w.sim.totalEnergyLost
    ensures GainsNonNegative(w.scene, radiation) ==>
              Run(w, radiation, frames, minTemp, maxTemp).sim.totalEnergyProduced >= w.sim.totalEnergyProduced
    decreases |frames|
  {
    if frames != [] {
      var f := frames[0];
      var w1 := Step(w, radiation, f, minTemp, maxTemp);
      if Ticks(w) && w.scene.env.Some? {
        var d := Scaled(f.delta, w.scene.env.value.speed);
        assert d >= 0.0;
        if LossesNonNegative(w.scene) {
          EnergyOutNonNegative(w.scene, d);
        }
        if GainsNonNegative(w.scene, radiation) {
          EnergyInNonNegative(w.scene, radiation, d, Scaled(f.elapsed, w.scene.env.value.speed));
        }
      }
      assert w1.sim.totalEnergyLost >= w.sim.totalEnergyLost || !LossesNonNegative(w.scene);
      assert w1.sim.totalEnergyProduced >= w.sim.totalEnergyProduced || !GainsNonNegative(w.scene, radiation);
      assert ForwardFrames(w1.scene, frames[1..]) by {
        forall i | 0 <= i < |frames[1..]| ensures frames[1..][i].delta >= 0.0 {
          assert frames[1..][i] == frames[i + 1];
        }
      }
      RunTotalsGrow(w1, radiation, frames[1..], minTemp, maxTemp);
    }
  }
}
