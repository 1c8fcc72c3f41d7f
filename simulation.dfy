/**
 * The simulator context and the simulation system that drives it: the
 * start/stop lifecycle, the per-tick energy balance and the automatic pump
 * control, on the entities the context holds. The new state after `Start`,
 * `Stop`, `Dispose`, `UpdateTemp` and `Update` is the corresponding function
 * of the EnergyBalance module applied to the old state; `ControlPump` ties the
 * pump and the events to `EnergyBalance.ControlPump`; `Absorb` and the
 * setters state their new fields directly.
 */
module Simulation {
  import opened Common
  import opened Pump
  import opened StorageTank
  import opened SolarPanel
  import opened Pipe
  import opened Environment
  import EnergyBalance

  /** The GUI, reduced to the one thing the simulation system does with it: enable or disable it. */
  class GuiSystem {
    var enabled: bool

    constructor ()
      ensures enabled
    {
      enabled := true;
    }

    method Enable(value: bool)
      modifies this
      ensures enabled == value
    {
      enabled := value;
    }
  }

  /** What the simulation system reads from a tank. */
  function ReadTank(tank: StorageTankEntity): EnergyBalance.TankReading
    reads tank
  {
    EnergyBalance.TankReading(tank.fluidTemp, tank.MassFluid(), tank.specificHeatCapacityFluid, tank.energyOutRate)
  }

  /** The registry of entities and systems; any of them may be missing. */
  class Simulator {
    var storageTankEntity: StorageTankEntity?
    var solarPanelEntity: SolarPanelEntity?
    var pipeEntity: PipeEntity?
    var pumpEntity: PumpEntity?
    var environmentEntity: EnvironmentEntity?
    var guiSystem: GuiSystem?

    constructor (tank: StorageTankEntity?, panel: SolarPanelEntity?, pipe: PipeEntity?, pump: PumpEntity?,
                 env: EnvironmentEntity?, gui: GuiSystem?)
      ensures storageTankEntity == tank && solarPanelEntity == panel && pipeEntity == pipe
      ensures pumpEntity == pump && environmentEntity == env && guiSystem == gui
    {
      storageTankEntity, solarPanelEntity, pipeEntity := tank, panel, pipe;
      pumpEntity, environmentEntity, guiSystem := pump, env, gui;
    }

    /** The entities as the simulation system sees them. */
    function Scene(): EnergyBalance.Scene
      reads this, storageTankEntity, solarPanelEntity, pipeEntity, pumpEntity, environmentEntity, guiSystem
    {
      EnergyBalance.Scene(
        if storageTankEntity == null then None else Some(ReadTank(storageTankEntity)),
        if solarPanelEntity == null then None
        else Some(EnergyBalance.PanelReading(solarPanelEntity.efficiencySurface, solarPanelEntity.energyOutRate)),
        if pipeEntity == null then None else Some(pipeEntity.EnergyOutRate(storageTankEntity)),
        if environmentEntity == null then None
        else Some(EnergyBalance.EnvReading(environmentEntity.latitude, environmentEntity.speed)),
        if pumpEntity == null then None else Some(pumpEntity.State()),
        if guiSystem == null then None else Some(guiSystem.enabled))
    }

    /** Re-measure the pipe, as each tank and panel setter does through `setGeometry`. */
    method RefreshPipe(totalLength: seq<Vec3> -> real)
      modifies pipeEntity
      ensures pipeEntity != null ==> pipeEntity.radius == old(pipeEntity.radius)
      ensures pipeEntity != null ==> pipeEntity.heatLossCoefficient == old(pipeEntity.heatLossCoefficient)
      ensures pipeEntity != null && (storageTankEntity == null || solarPanelEntity == null || pumpEntity == null)
              ==> pipeEntity.length == old(pipeEntity.length)
      ensures pipeEntity != null && storageTankEntity != null && solarPanelEntity != null && pumpEntity != null
              ==> pipeEntity.length == totalLength(Path(storageTankEntity, pumpEntity, solarPanelEntity))
    {
      if pipeEntity != null {
        pipeEntity.SetGeometry(storageTankEntity, solarPanelEntity, pumpEntity, totalLength);
      }
    }

    /** The tank's `height` setter: set the height, then re-measure the pipe. */
    method SetTankHeight(value: real, totalLength: seq<Vec3> -> real)
      requires storageTankEntity != null
      modifies storageTankEntity`height, pipeEntity
      ensures storageTankEntity.height == value
      ensures pipeEntity != null ==> pipeEntity.radius == old(pipeEntity.radius)
      ensures pipeEntity != null ==> pipeEntity.heatLossCoefficient == old(pipeEntity.heatLossCoefficient)
      ensures pipeEntity != null && (solarPanelEntity == null || pumpEntity == null)
              ==> pipeEntity.length == old(pipeEntity.length)
      ensures pipeEntity != null && solarPanelEntity != null && pumpEntity != null
              ==> pipeEntity.length == totalLength(Path(storageTankEntity, pumpEntity, solarPanelEntity))
    {
      storageTankEntity.SetHeight(value);
      RefreshPipe(totalLength);
    }

    /** The tank's `radius` setter: set the radius, then re-measure the pipe. */
    method SetTankRadius(value: real, totalLength: seq<Vec3> -> real)
      requires storageTankEntity != null
      modifies storageTankEntity`radius, pipeEntity
      ensures storageTankEntity.radius == value
      ensures pipeEntity != null ==> pipeEntity.radius == old(pipeEntity.radius)
      ensures pipeEntity != null ==> pipeEntity.heatLossCoefficient == old(pipeEntity.heatLossCoefficient)
      ensures pipeEntity != null && (solarPanelEntity == null || pumpEntity == null)
              ==> pipeEntity.length == old(pipeEntity.length)
      ensures pipeEntity != null && solarPanelEntity != null && pumpEntity != null
              ==> pipeEntity.length == totalLength(Path(storageTankEntity, pumpEntity, solarPanelEntity))
    {
      storageTankEntity.SetRadius(value);
      RefreshPipe(totalLength);
    }

    /** The panel's `width` setter: set the width, then re-measure the pipe. */
    method SetPanelWidth(value: real, totalLength: seq<Vec3> -> real)
      requires solarPanelEntity != null
      modifies solarPanelEntity`width, pipeEntity
      ensures solarPanelEntity.width == value
      ensures pipeEntity != null ==> pipeEntity.radius == old(pipeEntity.radius)
      ensures pipeEntity != null ==> pipeEntity.heatLossCoefficient == old(pipeEntity.heatLossCoefficient)
      ensures pipeEntity != null && (storageTankEntity == null || pumpEntity == null)
              ==> pipeEntity.length == old(pipeEntity.length)
      ensures pipeEntity != null && storageTankEntity != null && pumpEntity != null
              ==> pipeEntity.length == totalLength(Path(storageTankEntity, pumpEntity, solarPanelEntity))
    {
      solarPanelEntity.SetWidth(value);
      RefreshPipe(totalLength);
    }

    /** The panel's `height` setter: set the height, then re-measure the pipe. */
    method SetPanelHeight(value: real, totalLength: seq<Vec3> -> real)
      requires solarPanelEntity != null
      modifies solarPanelEntity`height, pipeEntity
      ensures solarPanelEntity.height == value
      ensures pipeEntity != null ==> pipeEntity.radius == old(pipeEntity.radius)
      ensures pipeEntity != null ==> pipeEntity.heatLossCoefficient == old(pipeEntity.heatLossCoefficient)
      ensures pipeEntity != null && (storageTankEntity == null || pumpEntity == null)
              ==> pipeEntity.length == old(pipeEntity.length)
      ensures pipeEntity != null && storageTankEntity != null && pumpEntity != null
              ==> pipeEntity.length == totalLength(Path(storageTankEntity, pumpEntity, solarPanelEntity))
    {
      solarPanelEntity.SetHeight(value);
      RefreshPipe(totalLength);
    }
  }

  /** The simulation system: lifecycle, energy totals and the per-tick update. */
  class SimulationSystem {
    const simulator: Simulator
    /** EXPECTED_MIN_TEMPERATURE: below it, with positive energy, the pump is started. */
    const minTemperature: real
    /** EXPECTED_MAX_TEMPERATURE: at or above it the pump is stopped. */
    const maxTemperature: real
    var totalEnergyProduced: real
    var totalEnergyLost: real
    var isStarted: bool
    /** The events dispatched so far, oldest first. */
    var events: seq<EnergyBalance.Event>

    /** The system's own state. */
    function Sim(): EnergyBalance.Sim
      reads this
    {
      EnergyBalance.Sim(isStarted, totalEnergyProduced, totalEnergyLost, events)
    }

    /** The system together with the entities it drives. */
    function World(): EnergyBalance.World
      reads this, simulator, simulator.storageTankEntity, simulator.solarPanelEntity, simulator.pipeEntity,
            simulator.pumpEntity, simulator.environmentEntity, simulator.guiSystem
    {
      EnergyBalance.World(Sim(), simulator.Scene())
    }

    constructor (simulator: Simulator, minTemperature: real, maxTemperature: real)
      requires minTemperature <= maxTemperature
      ensures this.simulator == simulator
      ensures this.minTemperature == minTemperature && this.maxTemperature == maxTemperature
      ensures Sim() == EnergyBalance.Sim(false, 0.0, 0.0, [])
    {
      this.simulator := simulator;
      this.minTemperature := minTemperature;
      this.maxTemperature := maxTemperature;
      totalEnergyProduced := 0.0;
      totalEnergyLost := 0.0;
      isStarted := false;
      events := [];
    }

    /**
     * `start`. Without a pump or a GUI the "not ready" error is caught and
     * logged before anything changes.
     */
    method Start(now: real)
      modifies this`isStarted, this`events, simulator.pumpEntity, simulator.guiSystem
      ensures World() == EnergyBalance.Start(old(World()), now)
      ensures simulator.pumpEntity != null ==> simulator.pumpEntity.position == old(simulator.pumpEntity.position)
    {
      var pump, gui := simulator.pumpEntity, simulator.guiSystem;
      if pump == null || gui == null {
        return;
      }
      pump.Start(now);
      isStarted := true;
      events := events + [EnergyBalance.SimulationStarted];
      gui.Enable(false);
    }

    /**
     * `stop`. Without a pump or a GUI the "not ready" error is caught and
     * logged before anything changes.
     */
    method Stop(now: real)
      modifies this`isStarted, this`events, this`totalEnergyProduced, this`totalEnergyLost,
               simulator.pumpEntity, simulator.guiSystem
      ensures World() == EnergyBalance.Stop(old(World()), now)
      ensures simulator.pumpEntity != null ==> simulator.pumpEntity.position == old(simulator.pumpEntity.position)
    {
      var pump, gui := simulator.pumpEntity, simulator.guiSystem;
      if pump == null || gui == null {
        return;
      }
      pump.Stop(now);
      isStarted := false;
      events := events + [EnergyBalance.SimulationStopped];
      gui.Enable(true);
      totalEnergyProduced := 0.0;
      totalEnergyLost := 0.0;
    }

    /** `dispose`: stop the simulation. */
    method Dispose(now: real)
      modifies this`isStarted, this`events, this`totalEnergyProduced, this`totalEnergyLost,
               simulator.pumpEntity, simulator.guiSystem
      ensures World() == EnergyBalance.Stop(old(World()), now)
    {
      Stop(now);
    }

    /**
     * `_controlPump`: nothing happens without a tank or a pump, or while the
     * simulation is stopped; otherwise the pump is switched by the control
     * policy at the tank's current temperature and its log event appended.
     */
    method ControlPump(deltaEnergy: real, elapsed: real, now: real)
      modifies this`events, simulator.pumpEntity
      ensures var tank, pump := simulator.storageTankEntity, simulator.pumpEntity;
              if tank == null || pump == null || !isStarted then
                events == old(events) && (pump != null ==> pump.State() == old(pump.State()))
              else
                var c := EnergyBalance.ControlPump(old(pump.State()), deltaEnergy, tank.fluidTemp, elapsed, now,
                                                   minTemperature, maxTemperature);
                pump.State() == c.pump && events == old(events) + c.log
      ensures simulator.pumpEntity != null ==> simulator.pumpEntity.position == old(simulator.pumpEntity.position)
    {
      var tank, pump := simulator.storageTankEntity, simulator.pumpEntity;
      if tank == null || pump == null || !isStarted {
        return;
      }
      var reason: Option<EnergyBalance.Reason> := None;
      var on := false;
      var fluidTemp := tank.fluidTemp;
      if deltaEnergy <= 0.0 || fluidTemp >= maxTemperature {
        if pump.isRunning {
          pump.Stop(now);
          reason := Some(if deltaEnergy <= 0.0 then EnergyBalance.NegativeEnergy else EnergyBalance.TemperatureTooHigh);
          on := false;
        }
      }
      if deltaEnergy > 0.0 && fluidTemp < minTemperature {
        if !pump.isRunning {
          pump.Start(now);
          reason := Some(EnergyBalance.PositiveEnergyLowTemperature);
          on := true;
        }
      }
      if reason.Some? {
        events := events + [EnergyBalance.PumpStatusUpdated(elapsed, reason.value, deltaEnergy, fluidTemp, on)];
      }
    }

    /**
     * The energy-balance half of `_updateTemp`: the loss always counts as lost,
     * the gain counts as produced and warms the fluid only while the pump runs.
     */
    method Absorb(energyIn: real, energyOut: real)
      requires simulator.storageTankEntity != null && simulator.pumpEntity != null
      requires EnergyBalance.HeatCapacity(ReadTank(simulator.storageTankEntity)) != 0.0
      modifies this`totalEnergyProduced, this`totalEnergyLost, simulator.storageTankEntity`fluidTemp
      ensures var absorbed := if simulator.pumpEntity.isRunning then energyIn else 0.0;
              && totalEnergyLost == old(totalEnergyLost) + energyOut
              && totalEnergyProduced == old(totalEnergyProduced) + absorbed
              && simulator.storageTankEntity.fluidTemp
                 == old(simulator.storageTankEntity.fluidTemp)
                    + EnergyBalance.TemperatureChange(absorbed, energyOut,
                                                      EnergyBalance.HeatCapacity(old(ReadTank(simulator.storageTankEntity))))
    {
      var tank, pump := simulator.storageTankEntity, simulator.pumpEntity;
      var heatCapacityFluid, fluidMass := tank.specificHeatCapacityFluid, tank.MassFluid();
      var energyIn := energyIn;
      totalEnergyLost := totalEnergyLost + energyOut;
      if pump.isRunning {
        totalEnergyProduced := totalEnergyProduced + energyIn;
      } else {
        energyIn := 0.0;
      }
      var deltaTemp := EnergyBalance.TemperatureChange(energyIn, energyOut, fluidMass * heatCapacityFluid);
      tank.fluidTemp := tank.fluidTemp + deltaTemp;
    }

    /** `_updateTemp`: one tick of the energy balance at simulated `delta` and `elapsed`. */
    method UpdateTemp(delta: real, elapsed: real, now: real, radiation: (real, real) -> real)
      requires EnergyBalance.NonDegenerate(simulator.Scene())
      modifies this`totalEnergyProduced, this`totalEnergyLost, this`events,
               simulator.storageTankEntity, simulator.pumpEntity
      ensures World() == EnergyBalance.UpdateTemp(old(World()), radiation, delta, elapsed, now,
                                                  minTemperature, maxTemperature)
      ensures simulator.storageTankEntity != null ==>
                simulator.storageTankEntity.Parameters() == old(simulator.storageTankEntity.Parameters())
      ensures simulator.pumpEntity != null ==> simulator.pumpEntity.position == old(simulator.pumpEntity.position)
    {
      var tank, pump := simulator.storageTankEntity, simulator.pumpEntity;
      if tank == null || pump == null || !isStarted {
        return;
      }
      ghost var w := World();
      EnergyBalance.TickAccounting(w, radiation, delta, elapsed, now, minTemperature, maxTemperature);
      var scene := simulator.Scene();
      var energyIn := EnergyBalance.EnergyIn(scene.panel, scene.env, radiation, delta, elapsed);
      var energyOut := EnergyBalance.EnergyOut(scene.tank, scene.pipeRate, scene.pump, scene.panel, delta);
      var deltaEnergy := energyIn - energyOut;
      Absorb(energyIn, energyOut);
      ghost var heated := simulator.Scene();
      assert heated == w.scene.(tank := Some(w.scene.tank.value.(fluidTemp := tank.fluidTemp)));
      ControlPump(deltaEnergy, elapsed, now);
      events := events + [EnergyBalance.DataUpdated(elapsed, tank.fluidTemp)];
    }

    /**
     * `update`: scale the frame's times by the environment's speed and run
     * `_updateTemp`; without an environment, do nothing.
     */
    method Update(delta: real, elapsed: real, now: real, radiation: (real, real) -> real)
      requires EnergyBalance.NonDegenerate(simulator.Scene())
      modifies this`totalEnergyProduced, this`totalEnergyLost, this`events,
               simulator.storageTankEntity, simulator.pumpEntity
      ensures World() == EnergyBalance.Update(old(World()), radiation, delta, elapsed, now,
                                              minTemperature, maxTemperature)
      ensures simulator.storageTankEntity != null ==>
                simulator.storageTankEntity.Parameters() == old(simulator.storageTankEntity.Parameters())
      ensures simulator.pumpEntity != null ==> simulator.pumpEntity.position == old(simulator.pumpEntity.position)
    {
      var environmentEntity := simulator.environmentEntity;
      if environmentEntity == null {
        return;
      }
      var speed := environmentEntity.speed;
      var realElapsed := EnergyBalance.Scaled(elapsed, speed);
      var realDelta := EnergyBalance.Scaled(delta, speed);
      UpdateTemp(realDelta, realElapsed, now, radiation);
    }
  }
}
