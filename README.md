# Solar-heating simulator: control and bookkeeping core

This project models the physical core of an interactive solar-heating simulator in Dafny. A storage tank, a solar panel, a pipe and a pump form a loop. On each frame of the host loop the simulation system does the following:

- takes the solar energy the panel gained and the heat the circuit lost;
- updates the tank's fluid temperature;
- adds to two cumulative energy totals;
- lets an automatic control policy switch the pump;
- dispatches a data event that a chart records.

Every physical quantity is an exact `real`.

The model follows the program's structure, with one module per source file:

| module | file | form |
|---|---|---|
| `Pump` | `pumpEntity.ts` | `PumpEntity` class updated in place, specified by the `PumpState` value with `Started`/`Stopped` |
| `StorageTank`, `SolarPanel`, `Pipe`, `Environment` | the entity files | classes whose setters modify only their own field (the `speed` setter also its coupled `sunRotSpeed`) and derived getters as functions, plus lemmas on the closed formulas |
| `EnergyBalance` | `simulationSystem.ts` | the system's behaviour as functions over a `World` value (readings of the entities plus the system's own state), with conservation and control lemmas |
| `Simulation` | `simulationSystem.ts`, the simulator registry | `SimulationSystem` and `Simulator` classes; the `ensures` of `Start`, `Stop`, `Dispose`, `UpdateTemp` and `Update` say the new `World()` is the matching `EnergyBalance` function of the old one; `ControlPump` ties the pump and the events to `EnergyBalance.ControlPump`; `Absorb` and the setters state their new fields directly |
| `Chart` | `visualizer/index.ts` | the chart's data buffer as a value (`Record`) and as the `Visualizer` class whose listener is proved against it |

Some inputs are opaque:

- π and `SECONDS_PER_DAY` are positive parameters (`Common.Positive`).
- The clock reading the pump takes is a parameter `now`.
- The solar radiation is a function-valued parameter `radiation(elapsed, latitude)`.
- The path-length measure is a function-valued parameter `totalLength(points)`.
- The control thresholds `EXPECTED_MIN_TEMPERATURE` and `EXPECTED_MAX_TEMPERATURE` are constants of `SimulationSystem`, with `min <= max` required when the system is built.

The simulation system reads several names that the entity files do not define:

- on the tank: `fluidTemp`, `fluidMass`, `heatCapacityFluid`, `energyOutRate`, `deltaEnvTemp`;
- on the panel: `efficiencySurface`, `energyOutRate`.

These are fields of the entity classes. `fluidMass` is the tank's `massFluid` and `heatCapacityFluid` its `specificHeatCapacityFluid`. The others are fields the entity's owner supplies. The temperature update divides by `fluidMass * heatCapacityFluid`, so every tick requires it to be non-zero (`EnergyBalance.NonDegenerate`).

Three behaviours of the code are worth stating plainly, because a reader might expect otherwise:

- `stop()` on a pump that holds a start time appends exactly `[startedTime, now]` to its up-time log (pumpEntity.ts:89-93), so a simulation stop while the pump is running grows that log by one; when automatic control had already stopped the pump, it does not grow. See `Pump.Stopped` and `EnergyBalance.Stop`.
- The two control rules are two independent `if`s, not an `if`/`else if`. With inverted thresholds a running pump can be stopped and restarted in one call (`EnergyBalance.InvertedThresholdsRestart`). With `min <= max`, at most one transition happens (`EnergyBalance.AtMostOneTransition`).
- Energy in and energy out are scaled by `delta / 1000`, as the code does.

## Model

| member | source | states |
|---|---|---|
| Pump.Started | src/helpers/simulator/entities/pumpEntity.ts:78-82 | `start` leaves the pump running with start time `now` (the invariant holds) and the up-time log unchanged |
| Pump.Stopped | src/helpers/simulator/entities/pumpEntity.ts:87-96 | `stop` always leaves the pump stopped with no start time; the old log is a prefix of the new one, which is at most one longer; with a start time held exactly `[startedTime, now]` is appended, with none held nothing is |
| Pump.ApplyAllValid | src/helpers/simulator/entities/pumpEntity.ts:78-96 | the invariant "running exactly when a start time is held" is preserved by every sequence of `start`/`stop` calls |
| Pump.ApplyAllAppendOnly | src/helpers/simulator/entities/pumpEntity.ts:89-93 | over any sequence of calls the up-time log is append-only: the old log is a prefix, growing by at most one entry per call |
| Pump.ApplyAllWellOrdered | src/helpers/simulator/entities/pumpEntity.ts:78-96 | with a clock that never goes backwards, every recorded interval starts no later than it stops |
| Pump.RestartThenStop | src/helpers/simulator/entities/pumpEntity.ts:78-93 | starting twice overwrites the start time: the next stop logs a single interval beginning at the second start |
| Pump.StopWhenIdle | src/helpers/simulator/entities/pumpEntity.ts:87-96 | stopping a stopped pump changes nothing |
| Pump.PumpEntity.constructor | src/helpers/simulator/entities/pumpEntity.ts:15-17 | a new pump is stopped, holds no start time and has an empty log |
| Pump.PumpEntity.Start | src/helpers/simulator/entities/pumpEntity.ts:78-82 | the pump's new state is `Started(old state, now)`: running, start time `now`, log unchanged; position unchanged |
| Pump.PumpEntity.Stop | src/helpers/simulator/entities/pumpEntity.ts:87-96 | the new state is `Stopped(old state, now)`: the interval `[startedTime, now]` is appended exactly when a start time was held; the start time is cleared and the pump is stopped |
| StorageTank.AreaIsWallPlusCaps | src/helpers/simulator/entities/storageTankEntity.ts:58-62 | `2πr(r+h)` is the side wall `2πrh` plus two end caps `πr²` |
| StorageTank.VolumeScalesWithRadiusSquared | src/helpers/simulator/entities/storageTankEntity.ts:65-69 | scaling the radius by `k` scales the volume by `k²` |
| StorageTank.NonNegativeQuantities | src/helpers/simulator/entities/storageTankEntity.ts:58-81 | non-negative radius, height and density give non-negative area, volume and fluid mass |
| StorageTank.VolumeAdditiveInHeight | src/helpers/simulator/entities/storageTankEntity.ts:65-81 | volume and mass are additive in the height |
| StorageTank.StorageTankEntity.constructor | src/helpers/simulator/entities/storageTankEntity.ts:22-27 | a new tank has the default height 1 and radius 0.5, the given coefficients, and its fluid at the initial temperature |
| StorageTank.StorageTankEntity.Area | src/helpers/simulator/entities/storageTankEntity.ts:58-62 | the area is the side wall plus both caps, and is non-negative for non-negative dimensions |
| StorageTank.StorageTankEntity.Volume | src/helpers/simulator/entities/storageTankEntity.ts:65-69 | the volume is non-negative for non-negative dimensions |
| StorageTank.StorageTankEntity.MassFluid | src/helpers/simulator/entities/storageTankEntity.ts:77-81 | the fluid mass is non-negative for non-negative dimensions and density |
| StorageTank.StorageTankEntity.InPoint | src/helpers/simulator/entities/storageTankEntity.ts:99-105 | the inlet keeps the position's `x` and `z` |
| StorageTank.StorageTankEntity.OutPoint | src/helpers/simulator/entities/storageTankEntity.ts:108-113 | the outlet keeps the position's `x` and `z` |
| StorageTank.StorageTankEntity.SetHeight | src/helpers/simulator/entities/storageTankEntity.ts:41-44 | only the height changes; area, volume and mass follow the new height |
| StorageTank.StorageTankEntity.SetRadius | src/helpers/simulator/entities/storageTankEntity.ts:52-55 | only the radius changes; area, volume and mass follow the new radius |
| StorageTank.InletAboveOutlet | src/helpers/simulator/entities/storageTankEntity.ts:99-113 | the inlet lies `height - 0.2` directly above the outlet |
| SolarPanel.AreaNonNegative | src/helpers/simulator/entities/solarPanelEntity.ts:60-64 | the area is non-negative for non-negative dimensions |
| SolarPanel.AreaLinear | src/helpers/simulator/entities/solarPanelEntity.ts:60-64 | the area is additive and homogeneous in each dimension |
| SolarPanel.SolarPanelEntity.constructor | src/helpers/simulator/entities/solarPanelEntity.ts:26-29 | a new panel has the given dimensions and coefficients |
| SolarPanel.SolarPanelEntity.Area | src/helpers/simulator/entities/solarPanelEntity.ts:60-64 | the area is non-negative for non-negative dimensions |
| SolarPanel.SolarPanelEntity.InPoint | src/helpers/simulator/entities/solarPanelEntity.ts:77-86 | the inlet is at `x + width/2 - 0.1`, `y + 0.1` |
| SolarPanel.SolarPanelEntity.OutPoint | src/helpers/simulator/entities/solarPanelEntity.ts:89-98 | the outlet is at `x + width/2 - 0.1`, `y + 0.1` |
| SolarPanel.SolarPanelEntity.SetWidth | src/helpers/simulator/entities/solarPanelEntity.ts:43-46 | only the width changes; the area follows it |
| SolarPanel.SolarPanelEntity.SetHeight | src/helpers/simulator/entities/solarPanelEntity.ts:54-57 | only the height changes; the area follows it |
| SolarPanel.InletOppositeOutlet | src/helpers/simulator/entities/solarPanelEntity.ts:77-98 | inlet and outlet share `x` and `y`, and lie `height` apart along `z` |
| Pipe.Path | src/helpers/simulator/entities/pipeEntity.ts:87-94 | the path has six points, from the tank outlet to the tank inlet |
| Pipe.PipeEntity.constructor | src/helpers/simulator/entities/pipeEntity.ts:16-18 | a new pipe has the given radius and coefficient; its length is 0 unless tank, panel and pump all exist, in which case it is the measured path length |
| Pipe.PipeEntity.Area | src/helpers/simulator/entities/pipeEntity.ts:32-36 | the area is 0 at length 0, and non-negative for non-negative radius and length |
| Pipe.PipeEntity.HeatLossSurface | src/helpers/simulator/entities/pipeEntity.ts:44-48 | the heat-loss surface is 0 at length 0 |
| Pipe.PipeEntity.EnergyOutRate | src/helpers/simulator/entities/pipeEntity.ts:51-61 | the loss rate is 0 without a tank, and 0 at length 0 |
| Pipe.PipeEntity.SetGeometry | src/helpers/simulator/entities/pipeEntity.ts:80-97 | with tank, panel or pump missing the length is unchanged; otherwise it is the measured length of the six-point path; nothing else changes |
| Pipe.RateFollowsTemperatureDifference | src/helpers/simulator/entities/pipeEntity.ts:51-61 | with non-negative coefficient, radius and length, the loss rate has the sign of the tank's temperature difference |
| Pipe.PathClosesAtTank | src/helpers/simulator/entities/pipeEntity.ts:87-94 | the path ends at the tank inlet, `height - 0.2` above where it starts |
| Environment.OneTurnPerSimulatedDay | src/helpers/simulator/entities/environmentEntity.ts:35-38 | at any non-zero speed the sun turns exactly 2π in one simulated day |
| Environment.RotationFollowsSpeed | src/helpers/simulator/entities/environmentEntity.ts:35-38 | the sun's rotation speed has the sign of `speed` and scales linearly with it |
| Environment.EnvironmentEntity.constructor | src/helpers/simulator/entities/environmentEntity.ts:18-21 | a new environment has the given latitude, temperature and speed, and satisfies the invariant `sunRotSpeed == (2π/SECONDS_PER_DAY)·speed` |
| Environment.EnvironmentEntity.SetSpeed | src/helpers/simulator/entities/environmentEntity.ts:35-38 | the speed is set and the rotation speed updated with it, so the invariant holds; only these two fields change |
| Environment.EnvironmentEntity.SetAmbientTemp | src/helpers/simulator/entities/environmentEntity.ts:56-58 | only the ambient temperature changes, and the invariant is kept |
| Environment.ValidEntityTurnsOncePerDay | src/helpers/simulator/entities/environmentEntity.ts:20-21 | an entity keeping its invariant turns its sun exactly 2π per simulated day, at whatever non-zero speed was last set |
| EnergyBalance.EnergyIn | src/helpers/simulator/systems/simulationSystem.ts:91-104 | energy in is 0 without a panel or an environment, and 0 for a zero-length frame |
| EnergyBalance.EnergyOut | src/helpers/simulator/systems/simulationSystem.ts:109-133 | energy out is 0 when tank, pipe, pump or panel is missing, and 0 for a zero-length frame |
| EnergyBalance.EnergyInAdditive | src/helpers/simulator/systems/simulationSystem.ts:99-101 | energy in is additive in the frame time |
| EnergyBalance.EnergyOutAdditive | src/helpers/simulator/systems/simulationSystem.ts:122-130 | energy out is additive in the frame time |
| EnergyBalance.RunningPumpExposesCircuit | src/helpers/simulator/systems/simulationSystem.ts:122-130 | a running pump's loss is the stopped pump's loss plus the pipe's and panel's loss rates times `delta/1000` |
| EnergyBalance.EnergyInNonNegative | src/helpers/simulator/systems/simulationSystem.ts:96-101 | with non-negative absorbing surface and radiation and a forward frame, energy in is non-negative |
| EnergyBalance.EnergyOutNonNegative | src/helpers/simulator/systems/simulationSystem.ts:114-130 | with non-negative loss rates and a forward frame, energy out is non-negative |
| EnergyBalance.ControlPump | src/helpers/simulator/systems/simulationSystem.ts:145-187 | rule 1 (no positive energy or temperature at or over the maximum) leaves the pump stopped, given min ≤ max; rule 2 (positive energy and temperature under the minimum) leaves it running; with neither rule it is unchanged and nothing is logged; a pump already in the state a rule asks for is left alone with no event; one event is logged exactly when the pump changed, carrying its reason and new status; the log only grows and the invariant is kept |
| EnergyBalance.AtMostOneTransition | src/helpers/simulator/systems/simulationSystem.ts:154-172 | with min ≤ max, a control step leaves the pump unchanged, stopped or started, never both |
| EnergyBalance.InvertedThresholdsRestart | src/helpers/simulator/systems/simulationSystem.ts:154-172 | with min > max, both rules fire in one call: a running pump is stopped, its interval logged, and restarted |
| EnergyBalance.ControlIdempotent | src/helpers/simulator/systems/simulationSystem.ts:154-172 | with min ≤ max, repeating a control step with the same readings changes nothing and logs nothing |
| EnergyBalance.UpdateTemp | src/helpers/simulator/systems/simulationSystem.ts:193-234 | without tank or pump, or when stopped, nothing changes; otherwise the heat the fluid gained equals produced minus lost energy (conservation); every other reading and the started flag are kept; the pump log only grows; events are appended, ending with the data event carrying the new temperature |
| EnergyBalance.TickAccounting | src/helpers/simulator/systems/simulationSystem.ts:204-233 | a started tick adds energy out to the lost total; it adds energy in to the produced total only if the pump was running before the control step; the temperature moves by (absorbed − out)/(mass·heat capacity); control sees the unzeroed difference and the new temperature, and its event precedes the data event |
| EnergyBalance.ZeroDeltaTick | src/helpers/simulator/systems/simulationSystem.ts:204-226 | a zero-length tick leaves temperature and both totals unchanged, and its non-positive energy difference leaves the pump stopped |
| EnergyBalance.Update | src/helpers/simulator/systems/simulationSystem.ts:239-252 | without an environment nothing changes; otherwise the result is `UpdateTemp` at `delta·speed` and `elapsed·speed`, so it keeps conservation, the readings and the started flag, and only appends events |
| EnergyBalance.Start | src/helpers/simulator/systems/simulationSystem.ts:36-57 | without pump or GUI nothing changes; otherwise the system is started, the pump becomes `Started(pump, now)` (running, start time `now`), the GUI is disabled, the started event is appended, the totals and pump log are untouched, and every other reading (tank, panel, pipe, environment) is unchanged |
| EnergyBalance.Stop | src/helpers/simulator/systems/simulationSystem.ts:62-86 | without pump or GUI nothing changes; otherwise the system is stopped, the pump is stopped, the GUI is enabled, the stopped event is appended, and both totals are exactly 0; the pump becomes `Stopped(pump, now)`, so exactly `[startedTime, now]` is appended when a start time was held; every other reading (tank, panel, pipe, environment) is unchanged |
| EnergyBalance.IdleRun | src/helpers/simulator/systems/simulationSystem.ts:193-252 | a stopped simulation ignores every run of frames |
| EnergyBalance.RunKeepsReadings | src/helpers/simulator/systems/simulationSystem.ts:193-252 | over any run of frames the started flag and all readings but temperature and pump are kept, the pump log only grows with its invariant kept, and events are only appended |
| EnergyBalance.ConservesCompose | src/helpers/simulator/systems/simulationSystem.ts:208-223 | two conserving steps over the same fluid make one conserving step |
| EnergyBalance.RunConserves | src/helpers/simulator/systems/simulationSystem.ts:208-223 | conservation of energy over any run: heat stored in the fluid changes by produced minus lost energy |
| EnergyBalance.RunTotalsGrow | src/helpers/simulator/systems/simulationSystem.ts:208-215 | with forward frames, the lost total never decreases when loss rates are non-negative, and the produced total never decreases when gains are non-negative |
| Simulation.Simulator.constructor | src/helpers/simulator/index.ts:153-190 | the registry holds the given (possibly missing) entities and GUI |
| Simulation.Simulator.RefreshPipe | src/helpers/simulator/entities/pipeEntity.ts:80-97 | re-measures the pipe as `setGeometry` does; radius and coefficient are unchanged |
| Simulation.Simulator.SetTankHeight | src/helpers/simulator/entities/storageTankEntity.ts:41-44 | sets the tank height, then the pipe length becomes the new path length (unchanged if panel or pump is missing) |
| Simulation.Simulator.SetTankRadius | src/helpers/simulator/entities/storageTankEntity.ts:52-55 | sets the tank radius, then the pipe is re-measured as above |
| Simulation.Simulator.SetPanelWidth | src/helpers/simulator/entities/solarPanelEntity.ts:43-46 | sets the panel width, then the pipe is re-measured (unchanged if tank or pump is missing) |
| Simulation.Simulator.SetPanelHeight | src/helpers/simulator/entities/solarPanelEntity.ts:54-57 | sets the panel height, then the pipe is re-measured as above |
| Simulation.SimulationSystem.constructor | src/helpers/simulator/systems/simulationSystem.ts:13-15 | a new system is stopped, with both totals 0 and no events |
| Simulation.SimulationSystem.Start | src/helpers/simulator/systems/simulationSystem.ts:36-57 | the new world is `EnergyBalance.Start` of the old one |
| Simulation.SimulationSystem.Stop | src/helpers/simulator/systems/simulationSystem.ts:62-86 | the new world is `EnergyBalance.Stop` of the old one |
| Simulation.SimulationSystem.Dispose | src/helpers/simulator/systems/simulationSystem.ts:257-259 | disposing is stopping: the new world is `EnergyBalance.Stop` of the old one |
| Simulation.SimulationSystem.ControlPump | src/helpers/simulator/systems/simulationSystem.ts:138-188 | without tank or pump, or when stopped, nothing changes; otherwise the pump's new state and the appended events are those of `EnergyBalance.ControlPump` at the tank's current temperature |
| Simulation.SimulationSystem.Absorb | src/helpers/simulator/systems/simulationSystem.ts:202-223 | the lost total grows by energy out; the produced total grows by energy in only while the pump runs; the temperature moves by the absorbed energy minus energy out over the heat capacity |
| Simulation.SimulationSystem.UpdateTemp | src/helpers/simulator/systems/simulationSystem.ts:193-234 | the new world is `EnergyBalance.UpdateTemp` of the old one; the tank's parameters and the pump's position are unchanged |
| Simulation.SimulationSystem.Update | src/helpers/simulator/systems/simulationSystem.ts:239-252 | the new world is `EnergyBalance.Update` of the old one, at times scaled by the environment's speed |
| Chart.Widen | src/helpers/visualizer/index.ts:86-87 | the widened range contains the old range and the new value, and each bound is the old bound or the value |
| Chart.Record | src/helpers/visualizer/index.ts:75-91 | one sample is appended at the end; both ranges are set; the first update sets x to `[e, e]` and y to `[0, t]`; later updates contain the old ranges and the new values |
| Chart.RecordValid | src/helpers/visualizer/index.ts:80-88 | recording keeps the buffer valid: ranges are missing together exactly when there are no samples; x is the tightest range holding every elapsed time; y reaches down to 0, holds every temperature after the first, and its top is the highest temperature |
| Chart.RecordAllSamples | src/helpers/visualizer/index.ts:80 | a run of updates appends exactly its samples, in order |
| Chart.RecordAllValid | src/helpers/visualizer/index.ts:80-88 | after any run of updates from a valid buffer (the empty one included), the buffer is valid |
| Chart.RangesOnlyWiden | src/helpers/visualizer/index.ts:85-88 | a later update leaves earlier samples untouched, adds one, and never narrows either range |
| Chart.FirstSampleMayFallOutside | src/helpers/visualizer/index.ts:82-84 | because y is seeded with 0, a first sample of −5 gives the range `[0, −5]`, which does not contain it |
| Chart.Visualizer.constructor | src/helpers/visualizer/index.ts:15-16 | a new chart has no samples and no ranges, and is valid |
| Chart.Visualizer.OnSimulationDataUpdated | src/helpers/visualizer/index.ts:75-91 | the new buffer is `Record` of the old one, and validity is preserved |

## Left out

- Three.js rendering is not modelled: scene, renderer, camera, lights, orbit controls, resize handling and the animation loop. These are rendering plumbing.
- Mesh and geometry construction in every entity's `init`/`setGeometry` is not modelled. The pipe's `setGeometry` is modelled only for its null guard and its `_length` update.
- The pump's pulse animation and the light rotation in the environment's `update` are not modelled (graphics and trigonometry).
- `calculateSolarRadiation` and `calculateTotalLength` are not part of this model. They are function-valued parameters, and their non-negativity is a hypothesis where a lemma needs it (`EnergyBalance.GainsNonNegative`).
- `formatSeconds` and the log-message text are not modelled. A pump log event carries its reason, energy difference, temperature and status as data.
- `CustomEvent` dispatch is modelled as an append-only trace of events on the simulation system. Only the chart's data listener is modelled as a consumer.
- The GUI system is reduced to its enabled flag (`Simulation.GuiSystem`). Its widgets only forward values to the setters.
- The d3 drawing in the visualizer (`_draw`, `_updateDimension`) is not modelled (I/O).
- IEEE floating-point rounding, infinities and NaN are not modelled: all quantities are exact reals.
- The `console.error` logging of the "not ready" error is not modelled. Only its effect, that nothing changes, is modelled.
- The entity defaults (fluid density, heat capacity, coefficients, pipe radius, latitude, speed, ambient temperature) are constructor parameters. The constants file holding them is not part of this model, except the tank's default height 1 and radius 0.5. The control thresholds are likewise constants of `SimulationSystem`.
- The tank's `energyOutRate` and `deltaEnvTemp` and the panel's `efficiencySurface` and `energyOutRate` are plain fields. They are not tied to the ambient temperature or the efficiency, because the entity files do not define them.
- The tank and panel setters' call to `pipeEntity.setGeometry()` is modelled in `Simulation.Simulator` (`SetTankHeight`, …), which holds all the entities. The entity classes' own setters change only their field.
- Pump.PumpEntity.InPoint, Pump.PumpEntity.OutPoint: the pump's pipe connection points are plain formulas without a contract of their own. They enter only through `Pipe.Path`.
- Pipe.PipeEntity.Area, Pipe.PipeEntity.HeatLossSurface, Pipe.PipeEntity.EnergyOutRate: their contracts state the zero and sign cases. The closed formulas `2π·radius·length` and `coefficient·area` are their bodies and are not restated.
- The simulator registry's construction of the entities (positions, wiring into the scene) is not modelled. `Simulation.Simulator` takes them ready-made.
- The tank's `energyOutRate` and `deltaEnvTemp` and the panel's `efficiencySurface` and `energyOutRate` start at 0 in the constructors. No source line gives them an initial value; 0 is a choice of this model, and every property above holds for any value they are later given.
- With inverted thresholds a control step stops and restarts the pump at one clock reading `now`. The code reads the clock separately for the stop and the start, so the logged interval's end and the new start time may differ slightly there; the model does not capture that difference.
