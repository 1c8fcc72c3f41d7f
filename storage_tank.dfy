/**
 * The storage tank: a vertical cylinder of fluid. Its surface area, volume and
 * fluid mass are closed formulas over its radius and height; the pipe enters
 * near the top and leaves near the bottom.
 */
module StorageTank {
  import opened Common

  const DefaultHeight: real := 1.0
  const DefaultRadius: real := 0.5
  /** Distance of the pipe connections from the top and the bottom of the tank. */
  const Padding: real := 0.1

  /** Total surface of a closed cylinder: 2 pi r (r + h). */
  function CylinderArea(pi: real, r: real, h: real): real
  {
    2.0 * pi * r * (r + h)
  }

  /** Volume of a cylinder: pi r^2 h. */
  function CylinderVolume(pi: real, r: real, h: real): real
  {
    pi * r * r * h
  }

  /** Mass of the fluid filling a volume at a density. */
  function FluidMass(volume: real, density: real): real
  {
    volume * density
  }

  /** The area is the side wall (2 pi r h) plus the two end caps (pi r^2 each). */
  lemma AreaIsWallPlusCaps(pi: real, r: real, h: real)
    ensures CylinderArea(pi, r, h) == 2.0 * pi * r * h + 2.0 * (pi * r * r)
  {
  }

  /** Scaling the radius by `k` scales the volume by `k` squared. */
  lemma VolumeScalesWithRadiusSquared(pi: real, r: real, h: real, k: real)
    ensures CylinderVolume(pi, k * r, h) == k * k * CylinderVolume(pi, r, h)
  {
  }

  /** Non-negative dimensions and density give non-negative area, volume and mass. */
  lemma NonNegativeQuantities(pi: Positive, r: real, h: real, density: real)
    requires r >= 0.0 && h >= 0.0 && density >= 0.0
    ensures CylinderArea(pi, r, h) >= 0.0
    ensures CylinderVolume(pi, r, h) >= 0.0
    ensures FluidMass(CylinderVolume(pi, r, h), density) >= 0.0
  {
    var cap := pi * r * r;
    assert cap >= 0.0;
    assert CylinderVolume(pi, r, h) == cap * h;
  }

  /** Volume and mass grow linearly with height: stacking two heights adds their volumes. */
  lemma VolumeAdditiveInHeight(pi: real, r: real, h1: real, h2: real, density: real)
    ensures CylinderVolume(pi, r, h1 + h2) == CylinderVolume(pi, r, h1) + CylinderVolume(pi, r, h2)
    ensures FluidMass(CylinderVolume(pi, r, h1 + h2), density)
         == FluidMass(CylinderVolume(pi, r, h1), density) + FluidMass(CylinderVolume(pi, r, h2), density)
  {
  }

  /** Everything about a tank except its current fluid temperature. */
  datatype TankParameters = TankParameters(
    height: real, radius: real, initialFluidTemperature: real, fluidDensity: real,
    specificHeatCapacityFluid: real, heatLossCoefficient: real, position: Vec3,
    energyOutRate: real, deltaEnvTemp: real)

  class StorageTankEntity {
    const pi: Positive
    var height: real
    var radius: real
    var initialFluidTemperature: real
    var fluidDensity: real
    var specificHeatCapacityFluid: real
    var heatLossCoefficient: real
    var position: Vec3
    /** Current fluid temperature, written by the simulation each tick. */
    var fluidTemp: real
    /** Heat lost per unit time, supplied by the entity's owner (not defined in this file). */
    var energyOutRate: real
    /** Fluid minus ambient temperature, supplied by the entity's owner (not defined in this file). */
    var deltaEnvTemp: real

    /**
     * A tank with the default height and radius; the other defaults live in a
     * constants file that is not part of this model and are parameters here.
     */
    constructor (pi: Positive, initialFluidTemperature: real, fluidDensity: real,
                 specificHeatCapacityFluid: real, heatLossCoefficient: real, position: Vec3)
      ensures this.pi == pi && height == DefaultHeight && radius == DefaultRadius
      ensures this.initialFluidTemperature == initialFluidTemperature && fluidTemp == initialFluidTemperature
      ensures this.fluidDensity == fluidDensity && this.specificHeatCapacityFluid == specificHeatCapacityFluid
      ensures this.heatLossCoefficient == heatLossCoefficient && this.position == position
      ensures energyOutRate == 0.0 && deltaEnvTemp == 0.0
    {
      this.pi := pi;
      height := DefaultHeight;
      radius := DefaultRadius;
      this.initialFluidTemperature := initialFluidTemperature;
      this.fluidDensity := fluidDensity;
      this.specificHeatCapacityFluid := specificHeatCapacityFluid;
      this.heatLossCoefficient := heatLossCoefficient;
      this.position := position;
      fluidTemp := initialFluidTemperature;
      energyOutRate := 0.0;
      deltaEnvTemp := 0.0;
    }

    /** The tank's fields other than the fluid temperature. */
    function Parameters(): TankParameters
      reads this
    {
      TankParameters(height, radius, initialFluidTemperature, fluidDensity,
                     specificHeatCapacityFluid, heatLossCoefficient, position, energyOutRate, deltaEnvTemp)
    }

    /** Surface area: side wall plus both end caps. */
    function Area(): (a: real)
      reads this`radius, this`height
      ensures a == 2.0 * pi * radius * height + 2.0 * (pi * radius * radius)
      ensures radius >= 0.0 && height >= 0.0 ==> a >= 0.0
    {
      CylinderArea(pi, radius, height)
    }

    /** Volume of the tank. */
    function Volume(): (v: real)
      reads this`radius, this`height
      ensures radius >= 0.0 && height >= 0.0 ==> v >= 0.0
    {
      CylinderVolume(pi, radius, height)
    }

    /** Mass of the fluid that fills the tank (`massFluid`). */
    function MassFluid(): (m: real)
      reads this`radius, this`height, this`fluidDensity
      ensures radius >= 0.0 && height >= 0.0 && fluidDensity >= 0.0 ==> m >= 0.0
    {
      FluidMass(Volume(), fluidDensity)
    }

    /** Pipe inlet: near the top of the tank, above its position. */
    function InPoint(): (p: Vec3)
      reads this
      ensures p.x == position.x && p.z == position.z
    {
      position.(y := position.y + height - Padding)
    }

    /** Pipe outlet: near the bottom of the tank, above its position. */
    function OutPoint(): (p: Vec3)
      reads this
      ensures p.x == position.x && p.z == position.z
    {
      position.(y := position.y + Padding)
    }

    /** The setter of `height`: only the height changes, and the formulas follow it. */
    method SetHeight(value: real)
      modifies this`height
      ensures height == value
      ensures Volume() == CylinderVolume(pi, radius, value)
      ensures Area() == CylinderArea(pi, radius, value)
      ensures MassFluid() == FluidMass(CylinderVolume(pi, radius, value), fluidDensity)
    {
      height := value;
    }

    /** The setter of `radius`: only the radius changes, and the formulas follow it. */
    method SetRadius(value: real)
      modifies this`radius
      ensures radius == value
      ensures Volume() == CylinderVolume(pi, value, height)
      ensures Area() == CylinderArea(pi, value, height)
      ensures MassFluid() == FluidMass(CylinderVolume(pi, value, height), fluidDensity)
    {
      radius := value;
    }
  }

  /** The inlet sits `height - 0.2` above the outlet, directly over it. */
  lemma InletAboveOutlet(tank: StorageTankEntity)
    ensures tank.InPoint().y - tank.OutPoint().y == tank.height - 2.0 * Padding
    ensures tank.InPoint().x == tank.OutPoint().x && tank.InPoint().z == tank.OutPoint().z
  {
  }
}
