/**
 * The pipe: a tube of fixed radius that runs from the tank outlet through the
 * pump and the solar panel back to the tank inlet. Its length is measured
 * along that path; its surface loses heat in proportion to the tank's
 * temperature difference to the environment.
 */
module Pipe {
  import opened Common
  import opened StorageTank
  import opened SolarPanel
  import opened Pump

  /** Lateral surface of a tube: 2 pi r L. */
  function TubeArea(pi: real, radius: real, length: real): real
  {
    2.0 * pi * radius * length
  }

  /** The six points the pipe passes through, in the order of the flow. */
  function Path(tank: StorageTankEntity, pump: PumpEntity, panel: SolarPanelEntity): (ps: seq<Vec3>)
    reads tank, pump, panel
    ensures |ps| == 6 && ps[0] == tank.OutPoint() && ps[5] == tank.InPoint()
  {
    [tank.OutPoint(), pump.InPoint(), pump.OutPoint(), panel.InPoint(), panel.OutPoint(), tank.InPoint()]
  }

  class PipeEntity {
    const pi: Positive
    var radius: real
    var length: real
    var heatLossCoefficient: real

    /**
     * A pipe of the given radius and loss coefficient (defaults that live in a
     * constants file not part of this model). Its length starts at 0 and is then
     * measured, as `init` does through `setGeometry`.
     */
    constructor (pi: Positive, radius: real, heatLossCoefficient: real,
                 tank: StorageTankEntity?, panel: SolarPanelEntity?, pump: PumpEntity?,
                 totalLength: seq<Vec3> -> real)
      ensures this.pi == pi && this.radius == radius && this.heatLossCoefficient == heatLossCoefficient
      ensures tank == null || panel == null || pump == null ==> length == 0.0
      ensures tank != null && panel != null && pump != null ==> length == totalLength(Path(tank, pump, panel))
    {
      this.pi := pi;
      this.radius := radius;
      this.heatLossCoefficient := heatLossCoefficient;
      length := 0.0;
      new;
      SetGeometry(tank, panel, pump, totalLength);
    }

    /** Lateral surface of the pipe. */
    function Area(): (a: real)
      reads this
      ensures length == 0.0 ==> a == 0.0
      ensures radius >= 0.0 && length >= 0.0 ==> a >= 0.0
    {
      TubeArea(pi, radius, length)
    }

    /** Heat loss per degree of temperature difference: coefficient times area. */
    function HeatLossSurface(): (s: real)
      reads this
      ensures length == 0.0 ==> s == 0.0
    {
      heatLossCoefficient * Area()
    }

    /** Heat lost per unit time; 0 when there is no tank to read the temperature difference from. */
    function EnergyOutRate(tank: StorageTankEntity?): (rate: real)
      reads this, (if tank == null then {} else {tank})`deltaEnvTemp
      ensures tank == null ==> rate == 0.0
      ensures length == 0.0 ==> rate == 0.0
    {
      if tank == null then 0.0 else HeatLossSurface() * tank.deltaEnvTemp
    }

    /**
     * `setGeometry`: when tank, panel and pump all exist, measure the path between
     * them; otherwise leave the length as it is. Only the length changes.
     */
    method SetGeometry(tank: StorageTankEntity?, panel: SolarPanelEntity?, pump: PumpEntity?,
                       totalLength: seq<Vec3> -> real)
      modifies this`length
      ensures tank == null || panel == null || pump == null ==> length == old(length)
      ensures tank != null && panel != null && pump != null ==> length == totalLength(Path(tank, pump, panel))
    {
      if tank == null || panel == null || pump == null {
        return;
      }
      var points := [tank.OutPoint(), pump.InPoint(), pump.OutPoint(), panel.InPoint(), panel.OutPoint(), tank.InPoint()];
      length := totalLength(points);
    }
  }

  /**
   * With a non-negative coefficient, radius and length, the pipe's loss has the
   * sign of the tank's temperature difference to the environment.
   */
  lemma RateFollowsTemperatureDifference(pipe: PipeEntity, tank: StorageTankEntity)
    requires pipe.heatLossCoefficient >= 0.0 && pipe.radius >= 0.0 && pipe.length >= 0.0
    ensures tank.deltaEnvTemp >= 0.0 ==> pipe.EnergyOutRate(tank) >= 0.0
    ensures tank.deltaEnvTemp <= 0.0 ==> pipe.EnergyOutRate(tank) <= 0.0
  {
    var s := pipe.HeatLossSurface();
    assert s >= 0.0;
  }

  /** The path's end points are the tank's outlet and inlet, so the loop is closed through the tank. */
  lemma PathClosesAtTank(tank: StorageTankEntity, pump: PumpEntity, panel: SolarPanelEntity)
    ensures Path(tank, pump, panel)[5].y - Path(tank, pump, panel)[0].y == tank.height - 2.0 * StorageTank.Padding
  {
    InletAboveOutlet(tank);
  }
}
