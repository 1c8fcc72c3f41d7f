/**
 * The solar panel: a flat width x height collector lying in the x-z plane. The
 * pipe enters at one end of its height and leaves at the other, on the same
 * side of its width.
 */
module SolarPanel {
  import opened Common

  /** Inset of the pipe connections from the panel's edge and base. */
  const Padding: real := 0.1

  /** Area of the collector. */
  function PanelArea(width: real, height: real): real
  {
    width * height
  }

  /** The area is non-negative for non-negative dimensions. */
  lemma AreaNonNegative(width: real, height: real)
    requires width >= 0.0 && height >= 0.0
    ensures PanelArea(width, height) >= 0.0
  {
  }

  /** The area is linear in each dimension. */
  lemma AreaLinear(w1: real, w2: real, h1: real, h2: real, k: real)
    ensures PanelArea(w1 + w2, h1) == PanelArea(w1, h1) + PanelArea(w2, h1)
    ensures PanelArea(w1, h1 + h2) == PanelArea(w1, h1) + PanelArea(w1, h2)
    ensures PanelArea(k * w1, h1) == k * PanelArea(w1, h1)
    ensures PanelArea(w1, k * h1) == k * PanelArea(w1, h1)
  {
  }

  class SolarPanelEntity {
    var width: real
    var height: real
    var efficiency: real
    var heatLossCoefficient: real
    var position: Vec3
    /** Effective absorbing surface, supplied by the entity's owner (not defined in this file). */
    var efficiencySurface: real
    /** Heat lost per unit time, supplied by the entity's owner (not defined in this file). */
    var energyOutRate: real

    /** A panel with the given defaults (they live in a constants file not part of this model). */
    constructor (width: real, height: real, efficiency: real, heatLossCoefficient: real, position: Vec3)
      ensures this.width == width && this.height == height && this.efficiency == efficiency
      ensures this.heatLossCoefficient == heatLossCoefficient && this.position == position
      ensures efficiencySurface == 0.0 && energyOutRate == 0.0
    {
      this.width := width;
      this.height := height;
      this.efficiency := efficiency;
      this.heatLossCoefficient := heatLossCoefficient;
      this.position := position;
      efficiencySurface := 0.0;
      energyOutRate := 0.0;
    }

    /** Area of the collector. */
    function Area(): (a: real)
      reads this
      ensures width >= 0.0 && height >= 0.0 ==> a >= 0.0
    {
      PanelArea(width, height)
    }

    /** Pipe inlet: half the height towards +z, near the +x edge, just above the base. */
    function InPoint(): (p: Vec3)
      reads this
      ensures p.x == position.x + width / 2.0 - Padding && p.y == position.y + Padding
    {
      Vec3(position.x + width / 2.0 - Padding, position.y + Padding, position.z + height / 2.0)
    }

    /** Pipe outlet: half the height towards -z, near the +x edge, just above the base. */
    function OutPoint(): (p: Vec3)
      reads this
      ensures p.x == position.x + width / 2.0 - Padding && p.y == position.y + Padding
    {
      Vec3(position.x + width / 2.0 - Padding, position.y + Padding, position.z - height / 2.0)
    }

    /** The setter of `width`: only the width changes. */
    method SetWidth(value: real)
      modifies this`width
      ensures width == value
      ensures Area() == PanelArea(value, height)
    {
      width := value;
    }

    /** The setter of `height`: only the height changes. */
    method SetHeight(value: real)
      modifies this`height
      ensures height == value
      ensures Area() == PanelArea(width, value)
    {
      height := value;
    }
  }

  /** Inlet and outlet lie on one line along z, as far apart as the panel is high. */
  lemma InletOppositeOutlet(panel: SolarPanelEntity)
    ensures panel.InPoint().x == panel.OutPoint().x && panel.InPoint().y == panel.OutPoint().y
    ensures panel.InPoint().z - panel.OutPoint().z == panel.height
  {
  }
}
