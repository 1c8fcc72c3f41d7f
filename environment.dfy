/**
 * The environment: latitude, ambient temperature and the time-dilation
 * `speed`. The sun's rotation speed is kept proportional to `speed`, so that
 * the light makes one full turn per simulated day.
 */
module Environment {
  import opened Common

  /** Angular speed of the sun at a given time dilation: (2 pi / secondsPerDay) * speed. */
  function SunRotSpeed(pi: Positive, secondsPerDay: Positive, speed: real): real
  {
    ((pi * 2.0) / secondsPerDay) * speed
  }

  /**
   * At speed `v` one simulated day passes in `secondsPerDay / v` real seconds,
   * and in that time the sun turns exactly once (2 pi).
   */
  lemma OneTurnPerSimulatedDay(pi: Positive, secondsPerDay: Positive, speed: real)
    requires speed != 0.0
    ensures SunRotSpeed(pi, secondsPerDay, speed) * (secondsPerDay / speed) == 2.0 * pi
  {
    var w := (pi * 2.0) / secondsPerDay;
    calc {
      SunRotSpeed(pi, secondsPerDay, speed) * (secondsPerDay / speed);
      (w * speed) * (secondsPerDay / speed);
      w * secondsPerDay;
      2.0 * pi;
    }
  }

  /** The rotation speed has the sign of `speed` and scales with it. */
  lemma RotationFollowsSpeed(pi: Positive, secondsPerDay: Positive, speed: real, k: real)
    ensures speed > 0.0 ==> SunRotSpeed(pi, secondsPerDay, speed) > 0.0
    ensures speed == 0.0 ==> SunRotSpeed(pi, secondsPerDay, speed) == 0.0
    ensures speed < 0.0 ==> SunRotSpeed(pi, secondsPerDay, speed) < 0.0
    ensures SunRotSpeed(pi, secondsPerDay, k * speed) == k * SunRotSpeed(pi, secondsPerDay, speed)
  {
    var w := (pi * 2.0) / secondsPerDay;
    assert w > 0.0;
  }

  class EnvironmentEntity {
    const pi: Positive
    const secondsPerDay: Positive
    /** Latitude of the location: it has no setter, so it keeps its initial value. */
    const latitude: real
    var ambientTemp: real
    var speed: real
    var sunRotSpeed: real

    /** The entity's invariant: the sun turns in step with the time dilation. */
    predicate Valid()
      reads this
    {
      sunRotSpeed == SunRotSpeed(pi, secondsPerDay, speed)
    }

    /** An environment with the given defaults (they live in a constants file not part of this model). */
    constructor (pi: Positive, secondsPerDay: Positive, latitude: real, ambientTemp: real, speed: real)
      ensures Valid()
      ensures this.pi == pi && this.secondsPerDay == secondsPerDay && this.latitude == latitude
      ensures this.ambientTemp == ambientTemp && this.speed == speed
    {
      this.pi := pi;
      this.secondsPerDay := secondsPerDay;
      this.latitude := latitude;
      this.ambientTemp := ambientTemp;
      this.speed := speed;
      sunRotSpeed := ((pi * 2.0) / secondsPerDay) * speed;
    }

    /** The setter of `speed`: updates the speed and the sun's rotation speed together. */
    method SetSpeed(value: real)
      modifies this`speed, this`sunRotSpeed
      ensures Valid()
      ensures speed == value
      ensures sunRotSpeed == SunRotSpeed(pi, secondsPerDay, value)
    {
      speed := value;
      sunRotSpeed := ((pi * 2.0) / secondsPerDay) * value;
    }

    /** The setter of `ambientTemp`: only the ambient temperature changes. */
    method SetAmbientTemp(value: real)
      modifies this`ambientTemp
      ensures ambientTemp == value
      ensures old(Valid()) ==> Valid()
    {
      ambientTemp := value;
    }
  }

  /**
   * Because the entity keeps its invariant, its sun makes exactly one turn in
   * each simulated day, whatever speed was last set.
   */
  lemma ValidEntityTurnsOncePerDay(env: EnvironmentEntity)
    requires env.Valid() && env.speed != 0.0
    ensures env.sunRotSpeed * (env.secondsPerDay / env.speed) == 2.0 * env.pi
  {
    OneTurnPerSimulatedDay(env.pi, env.secondsPerDay, env.speed);
  }
}
