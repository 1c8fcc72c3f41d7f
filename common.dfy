/** Value types shared by every part of the simulator model. */
module Common {

  /** A value that may be absent: the model of a nullable reference or number. */
  datatype Option<+T> = None | Some(value: T)

  /** A point in the scene (THREE.Vector3), with exact real coordinates. */
  datatype Vec3 = Vec3(x: real, y: real, z: real)

  /** A strictly positive quantity: used for the opaque constants pi and SECONDS_PER_DAY. */
  type Positive = r: real | r > 0.0 witness 1.0
}
