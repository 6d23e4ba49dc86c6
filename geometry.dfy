/** Three-dimensional vectors over the reals, standing in for Eigen::Vector3d.
    Reals are exact, so "half the displacement" and "vertical component is 0"
    are stated without floating-point rounding. */
module Geometry {

  datatype Vec3 = Vec3(x: real, y: real, z: real)

  /** The vector Eigen's setZero() produces. */
  const Zero: Vec3 := Vec3(0.0, 0.0, 0.0)

  function Sub(a: Vec3, b: Vec3): Vec3 {
    Vec3(a.x - b.x, a.y - b.y, a.z - b.z)
  }

  function Half(v: Vec3): Vec3 {
    Vec3(v.x / 2.0, v.y / 2.0, v.z / 2.0)
  }

  /** The same point with its vertical component replaced by `h`. */
  function AtHeight(v: Vec3, h: real): Vec3 {
    v.(z := h)
  }

  /** Position, velocity and acceleration of one foot. */
  datatype LimbState = LimbState(position: Vec3, velocity: Vec3, acceleration: Vec3)

  /** A foot standing still at `location`. */
  function Standing(location: Vec3): LimbState {
    LimbState(location, Zero, Zero)
  }
}
