/**
 * Positions and the entries of the host's object table. Coordinates are reals:
 * single-precision rounding is not modelled.
 */
module Geometry {

  datatype Vec3 = Vec3(x: real, y: real, z: real)

  function Sub(a: Vec3, b: Vec3): Vec3 {
    Vec3(a.x - b.x, a.y - b.y, a.z - b.z)
  }

  function LengthSquared(v: Vec3): real {
    v.x * v.x + v.y * v.y + v.z * v.z
  }

  /** The squared length once the vertical component is set to zero. */
  function HorizontalLengthSquared(v: Vec3): real {
    v.x * v.x + v.z * v.z
  }

  /** `v.Length() > a`, stated without a square root. */
  predicate LengthGreater(v: Vec3, a: real) {
    a < 0.0 || LengthSquared(v) > a * a
  }

  /** An entry of the host's object table, as far as the plugin reads it. */
  datatype GameObject = GameObject(
    name: string,
    isTargetable: bool,
    isPlayer: bool,
    homeWorld: nat,
    position: Vec3)
}
