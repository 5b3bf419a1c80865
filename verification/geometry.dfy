/** Positions and rotations. The source's `[number, number, number]`
    triples are modelled with exact reals: no rounding, no NaN. */
module Geometry {

  /** A `[x, y, z]` triple: a world position, or Euler angles in radians. */
  datatype Vec3 = Vec3(x: real, y: real, z: real)

  /** `[0, 0, 0]`: the spawn position and rotation, and the fallback location. */
  const Origin := Vec3(0.0, 0.0, 0.0)

  /** Square of the distance between two points projected on the ground
      plane (x and z); the height y plays no part. */
  function PlanarDistSq(a: Vec3, b: Vec3): real {
    (a.x - b.x) * (a.x - b.x) + (a.z - b.z) * (a.z - b.z)
  }
}
