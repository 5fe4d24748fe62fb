/**
 * Points, 4x4 transforms and the distance used by the gesture recognisers.
 * Single-precision floats are modelled as `real`.
 */
module Geometry {

  /** A point or direction in world space (simd_float3). */
  datatype Vec3 = Vec3(x: real, y: real, z: real)

  /** One column of a 4x4 matrix (simd_float4). */
  datatype Vec4 = Vec4(x: real, y: real, z: real, w: real)

  /**
   * A 4x4 matrix stored by columns, as simd_float4x4 stores it. Joint
   * transforms put the joint's world position in column 3 and its local
   * Y basis vector in column 1. No matrix arithmetic is modelled.
   */
  datatype Matrix4 = Matrix4(c0: Vec4, c1: Vec4, c2: Vec4, c3: Vec4)

  const Origin := Vec3(0.0, 0.0, 0.0)

  /** simd_float4x4(s): `s` on the diagonal, 0 elsewhere. */
  function Diagonal(s: real): (m: Matrix4)
    ensures m.c0.x == m.c1.y == m.c2.z == m.c3.w == s
    ensures Position(m) == Origin && AxisY(m) == Vec3(0.0, s, 0.0)
  {
    Matrix4(Vec4(s, 0.0, 0.0, 0.0), Vec4(0.0, s, 0.0, 0.0),
            Vec4(0.0, 0.0, s, 0.0), Vec4(0.0, 0.0, 0.0, s))
  }

  /** The identity transform, simd_float4x4(1). */
  const Identity := Diagonal(1.0)

  function Xyz(v: Vec4): Vec3 {
    Vec3(v.x, v.y, v.z)
  }

  /** The translation part of a transform: `columns.3` without w. */
  function Position(m: Matrix4): Vec3 {
    Xyz(m.c3)
  }

  /** The local Y basis vector of a transform: `columns.1` without w. */
  function AxisY(m: Matrix4): Vec3 {
    Xyz(m.c1)
  }

  function Add(a: Vec3, b: Vec3): Vec3
  {
    Vec3(a.x + b.x, a.y + b.y, a.z + b.z)
  }

  function Sub(a: Vec3, b: Vec3): (r: Vec3)
    ensures Add(r, b) == a
    ensures r == Origin <==> a == b
  {
    Vec3(a.x - b.x, a.y - b.y, a.z - b.z)
  }

  /**
   * `dist` behaves as the renderer's Euclidean `dist` does where the
   * recognisers depend on it: it is never negative, it is symmetric, and it
   * is zero exactly when the two points coincide (the recognisers read a
   * zero distance as "joints not tracked"). Dafny has no square root, so the
   * distance is supplied as a parameter rather than computed.
   */
  ghost predicate IsDistance(dist: (Vec3, Vec3) -> real) {
    forall p, q ::
      && 0.0 <= dist(p, q)
      && dist(p, q) == dist(q, p)
      && (dist(p, q) == 0.0 <==> p == q)
  }
}
