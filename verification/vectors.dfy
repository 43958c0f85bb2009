/** The small vector algebra of `nalgebra_glm` that the renderer relies on. */
module Vectors {

  datatype Vec2 = Vec2(x: real, y: real)

  datatype Vec3 = Vec3(x: real, y: real, z: real)

  datatype Vec4 = Vec4(x: real, y: real, z: real, w: real)

  const Origin := Vec3(0.0, 0.0, 0.0)

  function Add(a: Vec3, b: Vec3): Vec3 {
    Vec3(a.x + b.x, a.y + b.y, a.z + b.z)
  }

  function Sub(a: Vec3, b: Vec3): Vec3 {
    Vec3(a.x - b.x, a.y - b.y, a.z - b.z)
  }

  /** `v * k` for a scalar k. */
  function Scaled(v: Vec3, k: real): Vec3 {
    Vec3(v.x * k, v.y * k, v.z * k)
  }

  function Dot(a: Vec3, b: Vec3): real {
    a.x * b.x + a.y * b.y + a.z * b.z
  }

  /** Squared Euclidean length. */
  function Norm2(v: Vec3): (r: real)
    ensures 0.0 <= r
  {
    v.x * v.x + v.y * v.y + v.z * v.z
  }

  /** Scaling twice multiplies the factors. */
  lemma ScaledTwice(v: Vec3, a: real, b: real)
    ensures Scaled(Scaled(v, a), b) == Scaled(v, a * b)
  {
    assert (v.x * a) * b == v.x * (a * b);
    assert (v.y * a) * b == v.y * (a * b);
    assert (v.z * a) * b == v.z * (a * b);
  }

  /**
    The dot product of two vectors is at most the mean of their squared
    lengths, so two vectors of length at most one have a dot product of at
    most one.
   */
  lemma DotBound(a: Vec3, b: Vec3)
    ensures 2.0 * Dot(a, b) <= Norm2(a) + Norm2(b)
    ensures Norm2(a) <= 1.0 && Norm2(b) <= 1.0 ==> Dot(a, b) <= 1.0
  {
    var d := Sub(a, b);
    assert 0.0 <= Norm2(d);
    assert Norm2(d) == Norm2(a) + Norm2(b) - 2.0 * Dot(a, b);
  }

  /** A vector of length at most one has every component in [-1, 1]. */
  lemma ComponentBound(v: Vec3)
    requires Norm2(v) <= 1.0
    ensures -1.0 <= v.x <= 1.0 && -1.0 <= v.y <= 1.0 && -1.0 <= v.z <= 1.0
  {
  }
}
