/**
 * Three-component vectors over the reals, standing for the engine's
 * `Vector`.  Lengths are never computed here: the engine's square root is
 * not modelled, and every length is read from a `norm` oracle that is
 * required to be an exact Euclidean length (see `IsNorm`).
 */
module Geometry {

  datatype Vec3 = Vec3(x: real, y: real, z: real)

  /** `vec3_origin`. */
  const Zero := Vec3(0.0, 0.0, 0.0)

  function Add(a: Vec3, b: Vec3): Vec3
  {
    Vec3(a.x + b.x, a.y + b.y, a.z + b.z)
  }

  function Sub(a: Vec3, b: Vec3): Vec3
  {
    Vec3(a.x - b.x, a.y - b.y, a.z - b.z)
  }

  function Scale(a: Vec3, k: real): Vec3
  {
    Vec3(a.x * k, a.y * k, a.z * k)
  }

  function Dot(a: Vec3, b: Vec3): real
  {
    a.x * b.x + a.y * b.y + a.z * b.z
  }

  /** The horizontal part of a vector (`AsVector2D`), with z dropped to 0. */
  function Flat(a: Vec3): Vec3
  {
    Vec3(a.x, a.y, 0.0)
  }

  /** Squared distance between two points (`DistToSqr`). */
  function DistSq(a: Vec3, b: Vec3): real
  {
    Dot(Sub(a, b), Sub(a, b))
  }

  /** The square of a real. */
  function Sq(a: real): real
  {
    a * a
  }

  /**
   * `norm` is an exact length function: never negative, and its square is
   * the vector's dot product with itself.
   */
  ghost predicate IsNorm(norm: Vec3 -> real)
  {
    forall v :: norm(v) >= 0.0 && Sq(norm(v)) == Dot(v, v)
  }

  lemma SquarePositive(a: real)
    requires a > 0.0
    ensures Sq(a) > 0.0
  {
    calc {
      Sq(a);
      a * a;
    > 0.0 * a;
      0.0;
    }
  }

  lemma SquareSign(a: real)
    ensures Sq(a) >= 0.0
    ensures a != 0.0 ==> Sq(a) > 0.0
  {
    if a > 0.0 {
      SquarePositive(a);
    } else if a < 0.0 {
      SquarePositive(-a);
      assert Sq(a) == Sq(-a);
    } else {
      assert a * a == 0.0 * 0.0;
    }
  }

  lemma DotSelfNonNegative(v: Vec3)
    ensures Dot(v, v) == Sq(v.x) + Sq(v.y) + Sq(v.z)
    ensures Dot(v, v) >= 0.0
    ensures v != Zero ==> Dot(v, v) > 0.0
  {
    SquareSign(v.x);
    SquareSign(v.y);
    SquareSign(v.z);
  }

  lemma DotScaleSelf(v: Vec3, k: real)
    ensures Dot(Scale(v, k), Scale(v, k)) == k * k * Dot(v, v)
  {
  }

  /** Only the zero vector has length zero. */
  lemma NormZero(norm: Vec3 -> real, v: Vec3)
    requires IsNorm(norm)
    ensures v == Zero ==> norm(v) == 0.0
    ensures v != Zero ==> norm(v) > 0.0
  {
    var n := norm(v);
    assert n >= 0.0 && Sq(n) == Dot(v, v);
    DotSelfNonNegative(v);
    SquareSign(n);
  }

  /**
   * `VectorNormalize`: the vector divided by its length; the zero vector
   * stays zero.  The result is a unit vector whenever the input is not zero.
   */
  function Normalize(norm: Vec3 -> real, v: Vec3): (u: Vec3)
    requires IsNorm(norm)
    ensures v != Zero ==> Dot(u, u) == 1.0
    ensures v == Zero ==> u == Zero
  {
    NormZero(norm, v);
    if norm(v) == 0.0 then Zero
    else
      var l := norm(v);
      DotScaleSelf(v, 1.0 / l);
      assert (1.0 / l) * (1.0 / l) * (l * l) == 1.0;
      Scale(v, 1.0 / l)
  }

  /** A non-zero vector is its length times its normalised direction. */
  lemma NormalizeNonZero(norm: Vec3 -> real, v: Vec3)
    requires IsNorm(norm) && v != Zero
    ensures norm(v) > 0.0
    ensures Normalize(norm, v) == Scale(v, 1.0 / norm(v))
    ensures Dot(Normalize(norm, v), Normalize(norm, v)) == 1.0
    ensures Scale(Normalize(norm, v), norm(v)) == v
  {
    NormZero(norm, v);
    var l := norm(v);
    var u := Scale(v, 1.0 / l);
    assert u.x * l == v.x && u.y * l == v.y && u.z * l == v.z;
  }

  /** A unit vector scaled by k has squared length k*k. */
  lemma UnitScaled(u: Vec3, k: real)
    requires Dot(u, u) == 1.0
    ensures Dot(Scale(u, k), Scale(u, k)) == k * k
  {
    DotScaleSelf(u, k);
  }
}
