/** The 3x1 helpers of the view context: cross product, dot product, magnitude and
    normalisation (ViewContext::crossProduct3X1, dot, magnitude, normalize). */
module Vectors {
  import opened RealFns

  datatype Vec3 = Vec3(x: real, y: real, z: real)

  const Zero3: Vec3 := Vec3(0.0, 0.0, 0.0)

  /** dot: the sum of the entrywise products. */
  function Dot(a: Vec3, b: Vec3): real {
    a.x * b.x + a.y * b.y + a.z * b.z
  }

  function Scale3(k: real, a: Vec3): Vec3 {
    Vec3(k * a.x, k * a.y, k * a.z)
  }

  /** The dot product is symmetric and linear in each argument. */
  lemma DotLaws(k: real, a: Vec3, b: Vec3)
    ensures Dot(a, b) == Dot(b, a)
    ensures Dot(Scale3(k, a), b) == k * Dot(a, b)
    ensures Dot(a, Scale3(k, b)) == k * Dot(a, b)
  {
  }

  /** A vector's dot product with itself is never negative. */
  lemma DotSelfNonneg(a: Vec3)
    ensures 0.0 <= Dot(a, a)
  {
  }

  /** crossProduct3X1, entry by entry as the source writes it; the result is orthogonal
      to both operands. */
  function Cross(a: Vec3, b: Vec3): (r: Vec3)
    ensures Dot(r, a) == 0.0 && Dot(r, b) == 0.0
  {
    Vec3(a.y * b.z - a.z * b.y, -(a.x * b.z - a.z * b.x), a.x * b.y - a.y * b.x)
  }

  /** Swapping the operands negates the cross product. */
  lemma CrossAnticommutes(a: Vec3, b: Vec3)
    ensures Cross(b, a) == Scale3(-1.0, Cross(a, b))
  {
  }

  /** Lagrange's identity: |a x b|^2 == |a|^2 |b|^2 - (a . b)^2. */
  lemma CrossLagrange(a: Vec3, b: Vec3)
    ensures Dot(Cross(a, b), Cross(a, b)) == Dot(a, a) * Dot(b, b) - Dot(a, b) * Dot(a, b)
  {
  }

  /** magnitude: the non-negative square root of the sum of squared entries; it is
      positive for a vector of positive length. */
  function Magnitude(a: Vec3, t: Trig): (r: real)
    requires Lawful(t)
    ensures 0.0 <= r && r * r == Dot(a, a)
    ensures 0.0 < Dot(a, a) ==> 0.0 < r
  {
    DotSelfNonneg(a);
    t.sqrt(a.x * a.x + a.y * a.y + a.z * a.z)
  }

  /** normalize: every entry divided by the magnitude. The result is the input scaled
      by a positive factor, it has unit length, and scaling it back by the magnitude
      gives the input. */
  function Normalize(a: Vec3, t: Trig): (r: Vec3)
    requires Lawful(t) && 0.0 < Dot(a, a)
    ensures r == Scale3(1.0 / Magnitude(a, t), a) && 0.0 < 1.0 / Magnitude(a, t)
    ensures Scale3(Magnitude(a, t), r) == a
    ensures Dot(r, r) == 1.0
  {
    var norm := Magnitude(a, t);
    var r := Vec3(a.x / norm, a.y / norm, a.z / norm);
    UnitAfterDivision(a, norm, r);
    r
  }

  lemma UnitAfterDivision(a: Vec3, norm: real, r: Vec3)
    requires 0.0 < norm && norm * norm == Dot(a, a)
    requires r == Vec3(a.x / norm, a.y / norm, a.z / norm)
    ensures r == Scale3(1.0 / norm, a) && 0.0 < 1.0 / norm
    ensures Scale3(norm, r) == a && Dot(r, r) == 1.0
  {
    DivCancel(norm, a.x);
    DivCancel(norm, a.y);
    DivCancel(norm, a.z);
    assert Scale3(norm, r) == a;
    DotScaledSelf(norm, r);
    Cancel(norm * norm, Dot(r, r), 1.0);
  }

  lemma DotScaledSelf(k: real, r: Vec3)
    ensures Dot(Scale3(k, r), Scale3(k, r)) == (k * k) * Dot(r, r)
  {
  }

  /** Vectors that are positive multiples of orthogonal vectors are orthogonal. */
  lemma ScaledOrthogonal(j: real, a: Vec3, k: real, b: Vec3)
    requires Dot(a, b) == 0.0
    ensures Dot(Scale3(j, a), Scale3(k, b)) == 0.0
  {
    DotLaws(j, a, Scale3(k, b));
    DotLaws(k, a, b);
  }
}
