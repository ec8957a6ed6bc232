/** The eye-aligned change of basis built by ViewContext::transformBasis. */
module Basis {
  import opened RealFns
  import opened Vectors
  import opened Matrices

  /** The eye point projected onto the ground plane (vOrbit's `yToPo`). */
  function Ground(p0: Vec3): Vec3 {
    Vec3(p0.x, 0.0, p0.z)
  }

  /** The eye is off the vertical axis: the horizontal cross product and the orbit axis
      computed from it are non-zero, so every division by their length is defined. */
  predicate OffVerticalAxis(p0: Vec3) {
    0.0 < Dot(Ground(p0), Ground(p0))
  }

  /** The homogeneous column of a point. */
  function Point(p: Vec3): Vec4 {
    Vec4(p.x, p.y, p.z, 1.0)
  }

  /** The three unit vectors of the view frame: `l` (across), `m` (up) and `n` (towards
      the eye). */
  datatype Frame = Frame(l: Vec3, m: Vec3, n: Vec3)

  /** The frame transformBasis computes: l = normalize(V x N) with V the y axis and N the
      eye point, n = normalize(N) and m = n x l. It is orthonormal, l is horizontal, l and
      m are orthogonal to the eye point and n points at it. */
  function EyeFrame(p0: Vec3, t: Trig): (f: Frame)
    requires Lawful(t) && OffVerticalAxis(p0)
    ensures Dot(f.l, f.l) == 1.0 && Dot(f.m, f.m) == 1.0 && Dot(f.n, f.n) == 1.0
    ensures Dot(f.l, f.m) == 0.0 && Dot(f.m, f.n) == 0.0 && Dot(f.l, f.n) == 0.0
    ensures f.l.y == 0.0
    ensures Dot(f.l, p0) == 0.0 && Dot(f.m, p0) == 0.0 && Dot(f.n, p0) == Magnitude(p0, t)
  {
    var bigL := Cross(Vec3(0.0, 1.0, 0.0), p0);
    var l := Normalize(bigL, t);
    var n := Normalize(p0, t);
    var m := Cross(n, l);
    FrameFacts(p0, t, bigL, l, n, m);
    Frame(l, m, n)
  }

  lemma FrameFacts(p0: Vec3, t: Trig, bigL: Vec3, l: Vec3, n: Vec3, m: Vec3)
    requires Lawful(t) && 0.0 < Dot(bigL, bigL) && 0.0 < Dot(p0, p0)
    requires bigL == Cross(Vec3(0.0, 1.0, 0.0), p0)
    requires l == Normalize(bigL, t) && n == Normalize(p0, t) && m == Cross(n, l)
    ensures Dot(m, m) == 1.0
    ensures Dot(l, m) == 0.0 && Dot(m, n) == 0.0 && Dot(l, n) == 0.0
    ensures Dot(l, p0) == 0.0 && Dot(m, p0) == 0.0 && Dot(n, p0) == Magnitude(p0, t)
  {
    var kl := 1.0 / Magnitude(bigL, t);
    var kn := 1.0 / Magnitude(p0, t);
    ScaledOrthogonal(kl, bigL, kn, p0);
    ScaledOrthogonal(kl, bigL, 1.0, p0);
    assert Scale3(1.0, p0) == p0;
    DotLaws(0.0, l, n);
    CrossLagrange(n, l);
    assert Dot(m, m) == 1.0 * 1.0 - 0.0 * 0.0;
    var mag := Magnitude(p0, t);
    assert Scale3(mag, n) == p0;
    DotLaws(mag, m, n);
    DotLaws(mag, n, n);
  }

  /** The first three entries of a homogeneous row or column. */
  function Lead(u: Vec4): Vec3 {
    Vec3(u.x, u.y, u.z)
  }

  /** changeBasisMatrix: rows l, m, n with translation entries -(row . p0), and the
      homogeneous last row. It sends the eye to the origin and the world origin onto the
      negative view axis at the eye's distance; its rows l, m, n are unit vectors at right
      angles to each other. */
  function ChangeBasis(p0: Vec3, t: Trig): (b: Mat4)
    requires Lawful(t) && OffVerticalAxis(p0)
    ensures Dot(Lead(b.r0), Lead(b.r0)) == 1.0 && Dot(Lead(b.r1), Lead(b.r1)) == 1.0
    ensures Dot(Lead(b.r2), Lead(b.r2)) == 1.0
    ensures Dot(Lead(b.r0), Lead(b.r1)) == 0.0 && Dot(Lead(b.r1), Lead(b.r2)) == 0.0
    ensures Dot(Lead(b.r0), Lead(b.r2)) == 0.0
    ensures b.r3 == E3
    ensures Apply(b, Point(p0)) == E3
    ensures Apply(b, E3) == Vec4(0.0, 0.0, -Magnitude(p0, t), 1.0)
  {
    var f := EyeFrame(p0, t);
    var b := Mat4(BasisRow(f.l, p0), BasisRow(f.m, p0), BasisRow(f.n, p0), Vec4(0.0, 0.0, 0.0, 1.0));
    BasisRowFacts(f.l, p0);
    BasisRowFacts(f.m, p0);
    BasisRowFacts(f.n, p0);
    assert Lead(b.r0) == f.l && Lead(b.r1) == f.m && Lead(b.r2) == f.n;
    b
  }

  /** One row of changeBasisMatrix: the frame vector and the translation entry -(u . p0). */
  function BasisRow(u: Vec3, p0: Vec3): Vec4 {
    Vec4(u.x, u.y, u.z, -1.0 * Dot(u, p0))
  }

  /** A basis row measures a point's offset from the eye along its frame vector. */
  lemma BasisRowFacts(u: Vec3, p0: Vec3)
    ensures Dot4(BasisRow(u, p0), Point(p0)) == 0.0
    ensures Dot4(BasisRow(u, p0), E3) == -Dot(u, p0)
  {
  }
}
