/** Properties of the two orbits: hOrbit turns the scene about the vertical axis; vOrbit,
    as written, builds a matrix that reverses one horizontal direction for every angle. */
module Orbits {
  import opened RealFns
  import opened Vectors
  import opened Matrices
  import opened Basis
  import opened View

  // ---------------------------------------------------------------------------------
  // hOrbit

  /** The y-axis rotation with cosine c and sine s, in hOrbit's layout. */
  function YRotation(c: real, s: real): Mat4 {
    Mat4(Vec4(c, 0.0, 1.0 * s, 0.0), E1, Vec4(-1.0 * s, 0.0, 1.0 * c, 0.0), E3)
  }

  lemma HOrbitRotationShape(h: real, t: Trig)
    ensures HOrbitRotation(h, t) == YRotation(t.cos(h), t.sin(h))
  {
  }

  /** Rotations by (c, s) and (c, -s) about the y axis undo each other. */
  lemma YRotationPair(c: real, s: real)
    requires c * c + s * s == 1.0
    ensures Mul(YRotation(c, -s), YRotation(c, s)) == Identity
    ensures Mul(YRotation(c, s), YRotation(c, -s)) == Identity
  {
    var m := Mul(YRotation(c, -s), YRotation(c, s));
    assert m.r0 == Vec4(c * c + s * s, 0.0, 0.0, 0.0);
    assert m.r2 == Vec4(0.0, 0.0, s * s + c * c, 0.0);
    var n := Mul(YRotation(c, s), YRotation(c, -s));
    assert n.r0 == Vec4(c * c + s * s, 0.0, 0.0, 0.0);
    assert n.r2 == Vec4(0.0, 0.0, s * s + c * c, 0.0);
  }

  /** The hOrbit matrix for -h is the inverse of the one for h, in both orders. */
  lemma HOrbitRotationInverse(h: real, t: Trig)
    requires Lawful(t)
    ensures Mul(HOrbitRotation(-h, t), HOrbitRotation(h, t)) == Identity
    ensures Mul(HOrbitRotation(h, t), HOrbitRotation(-h, t)) == Identity
  {
    Negate(t, h);
    var c := t.cos(h);
    var s := t.sin(h);
    assert c * c + s * s == 1.0;
    HOrbitRotationShape(h, t);
    HOrbitRotationShape(-h, t);
    assert YRotation(t.cos(-h), t.sin(-h)) == YRotation(c, -s);
    YRotationPair(c, s);
  }

  /** At angle zero the hOrbit matrix is the identity. */
  lemma HOrbitRotationAtZero(t: Trig)
    requires Lawful(t)
    ensures HOrbitRotation(0.0, t) == Identity
  {
    SinZero(t);
  }

  lemma RotationKeepsLength(c: real, s: real, x: real, z: real)
    requires c * c + s * s == 1.0
    ensures (c * x + s * z) * (c * x + s * z) + (-s * x + c * z) * (-s * x + c * z)
              == x * x + z * z
  {
    assert (c * x + s * z) * (c * x + s * z) + (-s * x + c * z) * (-s * x + c * z)
             == (c * c + s * s) * (x * x + z * z);
  }

  /** The hOrbit matrix is a rotation about the y axis: it keeps a column's height and
      homogeneous entry and its squared distance from the y axis. */
  lemma HOrbitRotationKeepsRadius(h: real, t: Trig, v: Vec4)
    requires Lawful(t)
    ensures Apply(HOrbitRotation(h, t), v).y == v.y
    ensures Apply(HOrbitRotation(h, t), v).w == v.w
    ensures Apply(HOrbitRotation(h, t), v).x * Apply(HOrbitRotation(h, t), v).x
          + Apply(HOrbitRotation(h, t), v).z * Apply(HOrbitRotation(h, t), v).z
              == v.x * v.x + v.z * v.z
  {
    var c := t.cos(h);
    var s := t.sin(h);
    assert c * c + s * s == 1.0;
    var w := Apply(HOrbitRotation(h, t), v);
    assert w.x == c * v.x + s * v.z;
    assert w.z == -s * v.x + c * v.z;
    RotationKeepsLength(c, s, v.x, v.z);
  }

  /** Two horizontal orbits are one orbit by the sum of their arguments. */
  lemma HOrbitAccumulates(vc: ViewContext, a: real, b: real, t: Trig)
    ensures HOrbit(HOrbit(vc, a, t), b, t) == HOrbit(vc, a + b, t)
  {
    RadiansAdd(a, b);
    assert vc.hdeg + Radians(a) + Radians(b) == vc.hdeg + Radians(a + b);
  }

  /** hOrbit(a) then hOrbit(-a) restores the angle, and the matrix is rebuilt for it. */
  lemma HOrbitThenInverse(vc: ViewContext, a: real, t: Trig)
    ensures HOrbit(HOrbit(vc, a, t), -a, t) == vc.(hOrbitMatrix := HOrbitRotation(vc.hdeg, t))
  {
    HOrbitAccumulates(vc, a, -a, t);
    RadiansAdd(a, -a);
    assert a + -a == 0.0;
    assert vc.hdeg + Radians(a + -a) == vc.hdeg;
  }

  // ---------------------------------------------------------------------------------
  // vOrbit

  /** rotateToZ and rotateFromZ in terms of the axis ratios ta = ax/r and tb = az/r. */
  function ToZShape(ta: real, tb: real): Mat4 {
    Mat4(Vec4(tb, 0.0, -ta, 0.0), E1, Vec4(ta, 0.0, tb, 0.0), E3)
  }

  function FromZShape(ta: real, tb: real): Mat4 {
    Mat4(Vec4(tb, 0.0, ta, 0.0), E1, Vec4(ta, 0.0, -tb, 0.0), E3)
  }

  /** The axis divided by its non-zero length has unit ratios, and the source's
      `-1 * a / r` is the negated ratio. */
  lemma AxisRatios(ax: real, az: real, r: real)
    requires 0.0 < r && r * r == ax * ax + az * az
    ensures (ax / r) * (ax / r) + (az / r) * (az / r) == 1.0
    ensures ax == r * (ax / r) && az == r * (az / r)
    ensures -1.0 * ax / r == -(ax / r) && -1.0 * az / r == -(az / r)
  {
    var a := Vec3(ax, 0.0, az);
    assert r * r == Dot(a, a);
    UnitAfterDivision(a, r, Vec3(ax / r, 0.0 / r, az / r));
  }

  lemma RotateZShapes(p0: Vec3, t: Trig)
    requires Lawful(t) && OffVerticalAxis(p0)
    ensures var r := AxisLength(p0, t);
            var axis := OrbitAxis(p0);
            && RotateToZ(p0, t) == ToZShape(axis.x / r, axis.z / r)
            && RotateFromZ(p0, t) == FromZShape(axis.x / r, axis.z / r)
            && (axis.x / r) * (axis.x / r) + (axis.z / r) * (axis.z / r) == 1.0
            && axis.x == r * (axis.x / r) && axis.z == r * (axis.z / r)
  {
    var r := AxisLength(p0, t);
    var axis := OrbitAxis(p0);
    AxisRatios(axis.x, axis.z, r);
  }

  /** For any unit ratios and any rotation about z, the product toZ * rotateZ * fromZ
      sends (-r ta, 0, r tb, 0) to its negation. */
  lemma ShapeReverses(ta: real, tb: real, r: real, c: real, s: real)
    requires ta * ta + tb * tb == 1.0
    ensures Apply(ToZShape(ta, tb), Apply(RotateMatrix(c, s),
              Apply(FromZShape(ta, tb), Vec4(-r * ta, 0.0, r * tb, 0.0))))
            == Vec4(r * ta, 0.0, -r * tb, 0.0)
    ensures Apply(ToZShape(ta, tb), Apply(FromZShape(ta, tb), Vec4(-r * ta, 0.0, r * tb, 0.0)))
            == Vec4(r * ta, 0.0, -r * tb, 0.0)
  {
    var u := Vec4(-r * ta, 0.0, r * tb, 0.0);
    var f := Apply(FromZShape(ta, tb), u);
    assert f.x == tb * (-r * ta) + ta * (r * tb) == 0.0;
    assert f.z == ta * (-r * ta) + -tb * (r * tb) == -r * (ta * ta + tb * tb) == -r;
    assert f == Vec4(0.0, 0.0, -r, 0.0);
    var g := Apply(RotateMatrix(c, s), f);
    assert g == f;
    var h := Apply(ToZShape(ta, tb), g);
    assert h.x == -ta * -r;
    assert h.z == tb * -r;
  }

  /** vOrbit's matrix, for every angle, sends the column (p0.z, 0, p0.x, 0) to its
      negation: it reverses that horizontal direction instead of rotating about the
      orbit axis. */
  lemma VOrbitRotationReverses(p0: Vec3, v: real, t: Trig)
    requires Lawful(t) && OffVerticalAxis(p0)
    ensures Apply(VOrbitRotation(p0, v, t), Vec4(p0.z, 0.0, p0.x, 0.0))
              == Vec4(-p0.z, 0.0, -p0.x, 0.0)
  {
    var r := AxisLength(p0, t);
    var axis := OrbitAxis(p0);
    RotateZShapes(p0, t);
    var ta := axis.x / r;
    var tb := axis.z / r;
    var u := Vec4(p0.z, 0.0, p0.x, 0.0);
    assert u == Vec4(-r * ta, 0.0, r * tb, 0.0);
    var toZ := RotateToZ(p0, t);
    var rotateZ := RotateMatrix(t.cos(v), t.sin(v));
    var fromZ := RotateFromZ(p0, t);
    ApplyMul(Mul(toZ, rotateZ), fromZ, u);
    ApplyMul(toZ, rotateZ, Apply(fromZ, u));
    ShapeReverses(ta, tb, r, t.cos(v), t.sin(v));
  }

  /** Off the vertical axis, (p0.z, 0, p0.x, 0) is not its own negation. */
  lemma GroundSwapNonzero(p0: Vec3)
    requires OffVerticalAxis(p0)
    ensures Vec4(-p0.z, 0.0, -p0.x, 0.0) != Vec4(p0.z, 0.0, p0.x, 0.0)
  {
  }

  /** Hence vOrbit's matrix is never the identity, whatever the angle. */
  lemma VOrbitRotationNeverIdentity(p0: Vec3, v: real, t: Trig)
    requires Lawful(t) && OffVerticalAxis(p0)
    ensures VOrbitRotation(p0, v, t) != Identity
  {
    VOrbitRotationReverses(p0, v, t);
    ApplyIdentity(Vec4(p0.z, 0.0, p0.x, 0.0));
    GroundSwapNonzero(p0);
  }

  /** In particular rotateFromZ is not the inverse of rotateToZ: their product reverses
      (p0.z, 0, p0.x, 0) too. */
  lemma RotateFromZNotInverse(p0: Vec3, t: Trig)
    requires Lawful(t) && OffVerticalAxis(p0)
    ensures Apply(Mul(RotateToZ(p0, t), RotateFromZ(p0, t)), Vec4(p0.z, 0.0, p0.x, 0.0))
              == Vec4(-p0.z, 0.0, -p0.x, 0.0)
    ensures Mul(RotateToZ(p0, t), RotateFromZ(p0, t)) != Identity
  {
    var r := AxisLength(p0, t);
    var axis := OrbitAxis(p0);
    RotateZShapes(p0, t);
    var ta := axis.x / r;
    var tb := axis.z / r;
    var u := Vec4(p0.z, 0.0, p0.x, 0.0);
    assert u == Vec4(-r * ta, 0.0, r * tb, 0.0);
    ApplyMul(RotateToZ(p0, t), RotateFromZ(p0, t), u);
    ShapeReverses(ta, tb, r, 1.0, 0.0);
    ApplyIdentity(u);
    GroundSwapNonzero(p0);
  }

  /** Two vertical orbits are one orbit by the sum of their arguments. */
  lemma VOrbitAccumulates(vc: ViewContext, a: real, b: real, t: Trig)
    requires Lawful(t) && OffVerticalAxis(vc.p0)
    ensures VOrbit(VOrbit(vc, a, t), b, t) == VOrbit(vc, a + b, t)
  {
    RadiansAdd(a, b);
    assert vc.vdeg + Radians(a) + Radians(b) == vc.vdeg + Radians(a + b);
  }
}
