/** The view context: camera state, the orbit and basis matrices, the pivot pair and the
    forward/undo pair of screen-edit matrices, with one pure update per operation of
    ViewContext. Every operation returns the new state; sin, cos and sqrt come in as the
    `Trig` record. */
module View {
  import opened RealFns
  import opened Vectors
  import opened Matrices
  import opened Basis

  /** The fields of ViewContext (the unused `pref`, `mi` and `li` are not kept). */
  datatype ViewContext = ViewContext(
    toModelCoordinates: Mat4,
    toDeviceCoordinates: Mat4,
    changeBasisMatrix: Mat4,
    hOrbitMatrix: Mat4,
    vOrbitMatrix: Mat4,
    translateToOrigin: Mat4,
    translateFromOrigin: Mat4,
    p0: Vec3,
    zf: real,
    hdeg: real,
    vdeg: real)

  /** The two pivots undo each other in either order. */
  predicate PivotsInverse(vc: ViewContext) {
    Mul(vc.translateToOrigin, vc.translateFromOrigin) == Identity
      && Mul(vc.translateFromOrigin, vc.translateToOrigin) == Identity
  }

  /** The pivots are the translations to and from the screen centre (cx, cy). */
  predicate PivotsAt(vc: ViewContext, cx: real, cy: real) {
    vc.translateToOrigin == Translation(-cx, -cy) && vc.translateFromOrigin == Translation(cx, cy)
  }

  /** The relation between the forward and undo matrices that every edit keeps. */
  predicate UndoInvariant(vc: ViewContext) {
    Mul(vc.toModelCoordinates, vc.toDeviceCoordinates) == vc.translateFromOrigin
  }

  // ---------------------------------------------------------------------------------
  // Construction

  /** The state right after the fields are set and createTransformMatricies has
      allocated its zero-filled matrices. */
  function Allocate(p0: Vec3, zf: real): (vc: ViewContext)
    ensures vc.p0 == p0 && vc.zf == zf && vc.hdeg == 0.0 && vc.vdeg == 0.0
  {
    ViewContext(Zero, Zero, Zero, Zero, Zero, Zero, Zero, p0, zf, 0.0, 0.0)
  }

  /** resetTransformMatricies: clears the forward, undo and orbit matrices and writes
      ones on their diagonals, so each becomes the identity; nothing else changes. */
  function ResetTransformMatrices(vc: ViewContext): (r: ViewContext)
    ensures r.toModelCoordinates == Identity && r.toDeviceCoordinates == Identity
    ensures r.hOrbitMatrix == Identity && r.vOrbitMatrix == Identity
    ensures r.changeBasisMatrix == vc.changeBasisMatrix
    ensures r.translateToOrigin == vc.translateToOrigin
    ensures r.translateFromOrigin == vc.translateFromOrigin
    ensures r.p0 == vc.p0 && r.zf == vc.zf && r.hdeg == vc.hdeg && r.vdeg == vc.vdeg
  {
    var diagonal := Mat4(Zero4.(x := 1.0), Zero4.(y := 1.0), Zero4.(z := 1.0), Zero4.(w := 1.0));
    vc.(toModelCoordinates := diagonal, toDeviceCoordinates := diagonal,
        hOrbitMatrix := diagonal, vOrbitMatrix := diagonal)
  }

  /** transformBasis: writes every entry of changeBasisMatrix from the eye point; its
      rows l, m, n are orthonormal. */
  function TransformBasis(vc: ViewContext, t: Trig): (r: ViewContext)
    requires Lawful(t) && OffVerticalAxis(vc.p0)
    ensures var b := r.changeBasisMatrix;
            Dot(Lead(b.r0), Lead(b.r0)) == 1.0 && Dot(Lead(b.r1), Lead(b.r1)) == 1.0 &&
            Dot(Lead(b.r2), Lead(b.r2)) == 1.0
    ensures var b := r.changeBasisMatrix;
            Dot(Lead(b.r0), Lead(b.r1)) == 0.0 && Dot(Lead(b.r1), Lead(b.r2)) == 0.0 &&
            Dot(Lead(b.r0), Lead(b.r2)) == 0.0
    ensures r.changeBasisMatrix.r3 == E3
    ensures Apply(r.changeBasisMatrix, Point(vc.p0)) == E3
    ensures r.(changeBasisMatrix := vc.changeBasisMatrix) == vc
  {
    vc.(changeBasisMatrix := ChangeBasis(vc.p0, t))
  }

  /** originToCenter: writes the offsets and the diagonal of both pivots, leaving their
      other entries as they were, then puts translateFromOrigin in front of the forward
      matrix. */
  function OriginToCenter(vc: ViewContext, x: real, y: real): (r: ViewContext)
    ensures r.translateToOrigin.r0.w == -x && r.translateToOrigin.r1.w == -y
    ensures r.translateFromOrigin.r0.w == x && r.translateFromOrigin.r1.w == y
    ensures r.translateToOrigin.r0.x == 1.0 && r.translateToOrigin.r1.y == 1.0
    ensures r.translateToOrigin.r2.z == 1.0 && r.translateToOrigin.r3.w == 1.0
    ensures r.translateFromOrigin.r0.x == 1.0 && r.translateFromOrigin.r1.y == 1.0
    ensures r.translateFromOrigin.r2.z == 1.0 && r.translateFromOrigin.r3.w == 1.0
    ensures r.toDeviceCoordinates == Mul(r.translateFromOrigin, vc.toDeviceCoordinates)
    ensures r.(toDeviceCoordinates := vc.toDeviceCoordinates,
               translateToOrigin := vc.translateToOrigin,
               translateFromOrigin := vc.translateFromOrigin) == vc
  {
    var pt := vc.translateToOrigin;
    var pf := vc.translateFromOrigin;
    var toOrigin := Mat4(pt.r0.(x := 1.0, w := -x), pt.r1.(y := 1.0, w := -y),
                         pt.r2.(z := 1.0), pt.r3.(w := 1.0));
    var fromOrigin := Mat4(pf.r0.(x := 1.0, w := x), pf.r1.(y := 1.0, w := y),
                           pf.r2.(z := 1.0), pf.r3.(w := 1.0));
    vc.(translateToOrigin := toOrigin, translateFromOrigin := fromOrigin,
        toDeviceCoordinates := Mul(fromOrigin, vc.toDeviceCoordinates))
  }

  /** On the zero-filled pivots a new context has, originToCenter leaves exactly the
      translations to and from (x, y), which undo each other. */
  lemma OriginToCenterOnZero(vc: ViewContext, x: real, y: real)
    requires vc.translateToOrigin == Zero && vc.translateFromOrigin == Zero
    ensures PivotsAt(OriginToCenter(vc, x, y), x, y)
    ensures PivotsInverse(OriginToCenter(vc, x, y))
  {
    var r := OriginToCenter(vc, x, y);
    assert r.translateToOrigin == Translation(-x, -y);
    assert r.translateFromOrigin == Translation(x, y);
    TranslationUndo(x, y);
  }

  /** The constructor ViewContext(x0, y0, z0, x, y, zf): eye (x0, y0, z0), screen centre
      (x, y) and FOV zf. The undo product starts as translateFromOrigin, not the
      identity, because the centring is applied to the forward matrix alone. */
  function Create(x0: int, y0: int, z0: int, x: int, y: int, zf: real, t: Trig): (vc: ViewContext)
    requires Lawful(t) && OffVerticalAxis(Vec3(x0 as real, y0 as real, z0 as real))
    ensures vc.p0 == Vec3(x0 as real, y0 as real, z0 as real)
    ensures vc.zf == zf && vc.hdeg == 0.0 && vc.vdeg == 0.0
    ensures PivotsAt(vc, x as real, y as real) && PivotsInverse(vc)
    ensures vc.toModelCoordinates == Identity
    ensures vc.toDeviceCoordinates == Translation(x as real, y as real)
    ensures vc.hOrbitMatrix == Identity && vc.vOrbitMatrix == Identity
    ensures vc.changeBasisMatrix == ChangeBasis(vc.p0, t)
    ensures UndoInvariant(vc)
  {
    var p0 := Vec3(x0 as real, y0 as real, z0 as real);
    var based := TransformBasis(ResetTransformMatrices(Allocate(p0, zf)), t);
    OriginToCenterOnZero(based, x as real, y as real);
    var r := OriginToCenter(based, x as real, y as real);
    MulIdentity(r.translateFromOrigin);
    r
  }

  // ---------------------------------------------------------------------------------
  // Drawing

  /** Three homogeneous columns all of whose perspective denominators |z| + zf are
      non-zero. */
  predicate Projectable(b: Batch, zf: real) {
    Abs(b.c0.z) + zf != 0.0 && Abs(b.c1.z) + zf != 0.0 && Abs(b.c2.z) + zf != 0.0
  }

  /** The perspective divide of one column: x and y are scaled by zf / (|z| + zf), z and
      w are kept. */
  function ProjectColumn(v: Vec4, zf: real): (r: Vec4)
    requires Abs(v.z) + zf != 0.0
    ensures r.z == v.z && r.w == v.w
    ensures r.x * (Abs(v.z) + zf) == zf * v.x && r.y * (Abs(v.z) + zf) == zf * v.y
  {
    var d := Abs(v.z) + zf;
    DivCancel(d, zf * v.x);
    DivCancel(d, zf * v.y);
    v.(x := (zf * v.x) / d, y := (zf * v.y) / d)
  }

  /** project: the divide applied to each of the three columns. */
  function Project(b: Batch, zf: real): (r: Batch)
    requires Projectable(b, zf)
    ensures r.c0.z == b.c0.z && r.c1.z == b.c1.z && r.c2.z == b.c2.z
    ensures r.c0.w == b.c0.w && r.c1.w == b.c1.w && r.c2.w == b.c2.w
    ensures r.c0.x * (Abs(b.c0.z) + zf) == zf * b.c0.x
    ensures r.c0.y * (Abs(b.c0.z) + zf) == zf * b.c0.y
    ensures r.c1.x * (Abs(b.c1.z) + zf) == zf * b.c1.x
    ensures r.c1.y * (Abs(b.c1.z) + zf) == zf * b.c1.y
    ensures r.c2.x * (Abs(b.c2.z) + zf) == zf * b.c2.x
    ensures r.c2.y * (Abs(b.c2.z) + zf) == zf * b.c2.y
  {
    Batch(ProjectColumn(b.c0, zf), ProjectColumn(b.c1, zf), ProjectColumn(b.c2, zf))
  }

  /** The vertices after the horizontal orbit, the vertical orbit and the change of basis,
      which together act as the single matrix B * V * H. */
  function EyeCoordinates(vc: ViewContext, v: Batch): (r: Batch)
    ensures r == Transform(Mul(Mul(vc.changeBasisMatrix, vc.vOrbitMatrix), vc.hOrbitMatrix), v)
  {
    var hv := Transform(vc.hOrbitMatrix, v);
    var vhv := Transform(vc.vOrbitMatrix, hv);
    TransformMul(vc.changeBasisMatrix, vc.vOrbitMatrix, hv);
    TransformMul(Mul(vc.changeBasisMatrix, vc.vOrbitMatrix), vc.hOrbitMatrix, v);
    Transform(vc.changeBasisMatrix, vhv)
  }

  /** modelToDevice: orbit, change basis, project, then apply the screen edits. The
      argument is not modified (the result is a new batch). */
  function ModelToDevice(vc: ViewContext, v: Batch): (r: Batch)
    requires Projectable(EyeCoordinates(vc, v), vc.zf)
    ensures r == Transform(vc.toDeviceCoordinates,
                           Project(Transform(Mul(Mul(vc.changeBasisMatrix, vc.vOrbitMatrix),
                                                 vc.hOrbitMatrix), v), vc.zf))
  {
    Transform(vc.toDeviceCoordinates, Project(EyeCoordinates(vc, v), vc.zf))
  }

  /** deviceToModel: the change of basis alone. */
  function DeviceToModel(vc: ViewContext, v: Batch): (r: Batch)
    ensures r.c0 == Apply(vc.changeBasisMatrix, v.c0)
    ensures r.c1 == Apply(vc.changeBasisMatrix, v.c1)
    ensures r.c2 == Apply(vc.changeBasisMatrix, v.c2)
  {
    Transform(vc.changeBasisMatrix, v)
  }

  // ---------------------------------------------------------------------------------
  // Screen edits

  /** The matrix `scale` writes: diagonal (a, b, 1, 1). */
  function ScaleMatrix(a: real, b: real): Mat4 {
    Mat4(Vec4(a, 0.0, 0.0, 0.0), Vec4(0.0, b, 0.0, 0.0), E2, E3)
  }

  /** The matrix `rotate` (and vOrbit's rotateZ) writes from a cosine c and a sine s. */
  function RotateMatrix(c: real, s: real): Mat4 {
    Mat4(Vec4(c, -1.0 * s, 0.0, 0.0), Vec4(s, c, 0.0, 0.0), E2, E3)
  }

  /** One screen edit: `e` pivoted about the centre goes in front of the forward matrix
      and the pivoted undo `u` goes behind the undo matrix. */
  function Edit(vc: ViewContext, e: Mat4, u: Mat4): (r: ViewContext)
    ensures r.(toDeviceCoordinates := vc.toDeviceCoordinates,
               toModelCoordinates := vc.toModelCoordinates) == vc
  {
    var pf := vc.translateFromOrigin;
    var pt := vc.translateToOrigin;
    vc.(toDeviceCoordinates := Mul(Mul(Mul(pf, e), pt), vc.toDeviceCoordinates),
        toModelCoordinates := Mul(Mul(Mul(vc.toModelCoordinates, pf), u), pt))
  }

  /** When the pivots are inverse and `u` undoes `e`, the edit leaves the product of the
      undo and forward matrices unchanged. */
  lemma EditKeepsUndoProduct(vc: ViewContext, e: Mat4, u: Mat4)
    ensures PivotsInverse(vc) && Mul(u, e) == Identity ==>
              Mul(Edit(vc, e, u).toModelCoordinates, Edit(vc, e, u).toDeviceCoordinates)
                == Mul(vc.toModelCoordinates, vc.toDeviceCoordinates)
  {
    if PivotsInverse(vc) && Mul(u, e) == Identity {
      EditKeepsProduct(vc.toModelCoordinates, vc.toDeviceCoordinates,
                       vc.translateFromOrigin, vc.translateToOrigin, e, u);
    }
  }

  lemma EditKeepsProduct(m: Mat4, d: Mat4, pf: Mat4, pt: Mat4, e: Mat4, u: Mat4)
    requires Mul(pt, pf) == Identity && Mul(pf, pt) == Identity && Mul(u, e) == Identity
    ensures Mul(Mul(Mul(Mul(m, pf), u), pt), Mul(Mul(Mul(pf, e), pt), d)) == Mul(m, d)
  {
    var undo := Mul(Mul(Mul(m, pf), u), pt);
    var fwd := Mul(Mul(Mul(pf, e), pt), d);
    Reassociate(m, pf, u, pt);
    Reassociate(pf, e, pt, d);
    MulAssoc(m, Mul(pf, Mul(u, pt)), fwd);
    MulAssoc(pf, Mul(u, pt), fwd);
    MulAssoc(u, pt, fwd);
    MulAssoc(pt, pf, Mul(e, Mul(pt, d)));
    MulIdentity(Mul(e, Mul(pt, d)));
    MulAssoc(u, e, Mul(pt, d));
    MulIdentity(Mul(pt, d));
    MulAssoc(pf, pt, d);
    MulIdentity(d);
  }

  /** Left-to-right products of four factors regrouped to the right. */
  lemma Reassociate(a: Mat4, b: Mat4, c: Mat4, d: Mat4)
    ensures Mul(Mul(Mul(a, b), c), d) == Mul(a, Mul(b, Mul(c, d)))
  {
    MulAssoc(Mul(a, b), c, d);
    MulAssoc(a, b, Mul(c, d));
  }

  /** scale(a, b): the undo matrix uses 1/a and 1/b, so a and b must be non-zero. */
  function Scale(vc: ViewContext, a: real, b: real): (r: ViewContext)
    requires a != 0.0 && b != 0.0
    ensures r.(toDeviceCoordinates := vc.toDeviceCoordinates,
               toModelCoordinates := vc.toModelCoordinates) == vc
    ensures PivotsInverse(vc) ==>
              Mul(r.toModelCoordinates, r.toDeviceCoordinates)
                == Mul(vc.toModelCoordinates, vc.toDeviceCoordinates)
  {
    ScaleUndo(a, b);
    EditKeepsUndoProduct(vc, ScaleMatrix(a, b), ScaleMatrix(1.0 / a, 1.0 / b));
    Edit(vc, ScaleMatrix(a, b), ScaleMatrix(1.0 / a, 1.0 / b))
  }

  lemma ScaleUndo(a: real, b: real)
    requires a != 0.0 && b != 0.0
    ensures Mul(ScaleMatrix(1.0 / a, 1.0 / b), ScaleMatrix(a, b)) == Identity
    ensures Mul(ScaleMatrix(a, b), ScaleMatrix(1.0 / a, 1.0 / b)) == Identity
  {
    var m := Mul(ScaleMatrix(1.0 / a, 1.0 / b), ScaleMatrix(a, b));
    assert m.r0 == E0 && m.r1 == E1;
    var n := Mul(ScaleMatrix(a, b), ScaleMatrix(1.0 / a, 1.0 / b));
    assert n.r0 == E0 && n.r1 == E1;
  }

  /** rotate(theta_deg): the edit is built from the cosine and sine of the angle, the undo
      from those of its negation. */
  function Rotate(vc: ViewContext, thetaDeg: real, t: Trig): (r: ViewContext)
    requires Lawful(t)
    ensures r.(toDeviceCoordinates := vc.toDeviceCoordinates,
               toModelCoordinates := vc.toModelCoordinates) == vc
    ensures PivotsInverse(vc) ==>
              Mul(r.toModelCoordinates, r.toDeviceCoordinates)
                == Mul(vc.toModelCoordinates, vc.toDeviceCoordinates)
  {
    var theta := Radians(thetaDeg);
    RotateUndo(theta, t);
    EditKeepsUndoProduct(vc, RotateMatrix(t.cos(theta), t.sin(theta)),
                         RotateMatrix(t.cos(-theta), t.sin(-theta)));
    Edit(vc, RotateMatrix(t.cos(theta), t.sin(theta)),
         RotateMatrix(t.cos(-theta), t.sin(-theta)))
  }

  lemma RotateUndo(theta: real, t: Trig)
    requires Lawful(t)
    ensures Mul(RotateMatrix(t.cos(-theta), t.sin(-theta)),
                RotateMatrix(t.cos(theta), t.sin(theta))) == Identity
    ensures Mul(RotateMatrix(t.cos(theta), t.sin(theta)),
                RotateMatrix(t.cos(-theta), t.sin(-theta))) == Identity
  {
    Negate(t, theta);
    var c := t.cos(theta);
    var s := t.sin(theta);
    assert c * c + s * s == 1.0;
    assert RotateMatrix(t.cos(-theta), t.sin(-theta)) == RotateMatrix(c, -s);
    RotationPair(c, s);
  }

  /** Rotations by (c, s) and (c, -s) undo each other when c^2 + s^2 == 1. */
  lemma RotationPair(c: real, s: real)
    requires c * c + s * s == 1.0
    ensures Mul(RotateMatrix(c, -s), RotateMatrix(c, s)) == Identity
    ensures Mul(RotateMatrix(c, s), RotateMatrix(c, -s)) == Identity
  {
    var m := Mul(RotateMatrix(c, -s), RotateMatrix(c, s));
    assert m.r0 == Vec4(c * c + s * s, 0.0, 0.0, 0.0);
    assert m.r1 == Vec4(0.0, s * s + c * c, 0.0, 0.0);
    var n := Mul(RotateMatrix(c, s), RotateMatrix(c, -s));
    assert n.r0 == Vec4(c * c + s * s, 0.0, 0.0, 0.0);
    assert n.r1 == Vec4(0.0, s * s + c * c, 0.0, 0.0);
  }

  /** translate(x, y): the edit moves by (x, y), the undo by (-x, -y). */
  function Translate(vc: ViewContext, x: int, y: int): (r: ViewContext)
    ensures r.(toDeviceCoordinates := vc.toDeviceCoordinates,
               toModelCoordinates := vc.toModelCoordinates) == vc
    ensures PivotsInverse(vc) ==>
              Mul(r.toModelCoordinates, r.toDeviceCoordinates)
                == Mul(vc.toModelCoordinates, vc.toDeviceCoordinates)
  {
    var dx := x as real;
    var dy := y as real;
    TranslationUndo(dx, dy);
    EditKeepsUndoProduct(vc, Translation(dx, dy), Translation(-dx, -dy));
    Edit(vc, Translation(dx, dy), Translation(-dx, -dy))
  }

  /** reset: the forward, undo and orbit matrices start over and the centring is applied
      again; the orbit angles, the FOV, the eye, the basis and the pivots stay. */
  function Reset(vc: ViewContext): (r: ViewContext)
    ensures r.toDeviceCoordinates == vc.translateFromOrigin
    ensures r.toModelCoordinates == Identity
    ensures r.hOrbitMatrix == Identity && r.vOrbitMatrix == Identity
    ensures r.(toDeviceCoordinates := vc.toDeviceCoordinates,
               toModelCoordinates := vc.toModelCoordinates,
               hOrbitMatrix := vc.hOrbitMatrix, vOrbitMatrix := vc.vOrbitMatrix) == vc
    ensures UndoInvariant(r)
  {
    var cleared := ResetTransformMatrices(vc);
    MulIdentity(vc.translateFromOrigin);
    cleared.(toDeviceCoordinates := Mul(cleared.translateFromOrigin, cleared.toDeviceCoordinates))
  }

  /** adjustFOV(fov): adds fov to zf and changes nothing else. */
  function AdjustFOV(vc: ViewContext, fov: real): (r: ViewContext)
    ensures r.zf == vc.zf + fov && r.(zf := vc.zf) == vc
  {
    vc.(zf := vc.zf + fov)
  }

  // ---------------------------------------------------------------------------------
  // Orbits

  /** The matrix hOrbit writes: a rotation about the y axis by the angle h. */
  function HOrbitRotation(h: real, t: Trig): Mat4 {
    Mat4(Vec4(t.cos(h), 0.0, 1.0 * t.sin(h), 0.0), E1,
         Vec4(-1.0 * t.sin(h), 0.0, 1.0 * t.cos(h), 0.0), E3)
  }

  /** hOrbit(degrees): the argument is relative; it is added (in radians) to hdeg and the
      orbit matrix is rebuilt from the new hdeg alone. */
  function HOrbit(vc: ViewContext, degrees: real, t: Trig): (r: ViewContext)
    ensures r.hdeg == vc.hdeg + Radians(degrees)
    ensures r.hOrbitMatrix == HOrbitRotation(r.hdeg, t)
    ensures r.(hdeg := vc.hdeg, hOrbitMatrix := vc.hOrbitMatrix) == vc
  {
    var hdeg := vc.hdeg + Radians(degrees);
    vc.(hdeg := hdeg, hOrbitMatrix := HOrbitRotation(hdeg, t))
  }

  /** vOrbit's axis of rotation: the ground-projected eye crossed with the y axis. It is
      horizontal and orthogonal to the ground-projected eye. */
  function OrbitAxis(p0: Vec3): (axis: Vec3)
    ensures axis.y == 0.0 && Dot(axis, Ground(p0)) == 0.0
    ensures Dot(axis, axis) == Dot(Ground(p0), Ground(p0))
  {
    Cross(Ground(p0), Vec3(0.0, 1.0, 0.0))
  }

  /** std::pow(x, 2). */
  function Pow2(x: real): real {
    x * x
  }

  /** The length of the orbit axis as vOrbit computes it, sqrt(ax^2 + az^2); positive
      and squaring to the axis' squared length when the eye is off the vertical axis. */
  function AxisLength(p0: Vec3, t: Trig): (r: real)
    requires Lawful(t) && OffVerticalAxis(p0)
    ensures 0.0 < r && r * r == Dot(Ground(p0), Ground(p0))
  {
    var axis := OrbitAxis(p0);
    assert Pow2(axis.x) + Pow2(axis.z) == Dot(axis, axis);
    t.sqrt(Pow2(axis.x) + Pow2(axis.z))
  }

  /** rotateToZ, entry by entry. */
  function RotateToZ(p0: Vec3, t: Trig): Mat4
    requires Lawful(t) && OffVerticalAxis(p0)
  {
    var axis := OrbitAxis(p0);
    var r := AxisLength(p0, t);
    Mat4(Vec4(axis.z / r, 0.0, -1.0 * axis.x / r, 0.0), E1,
         Vec4(axis.x / r, 0.0, axis.z / r, 0.0), E3)
  }

  /** rotateFromZ, entry by entry as the source writes it: [2][0] is ax/r and [2][2] is
      -az/r, so this is not the inverse of rotateToZ. */
  function RotateFromZ(p0: Vec3, t: Trig): Mat4
    requires Lawful(t) && OffVerticalAxis(p0)
  {
    var axis := OrbitAxis(p0);
    var r := AxisLength(p0, t);
    Mat4(Vec4(axis.z / r, 0.0, axis.x / r, 0.0), E1,
         Vec4(axis.x / r, 0.0, -1.0 * axis.z / r, 0.0), E3)
  }

  /** The matrix vOrbit writes: rotateToZ * rotateZ * rotateFromZ for the angle v. Its
      last row and last column are those of the identity. */
  function VOrbitRotation(p0: Vec3, v: real, t: Trig): (m: Mat4)
    requires Lawful(t) && OffVerticalAxis(p0)
    ensures Affine(m)
  {
    var toZ := RotateToZ(p0, t);
    var rotateZ := RotateMatrix(t.cos(v), t.sin(v));
    var fromZ := RotateFromZ(p0, t);
    assert Affine(toZ) && Affine(rotateZ) && Affine(fromZ);
    AffineMul(toZ, rotateZ);
    AffineMul(Mul(toZ, rotateZ), fromZ);
    Mul(Mul(toZ, rotateZ), fromZ)
  }

  /** vOrbit(degrees): relative like hOrbit; the matrix is rebuilt from p0 and the new
      vdeg alone. */
  function VOrbit(vc: ViewContext, degrees: real, t: Trig): (r: ViewContext)
    requires Lawful(t) && OffVerticalAxis(vc.p0)
    ensures r.vdeg == vc.vdeg + Radians(degrees)
    ensures r.vOrbitMatrix == VOrbitRotation(vc.p0, r.vdeg, t) && Affine(r.vOrbitMatrix)
    ensures r.(vdeg := vc.vdeg, vOrbitMatrix := vc.vOrbitMatrix) == vc
  {
    var vdeg := vc.vdeg + Radians(degrees);
    vc.(vdeg := vdeg, vOrbitMatrix := VOrbitRotation(vc.p0, vdeg, t))
  }
}
