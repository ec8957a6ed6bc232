/** Sequences of calls on one view context, as the drawing front end makes them: what any
    sequence of edits, orbits, FOV changes and resets keeps, what it accumulates, and what
    a reset restores. */
module Sessions {
  import opened RealFns
  import opened Vectors
  import opened Matrices
  import opened Basis
  import opened View
  import opened Orbits

  /** One public mutator of ViewContext with its arguments. */
  datatype Op =
    | ScaleOp(a: real, b: real)
    | RotateOp(thetaDeg: real)
    | TranslateOp(x: int, y: int)
    | ResetOp
    | AdjustFOVOp(fov: real)
    | HOrbitOp(hDegrees: real)
    | VOrbitOp(vDegrees: real)

  /** The call is defined: scale divides by both of its factors. */
  predicate Allowed(op: Op) {
    op.ScaleOp? ==> op.a != 0.0 && op.b != 0.0
  }

  predicate AllAllowed(ops: seq<Op>) {
    forall i :: 0 <= i < |ops| ==> Allowed(ops[i])
  }

  /** What no mutator ever writes: the eye, the change of basis and the two pivots. */
  predicate Keeps(vc: ViewContext, r: ViewContext) {
    r.p0 == vc.p0 && r.changeBasisMatrix == vc.changeBasisMatrix
      && r.translateToOrigin == vc.translateToOrigin
      && r.translateFromOrigin == vc.translateFromOrigin
  }

  /** Each orbit matrix is either the identity (as after construction or a reset) or the
      rotation rebuilt from its stored angle. */
  predicate OrbitsConsistent(vc: ViewContext, t: Trig)
    requires Lawful(t) && OffVerticalAxis(vc.p0)
  {
    (vc.hOrbitMatrix == Identity || vc.hOrbitMatrix == HOrbitRotation(vc.hdeg, t))
      && (vc.vOrbitMatrix == Identity || vc.vOrbitMatrix == VOrbitRotation(vc.p0, vc.vdeg, t))
  }

  /** The call `op` on the context. */
  function Step(vc: ViewContext, op: Op, t: Trig): (r: ViewContext)
    requires Lawful(t) && OffVerticalAxis(vc.p0) && Allowed(op)
    ensures Keeps(vc, r)
    ensures PivotsInverse(vc) && UndoInvariant(vc) ==> UndoInvariant(r)
  {
    match op
    case ScaleOp(a, b) => Scale(vc, a, b)
    case RotateOp(deg) => Rotate(vc, deg, t)
    case TranslateOp(x, y) => Translate(vc, x, y)
    case ResetOp => Reset(vc)
    case AdjustFOVOp(fov) => AdjustFOV(vc, fov)
    case HOrbitOp(deg) => HOrbit(vc, deg, t)
    case VOrbitOp(deg) => VOrbit(vc, deg, t)
  }

  /** The calls `ops`, first to last. */
  function Run(vc: ViewContext, ops: seq<Op>, t: Trig): (r: ViewContext)
    requires Lawful(t) && OffVerticalAxis(vc.p0) && AllAllowed(ops)
    ensures Keeps(vc, r)
    decreases |ops|
  {
    if |ops| == 0 then vc else Run(Step(vc, ops[0], t), ops[1..], t)
  }

  // ---------------------------------------------------------------------------------
  // Reference sums of the relative arguments

  function HDelta(op: Op): real {
    if op.HOrbitOp? then op.hDegrees else 0.0
  }

  function VDelta(op: Op): real {
    if op.VOrbitOp? then op.vDegrees else 0.0
  }

  function FovDelta(op: Op): real {
    if op.AdjustFOVOp? then op.fov else 0.0
  }

  /** The degrees passed to hOrbit, to vOrbit and to adjustFOV over the whole sequence. */
  function HSum(ops: seq<Op>): real {
    if |ops| == 0 then 0.0 else HDelta(ops[0]) + HSum(ops[1..])
  }

  function VSum(ops: seq<Op>): real {
    if |ops| == 0 then 0.0 else VDelta(ops[0]) + VSum(ops[1..])
  }

  function FovSum(ops: seq<Op>): real {
    if |ops| == 0 then 0.0 else FovDelta(ops[0]) + FovSum(ops[1..])
  }

  // ---------------------------------------------------------------------------------
  // What a run keeps and accumulates

  /** A run keeps the pivots inverse to each other and keeps toModel * toDevice equal to
      translateFromOrigin. */
  lemma {:induction false} RunKeepsUndoInvariant(vc: ViewContext, ops: seq<Op>, t: Trig)
    requires Lawful(t) && OffVerticalAxis(vc.p0) && AllAllowed(ops)
    requires PivotsInverse(vc) && UndoInvariant(vc)
    ensures PivotsInverse(Run(vc, ops, t)) && UndoInvariant(Run(vc, ops, t))
    decreases |ops|
  {
    if |ops| != 0 {
      RunKeepsUndoInvariant(Step(vc, ops[0], t), ops[1..], t);
    }
  }

  /** The stored angles are the start angles plus the radians of all orbit arguments, and
      zf is the start FOV plus all adjustFOV arguments; a reset changes none of them. */
  lemma {:induction false} RunAccumulates(vc: ViewContext, ops: seq<Op>, t: Trig)
    requires Lawful(t) && OffVerticalAxis(vc.p0) && AllAllowed(ops)
    ensures Run(vc, ops, t).hdeg == vc.hdeg + Radians(HSum(ops))
    ensures Run(vc, ops, t).vdeg == vc.vdeg + Radians(VSum(ops))
    ensures Run(vc, ops, t).zf == vc.zf + FovSum(ops)
    decreases |ops|
  {
    if |ops| == 0 {
      RadiansAdd(0.0, 0.0);
    } else {
      var s := Step(vc, ops[0], t);
      StepAccumulates(vc, ops[0], t);
      RunAccumulates(s, ops[1..], t);
      RadiansAdd(HDelta(ops[0]), HSum(ops[1..]));
      RadiansAdd(VDelta(ops[0]), VSum(ops[1..]));
    }
  }

  lemma StepAccumulates(vc: ViewContext, op: Op, t: Trig)
    requires Lawful(t) && OffVerticalAxis(vc.p0) && Allowed(op)
    ensures Step(vc, op, t).hdeg == vc.hdeg + Radians(HDelta(op))
    ensures Step(vc, op, t).vdeg == vc.vdeg + Radians(VDelta(op))
    ensures Step(vc, op, t).zf == vc.zf + FovDelta(op)
  {
    RadiansAdd(0.0, 0.0);
  }

  /** A run keeps each orbit matrix either the identity or the rotation for its stored
      angle. */
  lemma {:induction false} RunKeepsOrbitsConsistent(vc: ViewContext, ops: seq<Op>, t: Trig)
    requires Lawful(t) && OffVerticalAxis(vc.p0) && AllAllowed(ops)
    requires OrbitsConsistent(vc, t)
    ensures OrbitsConsistent(Run(vc, ops, t), t)
    decreases |ops|
  {
    if |ops| != 0 {
      RunKeepsOrbitsConsistent(Step(vc, ops[0], t), ops[1..], t);
    }
  }

  /** deviceToModel reads the change of basis only, so no call changes what it returns. */
  lemma DeviceToModelIgnoresRun(vc: ViewContext, ops: seq<Op>, t: Trig, v: Batch)
    requires Lawful(t) && OffVerticalAxis(vc.p0) && AllAllowed(ops)
    ensures DeviceToModel(Run(vc, ops, t), v) == DeviceToModel(vc, v)
  {
  }

  // ---------------------------------------------------------------------------------
  // Construction and reset

  function Eye(x0: int, y0: int, z0: int): Vec3 {
    Vec3(x0 as real, y0 as real, z0 as real)
  }

  /** The state the constructor leaves for screen centre (cx, cy): no edit, no orbit,
      no stored angle, pivots at the centre, the forward matrix the centring translation,
      and a change of basis that sends the eye to the origin and the world origin to
      depth minus the eye's distance. */
  predicate Fresh(c: ViewContext, cx: real, cy: real, t: Trig)
    requires Lawful(t)
  {
    c.hdeg == 0.0 && c.vdeg == 0.0 && PivotsAt(c, cx, cy) && PivotsInverse(c)
      && c.toModelCoordinates == Identity && c.toDeviceCoordinates == Translation(cx, cy)
      && c.hOrbitMatrix == Identity && c.vOrbitMatrix == Identity
      && Apply(c.changeBasisMatrix, Point(c.p0)) == E3
      && Apply(c.changeBasisMatrix, E3) == Vec4(0.0, 0.0, -Magnitude(c.p0, t), 1.0)
  }

  /** The constructor leaves a fresh context for its eye, centre and FOV, with the change
      of basis computed from the eye; a fresh context satisfies the undo relation. */
  lemma CreateIsFresh(x0: int, y0: int, z0: int, x: int, y: int, zf: real, t: Trig)
    requires Lawful(t) && OffVerticalAxis(Eye(x0, y0, z0))
    ensures var c := Create(x0, y0, z0, x, y, zf, t);
            c.p0 == Eye(x0, y0, z0) && c.zf == zf && Fresh(c, x as real, y as real, t)
              && c.changeBasisMatrix == ChangeBasis(c.p0, t) && UndoInvariant(c)
  {
  }

  /** After any run from a context centred at (cx, cy) that satisfies the undo relation,
      the pivots are still at the centre and the undo product is the centring
      translation. */
  lemma CentredRun(c: ViewContext, cx: real, cy: real, ops: seq<Op>, t: Trig)
    requires Lawful(t) && OffVerticalAxis(c.p0) && AllAllowed(ops)
    requires PivotsAt(c, cx, cy) && PivotsInverse(c) && UndoInvariant(c)
    ensures UndoInvariant(Run(c, ops, t)) && PivotsAt(Run(c, ops, t), cx, cy)
    ensures Mul(Run(c, ops, t).toModelCoordinates, Run(c, ops, t).toDeviceCoordinates)
              == Translation(cx, cy)
  {
    RunKeepsUndoInvariant(c, ops, t);
  }

  /** reset after any run from a fresh context gives that context back except for zf and
      the two orbit angles, which keep their accumulated values. */
  lemma ResetMatchesFresh(c: ViewContext, cx: real, cy: real, ops: seq<Op>, t: Trig)
    requires Lawful(t) && OffVerticalAxis(c.p0) && AllAllowed(ops) && Fresh(c, cx, cy, t)
    ensures Reset(Run(c, ops, t))
              == c.(zf := Run(c, ops, t).zf, hdeg := Run(c, ops, t).hdeg,
                    vdeg := Run(c, ops, t).vdeg)
  {
  }

  /** After a reset the picture is the unorbited, unedited one: change of basis, projection
      at the current FOV, then the centring translation. */
  lemma ResetDrawsUnorbited(c: ViewContext, cx: real, cy: real, ops: seq<Op>, t: Trig, v: Batch)
    requires Lawful(t) && OffVerticalAxis(c.p0) && AllAllowed(ops) && Fresh(c, cx, cy, t)
    requires Projectable(Transform(c.changeBasisMatrix, v), Run(c, ops, t).zf)
    ensures Projectable(EyeCoordinates(Reset(Run(c, ops, t)), v), Run(c, ops, t).zf)
    ensures ModelToDevice(Reset(Run(c, ops, t)), v)
              == Transform(Translation(cx, cy),
                           Project(Transform(c.changeBasisMatrix, v), Run(c, ops, t).zf))
  {
    ResetMatchesFresh(c, cx, cy, ops, t);
    MulIdentity(c.changeBasisMatrix);
    MulIdentity(Mul(c.changeBasisMatrix, Identity));
  }

  /** A fresh context stores angle 0 for both orbits; its horizontal orbit matrix is the
      rotation for that angle, but its vertical one is not, since the vertical rotation
      is never the identity. */
  lemma FreshOrbitsAtZero(c: ViewContext, cx: real, cy: real, t: Trig)
    requires Lawful(t) && OffVerticalAxis(c.p0) && Fresh(c, cx, cy, t)
    ensures OrbitsConsistent(c, t)
    ensures c.hOrbitMatrix == HOrbitRotation(c.hdeg, t)
    ensures c.vOrbitMatrix != VOrbitRotation(c.p0, c.vdeg, t)
  {
    HOrbitRotationAtZero(t);
    VOrbitRotationNeverIdentity(c.p0, 0.0, t);
  }

  /** reset clears the orbit matrix but not the stored angle, so the next hOrbit turns the
      view to the whole accumulated angle, not only to its own argument. */
  lemma ResetKeepsOrbitAngle(vc: ViewContext, d: real, t: Trig)
    ensures HOrbit(Reset(vc), d, t).hOrbitMatrix == HOrbitRotation(vc.hdeg + Radians(d), t)
    ensures Reset(vc).hOrbitMatrix == Identity && Reset(vc).hdeg == vc.hdeg
  {
  }

  // ---------------------------------------------------------------------------------
  // Where a fresh context draws

  /** The world origin is drawn at the screen centre, at depth minus the eye's distance. */
  lemma OriginMapsToCentre(c: ViewContext, cx: real, cy: real, t: Trig)
    requires Lawful(t) && Fresh(c, cx, cy, t) && Magnitude(c.p0, t) + c.zf != 0.0
    ensures Projectable(EyeCoordinates(c, Batch(E3, E3, E3)), c.zf)
    ensures ModelToDevice(c, Batch(E3, E3, E3)).c0 == Vec4(cx, cy, -Magnitude(c.p0, t), 1.0)
  {
    ScreenOf(c, Batch(E3, E3, E3), Vec4(0.0, 0.0, -Magnitude(c.p0, t), 1.0), cx, cy);
  }

  /** The eye point itself is drawn at the screen centre, at depth 0. */
  lemma EyeMapsToCentre(c: ViewContext, cx: real, cy: real, t: Trig)
    requires Lawful(t) && Fresh(c, cx, cy, t) && c.zf != 0.0
    ensures Projectable(EyeCoordinates(c, Batch(Point(c.p0), Point(c.p0), Point(c.p0))), c.zf)
    ensures ModelToDevice(c, Batch(Point(c.p0), Point(c.p0), Point(c.p0))).c0
              == Vec4(cx, cy, 0.0, 1.0)
  {
    ScreenOf(c, Batch(Point(c.p0), Point(c.p0), Point(c.p0)), E3, cx, cy);
  }

  /** With no orbit and the forward matrix the centring translation, a column whose eye
      coordinates lie on the view axis is drawn at the screen centre with its depth kept. */
  lemma ScreenOf(c: ViewContext, v: Batch, q: Vec4, cx: real, cy: real)
    requires c.hOrbitMatrix == Identity && c.vOrbitMatrix == Identity
    requires c.toDeviceCoordinates == Translation(cx, cy)
    requires Apply(c.changeBasisMatrix, v.c0) == q && q.x == 0.0 && q.y == 0.0 && q.w == 1.0
    requires v.c1 == v.c0 && v.c2 == v.c0 && Abs(q.z) + c.zf != 0.0
    ensures Projectable(EyeCoordinates(c, v), c.zf)
    ensures ModelToDevice(c, v).c0 == Vec4(cx, cy, q.z, 1.0)
  {
    MulIdentity(c.changeBasisMatrix);
    MulIdentity(Mul(c.changeBasisMatrix, Identity));
    var p := ProjectColumn(q, c.zf);
    assert p.x * (Abs(q.z) + c.zf) == 0.0;
    ZeroProduct(p.x, Abs(q.z) + c.zf);
    ZeroProduct(p.y, Abs(q.z) + c.zf);
  }
}
