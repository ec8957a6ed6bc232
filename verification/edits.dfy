/** Properties of the screen edits scale, rotate and translate: what each does to the
    drawn picture, and how an edit and its opposite cancel. */
module Edits {
  import opened RealFns
  import opened Matrices
  import opened View

  /** An edit changes the picture by its pivoted matrix, applied after everything the
      drawing did before; the orbit, basis and projection stages are untouched. */
  lemma EditActsInDeviceSpace(vc: ViewContext, e: Mat4, u: Mat4, v: Batch)
    requires Projectable(EyeCoordinates(vc, v), vc.zf)
    ensures Projectable(EyeCoordinates(Edit(vc, e, u), v), Edit(vc, e, u).zf)
    ensures ModelToDevice(Edit(vc, e, u), v)
              == Transform(Mul(Mul(vc.translateFromOrigin, e), vc.translateToOrigin),
                           ModelToDevice(vc, v))
  {
    var r := Edit(vc, e, u);
    assert EyeCoordinates(r, v) == EyeCoordinates(vc, v);
    var projected := Project(EyeCoordinates(vc, v), vc.zf);
    TransformMul(Mul(Mul(vc.translateFromOrigin, e), vc.translateToOrigin),
                 vc.toDeviceCoordinates, projected);
  }

  /** scale pivoted about the centre (cx, cy): a point's offset from the centre is scaled
      by a across and b down (for a point, p.w == 1). */
  lemma ScaleAboutCentre(cx: real, cy: real, a: real, b: real, p: Vec4)
    ensures Apply(Mul(Mul(Translation(cx, cy), ScaleMatrix(a, b)), Translation(-cx, -cy)), p)
              == Vec4(cx * p.w + a * (p.x - cx * p.w), cy * p.w + b * (p.y - cy * p.w), p.z, p.w)
  {
    ApplyMul(Mul(Translation(cx, cy), ScaleMatrix(a, b)), Translation(-cx, -cy), p);
    ApplyMul(Translation(cx, cy), ScaleMatrix(a, b), Apply(Translation(-cx, -cy), p));
  }

  /** rotate pivoted about the centre (cx, cy): a point's offset from the centre is turned
      by the rotation with cosine c and sine s. */
  lemma RotateAboutCentre(cx: real, cy: real, c: real, s: real, p: Vec4)
    ensures Apply(Mul(Mul(Translation(cx, cy), RotateMatrix(c, s)), Translation(-cx, -cy)), p)
              == Vec4(cx * p.w + c * (p.x - cx * p.w) - s * (p.y - cy * p.w),
                      cy * p.w + s * (p.x - cx * p.w) + c * (p.y - cy * p.w), p.z, p.w)
  {
    ApplyMul(Mul(Translation(cx, cy), RotateMatrix(c, s)), Translation(-cx, -cy), p);
    ApplyMul(Translation(cx, cy), RotateMatrix(c, s), Apply(Translation(-cx, -cy), p));
  }

  /** scale(a, b) on a context centred at (cx, cy) scales the drawn picture about the
      centre. */
  lemma ScaleInDeviceSpace(vc: ViewContext, cx: real, cy: real, a: real, b: real, v: Batch)
    requires PivotsAt(vc, cx, cy) && a != 0.0 && b != 0.0
    requires Projectable(EyeCoordinates(vc, v), vc.zf)
    ensures Projectable(EyeCoordinates(Scale(vc, a, b), v), vc.zf)
    ensures ModelToDevice(Scale(vc, a, b), v)
              == Transform(Mul(Mul(Translation(cx, cy), ScaleMatrix(a, b)), Translation(-cx, -cy)),
                           ModelToDevice(vc, v))
  {
    EditActsInDeviceSpace(vc, ScaleMatrix(a, b), ScaleMatrix(1.0 / a, 1.0 / b), v);
  }

  /** rotate(deg) on a context centred at (cx, cy) turns the drawn picture about the
      centre by deg degrees. */
  lemma RotateInDeviceSpace(vc: ViewContext, cx: real, cy: real, deg: real, v: Batch, t: Trig)
    requires Lawful(t) && PivotsAt(vc, cx, cy)
    requires Projectable(EyeCoordinates(vc, v), vc.zf)
    ensures Projectable(EyeCoordinates(Rotate(vc, deg, t), v), vc.zf)
    ensures ModelToDevice(Rotate(vc, deg, t), v)
              == Transform(Mul(Mul(Translation(cx, cy),
                                   RotateMatrix(t.cos(Radians(deg)), t.sin(Radians(deg)))),
                               Translation(-cx, -cy)),
                           ModelToDevice(vc, v))
  {
    var theta := Radians(deg);
    EditActsInDeviceSpace(vc, RotateMatrix(t.cos(theta), t.sin(theta)),
                          RotateMatrix(t.cos(-theta), t.sin(-theta)), v);
  }

  /** translate(x, y) shifts the drawn picture by (x, y), whatever the centre. */
  lemma TranslateInDeviceSpace(vc: ViewContext, cx: real, cy: real, x: int, y: int, v: Batch)
    requires PivotsAt(vc, cx, cy)
    requires Projectable(EyeCoordinates(vc, v), vc.zf)
    ensures Projectable(EyeCoordinates(Translate(vc, x, y), v), vc.zf)
    ensures ModelToDevice(Translate(vc, x, y), v)
              == Transform(Translation(x as real, y as real), ModelToDevice(vc, v))
  {
    var dx := x as real;
    var dy := y as real;
    EditActsInDeviceSpace(vc, Translation(dx, dy), Translation(-dx, -dy), v);
    TranslationConjugate(cx, cy, dx, dy);
  }

  /** Two edits whose matrices undo each other, applied one after the other, give back
      the context. */
  lemma EditPairCancels(vc: ViewContext, e1: Mat4, u1: Mat4, e2: Mat4, u2: Mat4)
    requires PivotsInverse(vc) && Mul(e2, e1) == Identity && Mul(u1, u2) == Identity
    ensures Edit(Edit(vc, e1, u1), e2, u2) == vc
  {
    var pf := vc.translateFromOrigin;
    var pt := vc.translateToOrigin;
    ForwardPair(pf, pt, e1, e2, vc.toDeviceCoordinates);
    UndoPair(pf, pt, u1, u2, vc.toModelCoordinates);
  }

  lemma ForwardPair(pf: Mat4, pt: Mat4, e1: Mat4, e2: Mat4, d: Mat4)
    requires Mul(pt, pf) == Identity && Mul(pf, pt) == Identity && Mul(e2, e1) == Identity
    ensures Mul(Mul(Mul(pf, e2), pt), Mul(Mul(Mul(pf, e1), pt), d)) == d
  {
    var y := Mul(e1, Mul(pt, d));
    Reassociate(pf, e1, pt, d);
    Reassociate(pf, e2, pt, Mul(pf, y));
    MulAssoc(pt, pf, y);
    MulIdentity(y);
    MulAssoc(e2, e1, Mul(pt, d));
    MulIdentity(Mul(pt, d));
    MulAssoc(pf, pt, d);
    MulIdentity(d);
  }

  lemma UndoPair(pf: Mat4, pt: Mat4, u1: Mat4, u2: Mat4, m: Mat4)
    requires Mul(pt, pf) == Identity && Mul(pf, pt) == Identity && Mul(u1, u2) == Identity
    ensures Mul(Mul(Mul(Mul(Mul(Mul(m, pf), u1), pt), pf), u2), pt) == m
  {
    var a := Mul(pf, Mul(u1, pt));
    var b := Mul(pf, Mul(u2, pt));
    Reassociate(m, pf, u1, pt);
    Reassociate(Mul(m, a), pf, u2, pt);
    MulAssoc(m, a, b);
    // a * b == pf * (u1 * (pt * b)) == pf * (u1 * (u2 * pt)) == pf * pt == Identity
    MulAssoc(pf, Mul(u1, pt), b);
    MulAssoc(u1, pt, b);
    MulAssoc(pt, pf, Mul(u2, pt));
    MulIdentity(Mul(u2, pt));
    MulAssoc(u1, u2, pt);
    MulIdentity(pt);
    MulIdentity(m);
  }

  /** scale(a, b) followed by scale(1/a, 1/b) restores the context. */
  lemma ScaleThenInverse(vc: ViewContext, a: real, b: real)
    requires PivotsInverse(vc) && a != 0.0 && b != 0.0
    ensures Scale(Scale(vc, a, b), 1.0 / a, 1.0 / b) == vc
  {
    Reciprocal(a);
    Reciprocal(b);
    ScaleUndo(a, b);
    EditPairCancels(vc, ScaleMatrix(a, b), ScaleMatrix(1.0 / a, 1.0 / b),
                    ScaleMatrix(1.0 / a, 1.0 / b), ScaleMatrix(a, b));
  }

  /** rotate(deg) followed by rotate(-deg) restores the context. */
  lemma RotateThenInverse(vc: ViewContext, deg: real, t: Trig)
    requires Lawful(t) && PivotsInverse(vc)
    ensures Rotate(Rotate(vc, deg, t), -deg, t) == vc
  {
    var theta := Radians(deg);
    RadiansAdd(deg, 0.0);
    RotateUndo(theta, t);
    EditPairCancels(vc, RotateMatrix(t.cos(theta), t.sin(theta)),
                    RotateMatrix(t.cos(-theta), t.sin(-theta)),
                    RotateMatrix(t.cos(-theta), t.sin(-theta)),
                    RotateMatrix(t.cos(theta), t.sin(theta)));
  }

  /** translate(x, y) followed by translate(-x, -y) restores the context. */
  lemma TranslateThenInverse(vc: ViewContext, x: int, y: int)
    requires PivotsInverse(vc)
    ensures Translate(Translate(vc, x, y), -x, -y) == vc
  {
    var dx := x as real;
    var dy := y as real;
    NegateInt(x);
    NegateInt(y);
    TranslationUndo(dx, dy);
    EditPairCancels(vc, Translation(dx, dy), Translation(-dx, -dy),
                    Translation(-dx, -dy), Translation(dx, dy));
  }
}
