/** Fixed-size real matrices standing in for the repository's dense `matrix` class:
    4x1 homogeneous columns, 4x4 transforms (stored by rows) and the 4x3 vertex batch
    (three homogeneous columns, one per vertex). */
module Matrices {

  datatype Vec4 = Vec4(x: real, y: real, z: real, w: real)

  /** A 4x4 matrix given by its rows r0..r3; row k holds the entries [k][0..3]. */
  datatype Mat4 = Mat4(r0: Vec4, r1: Vec4, r2: Vec4, r3: Vec4)

  /** A 4x3 matrix whose columns c0, c1, c2 are the vertices of one shape. */
  datatype Batch = Batch(c0: Vec4, c1: Vec4, c2: Vec4)

  const Zero4: Vec4 := Vec4(0.0, 0.0, 0.0, 0.0)
  const E0: Vec4 := Vec4(1.0, 0.0, 0.0, 0.0)
  const E1: Vec4 := Vec4(0.0, 1.0, 0.0, 0.0)
  const E2: Vec4 := Vec4(0.0, 0.0, 1.0, 0.0)
  const E3: Vec4 := Vec4(0.0, 0.0, 0.0, 1.0)

  /** The zero-filled matrix a freshly constructed 4x4 `matrix` holds. */
  const Zero: Mat4 := Mat4(Zero4, Zero4, Zero4, Zero4)
  const Identity: Mat4 := Mat4(E0, E1, E2, E3)

  function Dot4(a: Vec4, b: Vec4): real {
    a.x * b.x + a.y * b.y + a.z * b.z + a.w * b.w
  }

  /** Matrix times column vector. */
  function Apply(m: Mat4, v: Vec4): Vec4 {
    Vec4(Dot4(m.r0, v), Dot4(m.r1, v), Dot4(m.r2, v), Dot4(m.r3, v))
  }

  /** Row vector times matrix: entry j is the row's dot product with column j of `b`. */
  function RowTimes(u: Vec4, b: Mat4): Vec4 {
    Vec4(u.x * b.r0.x + u.y * b.r1.x + u.z * b.r2.x + u.w * b.r3.x,
         u.x * b.r0.y + u.y * b.r1.y + u.z * b.r2.y + u.w * b.r3.y,
         u.x * b.r0.z + u.y * b.r1.z + u.z * b.r2.z + u.w * b.r3.z,
         u.x * b.r0.w + u.y * b.r1.w + u.z * b.r2.w + u.w * b.r3.w)
  }

  /** Matrix product `a * b`: row k of the product is row k of `a` times `b`. */
  function Mul(a: Mat4, b: Mat4): Mat4 {
    Mat4(RowTimes(a.r0, b), RowTimes(a.r1, b), RowTimes(a.r2, b), RowTimes(a.r3, b))
  }

  /** The 4x4 by 4x3 product: every vertex column is transformed by `m`. */
  function Transform(m: Mat4, v: Batch): Batch {
    Batch(Apply(m, v.c0), Apply(m, v.c1), Apply(m, v.c2))
  }

  /** The homogeneous translation by (dx, dy) in the x/y plane. */
  function Translation(dx: real, dy: real): Mat4 {
    Mat4(Vec4(1.0, 0.0, 0.0, dx), Vec4(0.0, 1.0, 0.0, dy), E2, E3)
  }

  /** The bilinear identity behind moving a row vector across a matrix, over the entries. */
  lemma Bilinear(ux: real, uy: real, uz: real, uw: real, vx: real, vy: real, vz: real, vw: real,
                    b0x: real, b0y: real, b0z: real, b0w: real,
                    b1x: real, b1y: real, b1z: real, b1w: real,
                    b2x: real, b2y: real, b2z: real, b2w: real,
                    b3x: real, b3y: real, b3z: real, b3w: real)
    ensures (ux * b0x + uy * b1x + uz * b2x + uw * b3x) * vx
         + (ux * b0y + uy * b1y + uz * b2y + uw * b3y) * vy
         + (ux * b0z + uy * b1z + uz * b2z + uw * b3z) * vz
         + (ux * b0w + uy * b1w + uz * b2w + uw * b3w) * vw
         == ux * (b0x * vx + b0y * vy + b0z * vz + b0w * vw)
         + uy * (b1x * vx + b1y * vy + b1z * vz + b1w * vw)
         + uz * (b2x * vx + b2y * vy + b2z * vz + b2w * vw)
         + uw * (b3x * vx + b3y * vy + b3z * vz + b3w * vw)
  {
  }

  /** Moving a row vector across a matrix: (u * b) . v == u . (b v). */
  lemma RowTimesDot(u: Vec4, b: Mat4, v: Vec4)
    ensures Dot4(RowTimes(u, b), v) == Dot4(u, Apply(b, v))
  {
    Bilinear(u.x, u.y, u.z, u.w, v.x, v.y, v.z, v.w,
      b.r0.x, b.r0.y, b.r0.z, b.r0.w,
      b.r1.x, b.r1.y, b.r1.z, b.r1.w,
      b.r2.x, b.r2.y, b.r2.z, b.r2.w,
      b.r3.x, b.r3.y, b.r3.z, b.r3.w);
  }

  /** The product acts on a column as the two factors one after the other. */
  lemma ApplyMul(a: Mat4, b: Mat4, v: Vec4)
    ensures Apply(Mul(a, b), v) == Apply(a, Apply(b, v))
  {
    RowTimesDot(a.r0, b, v);
    RowTimesDot(a.r1, b, v);
    RowTimesDot(a.r2, b, v);
    RowTimesDot(a.r3, b, v);
  }

  lemma TransformMul(a: Mat4, b: Mat4, v: Batch)
    ensures Transform(Mul(a, b), v) == Transform(a, Transform(b, v))
  {
    ApplyMul(a, b, v.c0);
    ApplyMul(a, b, v.c1);
    ApplyMul(a, b, v.c2);
  }

  /** Two matrices that agree on the four unit columns are equal. */
  lemma Extensional(a: Mat4, b: Mat4)
    requires Apply(a, E0) == Apply(b, E0) && Apply(a, E1) == Apply(b, E1)
    requires Apply(a, E2) == Apply(b, E2) && Apply(a, E3) == Apply(b, E3)
    ensures a == b
  {
  }

  lemma MulAssoc(a: Mat4, b: Mat4, c: Mat4)
    ensures Mul(Mul(a, b), c) == Mul(a, Mul(b, c))
  {
    forall e | e in [E0, E1, E2, E3]
      ensures Apply(Mul(Mul(a, b), c), e) == Apply(Mul(a, Mul(b, c)), e)
    {
      ApplyMul(Mul(a, b), c, e);
      ApplyMul(a, b, Apply(c, e));
      ApplyMul(a, Mul(b, c), e);
      ApplyMul(b, c, e);
    }
    assert E0 in [E0, E1, E2, E3] && E1 in [E0, E1, E2, E3];
    assert E2 in [E0, E1, E2, E3] && E3 in [E0, E1, E2, E3];
    Extensional(Mul(Mul(a, b), c), Mul(a, Mul(b, c)));
  }

  lemma MulIdentity(a: Mat4)
    ensures Mul(Identity, a) == a && Mul(a, Identity) == a
  {
  }

  lemma ApplyIdentity(v: Vec4)
    ensures Apply(Identity, v) == v
  {
  }

  /** The last row and the last column are those of the identity: the matrix acts on
      points and leaves the homogeneous coordinate alone. */
  predicate Affine(m: Mat4) {
    m.r3 == E3 && m.r0.w == 0.0 && m.r1.w == 0.0 && m.r2.w == 0.0
  }

  lemma AffineMul(a: Mat4, b: Mat4)
    requires Affine(a) && Affine(b)
    ensures Affine(Mul(a, b))
  {
  }

  /** Translations compose by adding their offsets. */
  lemma TranslationsCompose(a: real, b: real, c: real, d: real)
    ensures Mul(Translation(a, b), Translation(c, d)) == Translation(a + c, b + d)
  {
  }

  /** Pivoting a translation about any centre leaves the translation itself. */
  lemma TranslationConjugate(cx: real, cy: real, x: real, y: real)
    ensures Mul(Mul(Translation(cx, cy), Translation(x, y)), Translation(-cx, -cy))
              == Translation(x, y)
  {
    TranslationsCompose(cx, cy, x, y);
    TranslationsCompose(cx + x, cy + y, -cx, -cy);
    assert Translation(cx + x + -cx, cy + y + -cy) == Translation(x, y);
  }

  /** A translation is undone by the opposite translation, in either order. */
  lemma TranslationUndo(a: real, b: real)
    ensures Mul(Translation(-a, -b), Translation(a, b)) == Identity
    ensures Mul(Translation(a, b), Translation(-a, -b)) == Identity
  {
    var m := Mul(Translation(-a, -b), Translation(a, b));
    assert m.r0 == E0;
    assert m.r1 == E1;
    assert m.r2 == E2 && m.r3 == E3;
    var n := Mul(Translation(a, b), Translation(-a, -b));
    assert n.r0 == E0;
    assert n.r1 == E1;
    assert n.r2 == E2 && n.r3 == E3;
  }
}
