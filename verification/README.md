# ViewContext: the view and transform pipeline of a 3D wireframe renderer

This project models `ViewContext`, the object that turns the model coordinates of a
shape's vertices into screen (device) coordinates. It holds:

- **Camera state:** the eye point `p0` and the field-of-view scalar `zf`.
- **Orbit state:** two accumulated orbit angles `hdeg` and `vdeg` and the matrices
  `hOrbitMatrix` and `vOrbitMatrix` built from them.
- **Basis:** an eye-aligned `changeBasisMatrix`.
- **Screen edits:** a pair of pivot translations to and from the screen centre
  (`translateToOrigin`, `translateFromOrigin`), and the forward and undo edit matrices
  (`toDeviceCoordinates`, `toModelCoordinates`).

`modelToDevice` applies, in order:
1. the horizontal orbit;
2. the vertical orbit;
3. the change of basis;
4. the perspective divide `x, y := zf*x/(|z|+zf), zf*y/(|z|+zf)`;
5. the accumulated screen edits.

The mutators are `scale`, `rotate`, `translate`, `hOrbit`, `vOrbit`, `adjustFOV` and
`reset`.

The model is functional. A context is an immutable `ViewContext` record of real-valued
4x4 matrices (`Mat4`, stored by rows). A vertex batch is a `Batch` of three homogeneous
columns, and 3x1 vectors are `Vec3`. Each operation is a pure function returning the new
context. The C++ products are written with the same left-to-right association as the
source, and they are regrouped only inside proofs.

`sin`, `cos` and `sqrt` are passed in as a `Trig` record. The predicate `Lawful` states
the identities the proofs use:
- cos² + sin² = 1;
- cos is even and sin is odd;
- cos 0 = 1;
- sqrt is the non-negative square root, and it is positive on positive numbers.

The modules follow the source:

| module | what it holds |
|---|---|
| `RealFns` | the `Trig` record, the `PI` macro and the degree conversion |
| `Vectors` | the 3x1 helpers |
| `Matrices` | the matrix algebra |
| `Basis` | `transformBasis` |
| `View` | the state and one function per `ViewContext` method |
| `Edits` | properties of the screen edits |
| `Orbits` | properties of the two orbits |
| `Sessions` | arbitrary sequences of calls, as the drawing front end makes them |

What the code keeps, and what it does not:

- **The undo relation.** Every edit multiplies the forward matrix on the left by
  `P_from·E·P_to` and the undo matrix on the right by `P_from·E⁻¹·P_to`, so the product
  `toModelCoordinates · toDeviceCoordinates` never changes. The constructor and `reset`
  apply the centring translation to the forward matrix only. So the relation the code
  keeps is `toModelCoordinates · toDeviceCoordinates == translateFromOrigin`, not that
  the undo matrix inverts the forward matrix. The model states the relation the code
  keeps (`View.UndoInvariant`).
- **deviceToModel** reads `changeBasisMatrix` alone. It does not undo the screen edits,
  the orbits or the projection, although its documentation says it undoes the
  transformations.
- **vOrbit.** `rotateFromZ` is not the inverse of `rotateToZ`. The inverse would have
  `ax/r` at [0][2], `-ax/r` at [2][0] and `az/r` at [2][2]. `rotateFromZ` agrees at
  [0][2] but has `ax/r` at [2][0] and `-az/r` at [2][2]: its whole row 2 is negated,
  which makes it a reflection. The model reproduces the entries literally and proves the consequence. For
  every angle, the vOrbit matrix sends the horizontal direction `(p0.z, 0, p0.x)` to its
  negation. It is therefore never the identity, not even at angle 0. A new context's
  identity `vOrbitMatrix` is thus not the vOrbit matrix for its stored angle 0.
- **Reset and the orbit angles.** `reset` clears the orbit matrices but not the stored
  angles. The next orbit call rebuilds its matrix from the whole accumulated angle.
- **No input checks.** The source checks none of its inputs. A zero scale factor, an eye
  on the vertical axis and a vanishing perspective denominator all go through unchecked.
  The model turns the divisions they would break into preconditions (see "Left out").

## Model

| member | source | states |
|---|---|---|
| RealFns.RadiansAdd | src/ViewContext.cpp:185-186 | converting degrees with the source's `PI/180` factor turns a sum of arguments into the sum of the converted angles, commutes with negation and sends 0 to 0 |
| Vectors.DotLaws | src/ViewContext.cpp:465-468 | `dot` is symmetric and linear in each argument |
| Vectors.Cross | src/ViewContext.cpp:415-423 | the result of `crossProduct3X1` is orthogonal to both operands |
| Vectors.CrossAnticommutes | src/ViewContext.cpp:415-423 | swapping the operands of the cross product negates it |
| Vectors.CrossLagrange | src/ViewContext.cpp:415-423 | the squared length of a x b is abs(a)^2 abs(b)^2 - (a.b)^2 |
| Vectors.Magnitude | src/ViewContext.cpp:433-435 | `magnitude` is non-negative, squares to the sum of squared entries, and is positive for a non-zero vector |
| Vectors.Normalize | src/ViewContext.cpp:445-454 | `normalize` returns the input scaled by the positive factor 1/magnitude; the result has unit length, and scaling it by the magnitude gives back the input |
| Vectors.ScaledOrthogonal | src/ViewContext.cpp:313-315 | normalising orthogonal vectors keeps them orthogonal |
| Matrices.ApplyMul | src/ViewContext.cpp:87-89 | applying a product to a column is applying the factors one after the other |
| Matrices.TransformMul | src/ViewContext.cpp:87-93 | the same for a 4x3 vertex batch: the chain of products in modelToDevice acts as one matrix |
| Matrices.MulAssoc | src/ViewContext.cpp:137-138 | the left-to-right chained products may be regrouped |
| Matrices.MulIdentity | src/ViewContext.cpp:374-378 | the diagonal matrix resetTransformMatricies writes is a two-sided unit of the product |
| Matrices.Extensional | src/ViewContext.cpp:87-89 | two matrices acting alike on the four unit columns are equal |
| Matrices.AffineMul | src/ViewContext.cpp:244 | a product of matrices whose last row and column are the identity's has that shape too |
| Matrices.TranslationsCompose | src/ViewContext.cpp:263-264 | the product of the translations by (a, b) and (c, d) is the translation by (a + c, b + d) |
| Matrices.TranslationUndo | src/ViewContext.cpp:263-267 | translate's matrix and its undo matrix are inverse in both orders |
| Matrices.TranslationConjugate | src/ViewContext.cpp:269 | a translation pivoted about any centre is the unpivoted translation |
| Basis.EyeFrame | src/ViewContext.cpp:306-315 | the frame l, m, n from transformBasis is orthonormal; l is horizontal; l and m are orthogonal to the eye point, and n measures the eye's distance |
| Basis.Ground | src/ViewContext.cpp:210-213 | no contract: `yToPo`, the eye point with its y entry set to 0 |
| Basis.ChangeBasis | src/ViewContext.cpp:317-335 | the first three entries of rows 0, 1 and 2 of changeBasisMatrix (l, m and n) are unit vectors at right angles to each other; the matrix has last row (0,0,0,1), sends the eye point to the origin and sends the world origin to (0, 0, -distance of the eye) |
| Basis.BasisRowFacts | src/ViewContext.cpp:317-330 | each basis row, with translation entry -(row . p0), vanishes on the eye point and gives -(row . p0) on the origin |
| Basis.BasisRow | src/ViewContext.cpp:317-330 | no contract: a frame vector followed by the translation entry -1 * (u . p0), as each of rows 0, 1 and 2 is written |
| View.Allocate | src/ViewContext.cpp:24-32 | the new state holds the given eye and FOV and zero orbit angles |
| View.ResetTransformMatrices | src/ViewContext.cpp:367-379 | the forward, undo and both orbit matrices become the identity and every other field is kept |
| View.TransformBasis | src/ViewContext.cpp:306-336 | only changeBasisMatrix is written; its rows l, m, n are orthonormal, its last row is (0,0,0,1), and it sends the eye point to the origin |
| View.OriginToCenter | src/ViewContext.cpp:391-403 | the pivots get offsets -(x, y) and +(x, y) and ones on their diagonals, the forward matrix gets translateFromOrigin in front, and no field other than the two pivots and the forward matrix changes |
| View.OriginToCenterOnZero | src/ViewContext.cpp:391-400 | on zero-filled pivots, originToCenter leaves exactly the translations to and from the centre, and they are inverse in both orders |
| View.Create | src/ViewContext.cpp:24-38 | a new context holds the eye, the FOV and zero angles; the pivots are at the centre and inverse; the undo and orbit matrices are the identity; the forward matrix is the centring translation; the basis is the eye's; the undo relation holds |
| View.ProjectColumn | src/ViewContext.cpp:105-111 | the perspective divide keeps z and w, and makes x and y, times abs(z) + zf, equal to zf times the old x and y |
| RealFns.Abs | src/ViewContext.cpp:108 | the absolute value `std::abs` takes in the perspective divide is non-negative and is the argument or its negation |
| View.Project | src/ViewContext.cpp:105-111 | project keeps rows 2 and 3 of each of the three columns, and in each column makes x and y, times abs(z) + zf, equal to zf times the old x and y |
| View.EyeCoordinates | src/ViewContext.cpp:87-89 | the three successive products act as the single matrix B * V * H |
| View.ModelToDevice | src/ViewContext.cpp:84-94 | modelToDevice returns F * project(B * V * H * v), where F is the forward edit matrix |
| View.DeviceToModel | src/ViewContext.cpp:67-73 | deviceToModel returns changeBasisMatrix applied to each column |
| View.Edit | inc/ViewContext.h:71-104 | an edit changes only the forward and undo matrices |
| View.EditKeepsUndoProduct | src/ViewContext.cpp:137-138 | when the pivots are inverse and the undo matrix inverts the edit, the edit keeps the product of the undo and forward matrices |
| View.EditKeepsProduct | src/ViewContext.cpp:136-137 | (P_f E P_t D) and (M P_f U P_t) multiply to M D when U inverts E and the pivots are inverse |
| View.ScaleMatrix | src/ViewContext.cpp:127-135 | no contract: the entries as the source writes them (a and b on the diagonal of the first two rows) |
| View.RotateMatrix | src/ViewContext.cpp:156-168 | no contract: the entries as the source writes them (cos and -1 * sin in row 0, sin and cos in row 1); vOrbit's rotation about z at lines 238-241 uses the same matrix |
| View.HOrbitRotation | src/ViewContext.cpp:183-191 | no contract: the entries as the source writes them (a rotation about y by hdeg) |
| View.RotateToZ | src/ViewContext.cpp:222-226 | no contract: the entries as the source writes them |
| View.RotateFromZ | src/ViewContext.cpp:229-233 | no contract: the entries as the source writes them, including the -1 on the last diagonal entry |
| RealFns.Radians | src/ViewContext.cpp:154 | no contract: degrees times PI / 180, as at lines 154, 185 and 207 |
| Vectors.Dot | src/ViewContext.cpp:465-468 | no contract: the sum of the three products, as the source writes it |
| Matrices.Translation | src/ViewContext.cpp:260-267 | no contract: the identity with the offsets in column 3 of rows 0 and 1, as at lines 260-267 and 392-399 |
| Matrices.Mul | src/ViewContext.cpp:137-138 | no contract: the row-by-column 4x4 product of `matrix::operator*`, used at lines 137-138, 170-171, 244, 269-270, 283 and 402 |
| Matrices.Transform | src/ViewContext.cpp:87-91 | no contract: the 4x4 by 4x3 product of `matrix::operator*` on a batch of three vertices, as at lines 70 and 87-91 |
| View.Reassociate | src/ViewContext.cpp:170 | a four-factor left-to-right product equals its right-grouped form |
| View.Scale | src/ViewContext.cpp:123-139 | scale changes only the forward and undo matrices and keeps their product |
| View.ScaleUndo | src/ViewContext.cpp:127-135 | the scale matrix and its undo matrix are inverse in both orders |
| View.Rotate | src/ViewContext.cpp:150-172 | rotate changes only the forward and undo matrices and keeps their product |
| View.RotateUndo | src/ViewContext.cpp:154-168 | the rotation matrices for theta and -theta are inverse in both orders |
| View.RotationPair | src/ViewContext.cpp:156-168 | the rotations for (c, s) and (c, -s) are inverse when c^2 + s^2 = 1 |
| View.Translate | src/ViewContext.cpp:259-271 | translate changes only the forward and undo matrices and keeps their product |
| View.Reset | src/ViewContext.cpp:281-284 | reset makes the forward matrix translateFromOrigin and the undo and orbit matrices the identity; it keeps the angles, zf, the eye, the basis and the pivots; afterwards the undo relation holds |
| View.AdjustFOV | src/ViewContext.cpp:294-296 | adjustFOV adds its argument to zf and changes nothing else |
| View.HOrbit | src/ViewContext.cpp:182-194 | hOrbit adds the converted argument to hdeg and rebuilds the orbit matrix from the new hdeg alone; nothing else changes |
| View.OrbitAxis | src/ViewContext.cpp:210-219 | vOrbit's axis is horizontal and orthogonal to the ground-projected eye, with the same length |
| View.AxisLength | src/ViewContext.cpp:223 | the divisor sqrt(ax^2 + az^2) is positive and squares to the squared length of the ground-projected eye |
| View.Pow2 | src/ViewContext.cpp:223 | no contract: `std::pow(x, 2)` as x * x, as at lines 223-233 |
| View.VOrbitRotation | src/ViewContext.cpp:222-244 | the vOrbit matrix has the identity's last row and column |
| View.VOrbit | src/ViewContext.cpp:204-247 | vOrbit adds the converted argument to vdeg and rebuilds the matrix from p0 and the new vdeg alone; nothing else changes |
| Edits.EditActsInDeviceSpace | src/ViewContext.cpp:136 | after an edit, the picture is the old picture transformed by the pivoted edit matrix |
| Edits.ScaleAboutCentre | src/ViewContext.cpp:127-136 | the pivoted scale scales a point's offset from the centre by a across and b down |
| Edits.RotateAboutCentre | src/ViewContext.cpp:156-170 | the pivoted rotation turns a point's offset from the centre |
| Edits.ScaleInDeviceSpace | src/ViewContext.cpp:123-139 | scale(a, b) scales the drawn picture about the screen centre |
| Edits.RotateInDeviceSpace | src/ViewContext.cpp:150-172 | rotate(deg) turns the drawn picture about the screen centre |
| Edits.TranslateInDeviceSpace | src/ViewContext.cpp:259-271 | translate(x, y) shifts the drawn picture by (x, y), whatever the centre |
| Edits.EditPairCancels | src/ViewContext.cpp:136-137 | two edits whose matrices are inverse cancel; the context comes back exactly |
| Edits.ScaleThenInverse | src/ViewContext.cpp:123-139 | scale(a, b) followed by scale(1/a, 1/b) restores the context |
| Edits.RotateThenInverse | src/ViewContext.cpp:150-172 | rotate(deg) followed by rotate(-deg) restores the context |
| Edits.TranslateThenInverse | src/ViewContext.cpp:259-271 | translate(x, y) followed by translate(-x, -y) restores the context |
| Orbits.HOrbitRotationShape | src/ViewContext.cpp:188-191 | the hOrbit matrix is the y-axis rotation for cos and sin of the angle |
| Orbits.YRotationPair | src/ViewContext.cpp:188-191 | the y-axis rotations for (c, s) and (c, -s) are inverse when c^2 + s^2 = 1 |
| Orbits.HOrbitRotationInverse | src/ViewContext.cpp:188-191 | the hOrbit matrices for h and -h are inverse in both orders |
| Orbits.HOrbitRotationAtZero | src/ViewContext.cpp:188-191 | the hOrbit matrix for angle 0 is the identity |
| Orbits.HOrbitRotationKeepsRadius | src/ViewContext.cpp:188-191 | the hOrbit matrix keeps a column's height, its homogeneous entry and its squared distance from the y axis |
| Orbits.HOrbitAccumulates | inc/ViewContext.h:137-145 | hOrbit(a) then hOrbit(b) gives the same state as hOrbit(a + b) |
| Orbits.HOrbitThenInverse | src/ViewContext.cpp:182-194 | hOrbit(a) then hOrbit(-a) restores hdeg, and the matrix is rebuilt for it |
| Orbits.AxisRatios | src/ViewContext.cpp:223-226 | the axis entries divided by the axis length have squares summing to 1, and `-1 * a / r` is the negated ratio |
| Orbits.RotateZShapes | src/ViewContext.cpp:222-233 | rotateToZ and rotateFromZ, entry by entry, in terms of the two unit axis ratios |
| Orbits.ShapeReverses | src/ViewContext.cpp:222-244 | for any rotation about z, toZ * rotateZ * fromZ and toZ * fromZ send (-r ta, 0, r tb) to its negation |
| Orbits.VOrbitRotationReverses | src/ViewContext.cpp:229-244 | for every angle, the vOrbit matrix sends (p0.z, 0, p0.x, 0) to its negation |
| Orbits.VOrbitRotationNeverIdentity | src/ViewContext.cpp:229-246 | the vOrbit matrix is not the identity for any angle |
| Orbits.RotateFromZNotInverse | src/ViewContext.cpp:229-233 | rotateToZ * rotateFromZ reverses (p0.z, 0, p0.x, 0), so it is not the identity |
| Orbits.VOrbitAccumulates | inc/ViewContext.h:147-155 | vOrbit(a) then vOrbit(b) gives the same state as vOrbit(a + b) |
| Sessions.Step | inc/ViewContext.h:71-155 | no mutator writes the eye, the basis or the pivots, and each keeps the undo relation when the pivots are inverse |
| Sessions.Run | inc/ViewContext.h:71-155 | no sequence of calls writes the eye, the basis or the pivots |
| Sessions.RunKeepsUndoInvariant | src/ViewContext.cpp:136-137 | every sequence of calls keeps the pivots inverse and keeps toModel * toDevice == translateFromOrigin |
| Sessions.StepAccumulates | inc/ViewContext.h:127-155 | one call adds its converted orbit argument to its angle and its FOV argument to zf |
| Sessions.RunAccumulates | inc/ViewContext.h:137-155 | after any sequence, each stored angle is the start angle plus the converted sum of all its orbit arguments, and zf is the start FOV plus all adjustFOV arguments; resets included |
| Sessions.RunKeepsOrbitsConsistent | src/ViewContext.cpp:182-247 | after any sequence, each orbit matrix is the identity or the rotation for its stored angle |
| Sessions.DeviceToModelIgnoresRun | src/ViewContext.cpp:67-73 | no call changes what deviceToModel returns |
| Sessions.CreateIsFresh | src/ViewContext.cpp:24-38 | a new context is fresh for its centre: no edit, no orbit, zero angles, centred pivots, basis from the eye, undo relation holding |
| Sessions.CentredRun | src/ViewContext.cpp:402 | after any sequence of calls on a new context, the undo product is the centring translation |
| Sessions.ResetMatchesFresh | inc/ViewContext.h:106-114 | reset after any sequence gives the new context back, except zf and the two angles, which keep their accumulated values |
| Sessions.ResetDrawsUnorbited | src/ViewContext.cpp:281-284 | after reset, modelToDevice is the change of basis, then projection at the current FOV, then the centring translation |
| Sessions.FreshOrbitsAtZero | src/ViewContext.cpp:24-26 | a new context's horizontal orbit matrix is the rotation for its angle 0, but its vertical one is not |
| Sessions.ResetKeepsOrbitAngle | src/ViewContext.cpp:281-284 | reset clears the orbit matrix but keeps hdeg, so the next hOrbit(d) rebuilds for hdeg + d, not for d |
| Sessions.OriginMapsToCentre | src/ViewContext.cpp:84-94 | a new context draws the world origin at the screen centre, at depth minus the eye's distance |
| Sessions.EyeMapsToCentre | src/ViewContext.cpp:84-94 | a new context draws the eye point at the screen centre, at depth 0 |
| Sessions.ScreenOf | src/ViewContext.cpp:105-111 | a column whose eye coordinates lie on the view axis projects to x = y = 0 and is drawn at the centre with its depth kept |

## Left out

- src/MyDrawing.cpp and src/main.cpp are not part of this model. They hold the X11 event loop, the key bindings, file loading and window setup. They only call the mutators, and `Sessions.Run` stands for any sequence of such calls.
- The `matrix` class is not part of this model: its heap storage, copying, `clear`, and the dimension error on mismatched products. It is replaced by the fixed-size `Vec4`/`Mat4`/`Batch`/`Vec3` values, so a shape mismatch cannot arise.
- `new`/`delete`, the destructor, aliasing of the heap-allocated matrices and in-place mutation are left out. Every operation returns a new value. `project` mutates its argument in the source and returns the projected batch here.
- Floating-point rounding is left out. Numbers are exact reals.
- The concrete `std::sin`, `std::cos`, `std::sqrt` and `std::pow` are not modelled. They are the `Trig` parameter, constrained only by `Lawful`. `pow(x, 2)` is `x * x`.
- The `PI` macro is kept as the decimal 3.14159265359. Nothing depends on it being the real pi, and no periodicity of the orbits is claimed.
- The unused fields `pref`, `mi` and `li` are dropped.
- View.Scale: requires both factors non-zero. The source divides by them unchecked and, in floating point, would store infinities.
- View.VOrbit: requires the eye off the vertical axis. The source divides by the axis length unchecked.
- View.Create: requires the eye off the vertical axis, because `transformBasis` normalises `y x p0`, which is zero for an eye on that axis. The source divides by its length unchecked.
- View.Translate: takes the offsets as unbounded integers. The source negates its `int` arguments in `int` (src/ViewContext.cpp:266-267), which overflows for INT_MIN. Matrices.TranslationUndo, Edits.TranslateThenInverse and Sessions.RunKeepsUndoInvariant hold for the unbounded offsets. They do not cover the source's behaviour for a translation by INT_MIN, which is signed overflow in C++.
- View.ProjectColumn: requires abs(z) + zf non-zero for every column. The source divides unchecked. `adjustFOV` may drive zf to any value, as in the source.
- View.Project: inherits the same non-zero-denominator requirement, for each of the three columns.
- View.ModelToDevice: inherits the same requirement, on the eye coordinates of the three vertices.
- View.Edit: takes the edit and undo matrices as given. Scale, Rotate and Translate supply the source's matrices.
