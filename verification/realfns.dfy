/** The transcendental functions the pipeline calls (std::sin, std::cos, std::sqrt).
    They are not computed here: a context's operations receive them as a `Trig`
    record, and `Lawful` states the identities of the real functions that the
    proofs rely on. */
module RealFns {

  datatype Trig = Trig(sin: real -> real, cos: real -> real, sqrt: real -> real)

  /** The identities of real sine, cosine and square root that the model uses. */
  ghost predicate Lawful(t: Trig) {
    && (forall a :: t.cos(a) * t.cos(a) + t.sin(a) * t.sin(a) == 1.0)
    && (forall a, b :: a + b == 0.0 ==> t.cos(a) == t.cos(b))
    && (forall a, b :: a + b == 0.0 ==> t.sin(a) == -t.sin(b))
    && t.cos(0.0) == 1.0
    && (forall a :: 0.0 <= a ==> 0.0 <= t.sqrt(a) && t.sqrt(a) * t.sqrt(a) == a)
    && (forall a :: 0.0 < a ==> 0.0 < t.sqrt(a))
  }

  /** The source's PI macro (not the real number pi). */
  const PI: real := 3.14159265359

  /** Degrees to radians as the source converts them: `degrees * (PI/180.0)`. */
  function Radians(degrees: real): real {
    degrees * (PI / 180.0)
  }

  /** Converting a sum of angles converts each summand. */
  lemma RadiansAdd(a: real, b: real)
    ensures Radians(a + b) == Radians(a) + Radians(b)
    ensures Radians(-a) == -Radians(a) && -Radians(-a) == Radians(a) && Radians(0.0) == 0.0
  {
  }

  /** Negating an integer commutes with its conversion to a double. */
  lemma NegateInt(x: int)
    ensures (-x) as real == -(x as real) && -((-x) as real) == x as real
  {
  }

  /** Taking reciprocals twice gives back a non-zero number. */
  lemma Reciprocal(a: real)
    requires a != 0.0
    ensures 1.0 / (1.0 / a) == a
  {
  }

  /** std::abs on a double. */
  function Abs(a: real): (r: real)
    ensures 0.0 <= r && (r == a || r == -a)
  {
    if a < 0.0 then -a else a
  }

  /** Cancelling a non-zero factor. */
  lemma Cancel(k: real, p: real, q: real)
    requires k != 0.0 && k * p == k * q
    ensures p == q
  {
    assert k * (p - q) == 0.0;
  }

  /** A product with a non-zero factor is zero only when the other factor is. */
  lemma ZeroProduct(p: real, k: real)
    requires k != 0.0 && p * k == 0.0
    ensures p == 0.0
  {
    Cancel(k, p, 0.0);
  }

  /** Dividing by a non-zero number and multiplying back. */
  lemma DivCancel(n: real, x: real)
    requires n != 0.0
    ensures n * (x / n) == x && (x / n) * n == x
  {
  }

  /** Sine and cosine at zero. */
  lemma SinZero(t: Trig)
    requires Lawful(t)
    ensures t.sin(0.0) == 0.0 && t.cos(0.0) == 1.0
  {
    assert t.sin(0.0) == -t.sin(0.0);
  }

  /** Opposite angles: the parity identities at one angle. */
  lemma Negate(t: Trig, a: real)
    requires Lawful(t)
    ensures t.cos(-a) == t.cos(a) && t.sin(-a) == -t.sin(a)
  {
    assert a + -a == 0.0;
  }
}
