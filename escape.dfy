/** Escape-time iteration of the Julia map z <- z^2 + c. */
module Escape {

  /** A point of the complex plane, used as the reference for `F`. */
  datatype Complex = Complex(re: real, im: real)

  function Add(z: Complex, w: Complex): Complex
  {
    Complex(z.re + w.re, z.im + w.im)
  }

  function Mul(z: Complex, w: Complex): Complex
  {
    Complex(z.re * w.re - z.im * w.im, z.re * w.im + z.im * w.re)
  }

  /** The escape threshold on the squared modulus. */
  const EscapeRadiusSq: real := 100.0

  /** One step of the iteration on the components of z and c: the result is
      the complex square of z plus c. */
  function F(za: real, zb: real, ca: real, cb: real): (res: (real, real))
    ensures var w := Add(Mul(Complex(za, zb), Complex(za, zb)), Complex(ca, cb));
      res == (w.re, w.im)
  {
    var zaa := za * za;
    var zbb := zb * zb;
    var w := Add(Mul(Complex(za, zb), Complex(za, zb)), Complex(ca, cb));
    assert w.re == zaa - zbb + ca;
    assert w.im == 2.0 * za * zb + cb by {
      assert 2.0 * za * zb == za * zb + zb * za;
    }
    (zaa - zbb + ca, 2.0 * za * zb + cb)
  }

  /** The point reached from z0 after n steps, each step applied to the
      previous point.  A fixed point of the step is its own orbit. */
  function Orbit(z0: (real, real), c: (real, real), n: nat): (z: (real, real))
    ensures F(z0.0, z0.1, c.0, c.1) == z0 ==> z == z0
  {
    if n == 0 then z0
    else
      var z := Orbit(z0, c, n - 1);
      F(z.0, z.1, c.0, c.1)
  }

  /** The escape test: the squared modulus exceeds the threshold.  A point that
      has not escaped lies in the square [-10, 10] x [-10, 10], and a point that
      has escaped has a component whose square exceeds 50. */
  predicate Escaped(z: (real, real))
    ensures !Escaped(z) ==> -10.0 <= z.0 <= 10.0 && -10.0 <= z.1 <= 10.0
    ensures Escaped(z) ==> z.0 * z.0 > 50.0 || z.1 * z.1 > 50.0
  {
    assert z.0 * z.0 >= 0.0 && z.1 * z.1 >= 0.0;
    assert (z.0 > 10.0 || z.0 < -10.0) ==> z.0 * z.0 > 100.0;
    assert (z.1 > 10.0 || z.1 < -10.0) ==> z.1 * z.1 > 100.0;
    z.0 * z.0 + z.1 * z.1 > EscapeRadiusSq
  }

  /** The point reached after k steps lies beyond the threshold. */
  predicate EscapesAfter(z0: (real, real), c: (real, real), k: nat)
  {
    Escaped(Orbit(z0, c, k))
  }

  /** The count recorded by the loop once it has reached pass n with the point z:
      the pass whose step first escapes, or the last pass. */
  function EscapeFrom(z: (real, real), c: (real, real), n: nat, iterations: nat): (amount: nat)
    requires n < iterations
    ensures n <= amount < iterations
    decreases iterations - n
  {
    var w := F(z.0, z.1, c.0, c.1);
    if Escaped(w) || n + 1 == iterations then n
    else EscapeFrom(w, c, n + 1, iterations)
  }

  /** The count the renderer records for the starting point z0: 0 when there
      are no passes at all. */
  function EscapeTime(z0: (real, real), c: (real, real), iterations: nat): (amount: nat)
    ensures iterations > 0 ==> amount < iterations
    ensures iterations == 0 ==> amount == 0
  {
    if iterations == 0 then 0 else EscapeFrom(z0, c, 0, iterations)
  }

  lemma {:induction false} EscapeFromIsLeast(z0: (real, real), c: (real, real), n: nat, iterations: nat)
    requires n < iterations
    ensures var amount := EscapeFrom(Orbit(z0, c, n), c, n, iterations);
      (forall k :: n < k <= amount ==> !EscapesAfter(z0, c, k)) &&
      (EscapesAfter(z0, c, amount + 1) || amount == iterations - 1)
    decreases iterations - n
  {
    if !EscapesAfter(z0, c, n + 1) && n + 1 < iterations {
      EscapeFromIsLeast(z0, c, n + 1, iterations);
    }
  }

  /** The recorded count is the least n whose step n+1 escapes; when no step
      before the last one escapes it is iterations - 1, not iterations. */
  lemma EscapeTimeIsLeast(z0: (real, real), c: (real, real), iterations: nat)
    requires iterations > 0
    ensures var amount := EscapeTime(z0, c, iterations);
      (forall k :: 1 <= k <= amount ==> !EscapesAfter(z0, c, k)) &&
      (EscapesAfter(z0, c, amount + 1) || amount == iterations - 1)
  {
    EscapeFromIsLeast(z0, c, 0, iterations);
  }

  /** The escape loop of the renderer: up to `iterations` passes, each recording
      its pass number and then stepping z, stopping after the first step that
      leaves the threshold. */
  method EscapeCount(x: real, y: real, ca: real, cb: real, iterations: nat) returns (amount: nat)
    ensures amount == EscapeTime((x, y), (ca, cb), iterations)
    ensures iterations > 0 ==> amount < iterations
    ensures forall k :: 1 <= k <= amount ==> !EscapesAfter((x, y), (ca, cb), k)
    ensures iterations > 0 ==>
      EscapesAfter((x, y), (ca, cb), amount + 1) || amount == iterations - 1
  {
    ghost var z0, c := (x, y), (ca, cb);
    var za := x;
    var zb := y;
    amount := 0;
    var n := 0;
    while n < iterations
      invariant n <= iterations
      invariant (za, zb) == Orbit(z0, c, n)
      invariant amount == if n == 0 then 0 else n - 1
      invariant forall k :: 1 <= k <= n ==> !EscapesAfter(z0, c, k)
      invariant n < iterations ==> EscapeTime(z0, c, iterations) == EscapeFrom((za, zb), c, n, iterations)
      invariant n == iterations ==> EscapeTime(z0, c, iterations) == amount
    {
      amount := n;
      var res := F(za, zb, ca, cb);
      za := res.0;
      zb := res.1;
      if Escaped((za, zb)) {
        break;
      }
      n := n + 1;
    }
  }
}
