/** Java's numeric conversions, written out for Dafny's unbounded `int` and `real`.

    Java's `(int)` cast of a double truncates toward zero and Java's integer `/`
    rounds its quotient toward zero, whereas Dafny's `.Floor` rounds down and
    Dafny's `/` on `int` is Euclidean. The two functions here are the Java
    behaviour; everything else in the model uses them instead of the built-ins.
 */
module Numerics {

  function Abs(x: int): nat
  {
    if x < 0 then -x else x
  }

  function AbsReal(x: real): real
  {
    if x < 0.0 then -x else x
  }

  /** Java's `(int) x` for a finite double `x`: the integer part, rounding toward zero. */
  function Trunc(x: real): (r: int)
    ensures 0.0 <= x ==> r as real <= x < r as real + 1.0
    ensures x < 0.0 ==> r as real - 1.0 < x <= r as real
  {
    if x >= 0.0 then x.Floor else -((-x).Floor)
  }

  /** An integral value survives the cast unchanged. */
  lemma TruncOfInt(k: int)
    ensures Trunc(k as real) == k
  {
  }

  /** Truncation never reverses an order. */
  lemma TruncMonotone(x: real, y: real)
    requires x <= y
    ensures Trunc(x) <= Trunc(y)
  {
  }

  /** Java's `a / b` on `int`: the quotient rounded toward zero, so that the remainder
      has the sign of the dividend. */
  function JavaDiv(a: int, b: int): (q: int)
    requires b != 0
    ensures Abs(a - q * b) < Abs(b)
    ensures a - q * b == 0 || (a - q * b < 0 <==> a < 0)
  {
    var m := Abs(a) / Abs(b);
    var rem := Abs(a) % Abs(b);
    assert Abs(a) == m * Abs(b) + rem;
    if (a < 0) == (b < 0) then
      assert a - m * b == (if a < 0 then -rem else rem) by {
        if a < 0 { assert m * b == -(m * Abs(b)); } else { assert m * b == m * Abs(b); }
      }
      m
    else
      assert a - (-m) * b == (if a < 0 then -rem else rem) by {
        if a < 0 { assert (-m) * b == -(m * Abs(b)); } else { assert (-m) * b == m * Abs(b); }
      }
      -m
  }

  /** Multiplying by a positive real keeps the order of two reals, both ways. */
  lemma ScaleInequality(a: real, b: real, c: real)
    requires c > 0.0
    ensures a <= b <==> a * c <= b * c
  {
    if a <= b {
      assert (b - a) * c >= 0.0;
    } else {
      assert (a - b) * c > 0.0;
    }
  }
}
