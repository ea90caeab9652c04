/** The description of one Chernoff face: an array of eleven doubles of which
    only the positions 1 through 10 carry parameters (position 0 is allocated but
    never written, so it keeps Java's default 0.0). */
module FaceVectors {

  /** Number of slots in the array (`new double[11]`). */
  const Slots: nat := 11

  datatype FaceVector = FaceVector(p: seq<real>)

  /** Every face vector the program builds has exactly the eleven slots. */
  predicate Valid(v: FaceVector)
  {
    |v.p| == Slots
  }

  /** The fully specified constructor: parameter k is stored at index k. */
  function Make(p1: real, p2: real, p3: real, p4: real, p5: real,
                p6: real, p7: real, p8: real, p9: real, p10: real): (v: FaceVector)
    ensures Valid(v)
    ensures v.p[0] == 0.0
    ensures v.p[1] == p1 && v.p[2] == p2 && v.p[3] == p3 && v.p[4] == p4 && v.p[5] == p5
    ensures v.p[6] == p6 && v.p[7] == p7 && v.p[8] == p8 && v.p[9] == p9 && v.p[10] == p10
  {
    FaceVector([0.0, p1, p2, p3, p4, p5, p6, p7, p8, p9, p10])
  }

  /** Reading the ten parameters back out of a vector whose unused slot is still the
      default and handing them to the constructor gives the same vector. */
  lemma MakeRoundTrip(v: FaceVector)
    requires Valid(v) && v.p[0] == 0.0
    ensures Make(v.p[1], v.p[2], v.p[3], v.p[4], v.p[5],
                 v.p[6], v.p[7], v.p[8], v.p[9], v.p[10]) == v
  {
    var w := Make(v.p[1], v.p[2], v.p[3], v.p[4], v.p[5],
                  v.p[6], v.p[7], v.p[8], v.p[9], v.p[10]);
    assert forall i | 0 <= i < Slots :: w.p[i] == v.p[i];
  }

  function Square(d: real): real
  {
    d * d
  }

  /** Sum of the squared differences over the positions 1 .. n-1 (position 0 is skipped). */
  function SumSquares(a: seq<real>, b: seq<real>, n: nat): real
    requires n <= |a| && n <= |b|
  {
    if n <= 1 then 0.0
    else
      SumSquares(a, b, n - 1) + Square(a[n - 1] - b[n - 1])
  }

  /** The quantity whose square root `distance` returns. */
  function SquaredDistance(u: FaceVector, v: FaceVector): real
    requires Valid(u) && Valid(v)
  {
    SumSquares(u.p, v.p, Slots)
  }

  lemma {:induction false} SumSquaresNonNegative(a: seq<real>, b: seq<real>, n: nat)
    requires n <= |a| && n <= |b|
    ensures SumSquares(a, b, n) >= 0.0
  {
    if n > 1 {
      SumSquaresNonNegative(a, b, n - 1);
      SquareNonNegative(a[n - 1] - b[n - 1]);
    }
  }

  lemma {:induction false} SumSquaresSymmetric(a: seq<real>, b: seq<real>, n: nat)
    requires n <= |a| && n <= |b|
    ensures SumSquares(a, b, n) == SumSquares(b, a, n)
  {
    if n > 1 {
      SumSquaresSymmetric(a, b, n - 1);
      assert Square(a[n - 1] - b[n - 1]) == Square(b[n - 1] - a[n - 1]);
    }
  }

  /** Sequences that agree on positions 1 .. n-1 have a zero sum, whatever position 0 holds. */
  lemma {:induction false} SumSquaresOfAgreeing(a: seq<real>, b: seq<real>, n: nat)
    requires n <= |a| && n <= |b|
    requires forall i :: 1 <= i < n ==> a[i] == b[i]
    ensures SumSquares(a, b, n) == 0.0
  {
    if n > 1 {
      SumSquaresOfAgreeing(a, b, n - 1);
      assert a[n - 1] - b[n - 1] == 0.0;
    }
  }

  lemma SquareNonNegative(d: real)
    ensures Square(d) >= 0.0
  {
  }

  /** Position 0 never takes part in the sum. */
  lemma {:induction false} SumSquaresIgnoresSlotZero(a: seq<real>, b: seq<real>, n: nat, x: real, y: real)
    requires 1 <= |a| && 1 <= |b| && n <= |a| && n <= |b|
    ensures SumSquares(a[0 := x], b[0 := y], n) == SumSquares(a, b, n)
  {
    if n > 1 {
      SumSquaresIgnoresSlotZero(a, b, n - 1, x, y);
    }
  }

  /** `distance`: the square root of the squared differences summed over positions 1..10.
      `Math.sqrt` is passed in as `sqrt`; only the facts the caller knows about it are used. */
  method Distance(u: FaceVector, v: FaceVector, sqrt: real -> real) returns (d: real)
    requires Valid(u) && Valid(v)
    ensures d == sqrt(SquaredDistance(u, v))
    ensures (forall x :: 0.0 <= x ==> 0.0 <= sqrt(x)) ==> 0.0 <= d
    ensures u.p[1..] == v.p[1..] && sqrt(0.0) == 0.0 ==> d == 0.0
  {
    var sum := 0.0;
    var i := 1;
    while i < Slots
      invariant 1 <= i <= Slots
      invariant sum == SumSquares(u.p, v.p, i)
    {
      var diff := u.p[i] - v.p[i];
      sum := sum + diff * diff;
      i := i + 1;
    }
    SumSquaresNonNegative(u.p, v.p, Slots);
    if u.p[1..] == v.p[1..] {
      assert forall i :: 1 <= i < Slots ==> u.p[i] == u.p[1..][i - 1];
      SumSquaresOfAgreeing(u.p, v.p, Slots);
    }
    d := sqrt(sum);
  }

  /** `u.distance(v) == v.distance(u)`, whatever the square root is. */
  lemma DistanceSymmetric(u: FaceVector, v: FaceVector)
    requires Valid(u) && Valid(v)
    ensures SquaredDistance(u, v) == SquaredDistance(v, u)
  {
    SumSquaresSymmetric(u.p, v.p, Slots);
  }

  /** The squared distance is never negative, and vectors whose ten parameters agree are at
      squared distance zero; in particular `v.distance(v)` is `Math.sqrt(0.0)`. */
  lemma DistanceOfAgreeing(u: FaceVector, v: FaceVector)
    requires Valid(u) && Valid(v)
    ensures SquaredDistance(u, v) >= 0.0
    ensures u.p[1..] == v.p[1..] ==> SquaredDistance(u, v) == 0.0
  {
    SumSquaresNonNegative(u.p, v.p, Slots);
    if u.p[1..] == v.p[1..] {
      assert forall i :: 1 <= i < Slots ==> u.p[i] == u.p[1..][i - 1];
      SumSquaresOfAgreeing(u.p, v.p, Slots);
    }
  }

  /** Whatever is stored at position 0 of either vector, the distance is unchanged. */
  lemma DistanceIgnoresSlotZero(u: FaceVector, v: FaceVector, x: real, y: real)
    requires Valid(u) && Valid(v)
    ensures SquaredDistance(FaceVector(u.p[0 := x]), FaceVector(v.p[0 := y])) == SquaredDistance(u, v)
  {
    SumSquaresIgnoresSlotZero(u.p, v.p, Slots, x, y);
  }
}
