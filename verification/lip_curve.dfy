/** The painter's lip: the parabola `y = a*x^2 + bb*x + c` through three points,
    solved in closed form (Cramer's rule on the 3 x 3 Vandermonde system), and the
    polyline that samples it from `x1` to `x2` one device pixel at a time. */
module LipCurve {
  import opened Numerics
  import opened Scaling

  datatype Parabola = Parabola(a: real, b: real, c: real)

  /** `a * Math.pow(x, 2) + bb * x + c` */
  function Eval(q: Parabola, x: real): real
  {
    q.a * (x * x) + q.b * x + q.c
  }

  /** The determinant the three coefficients are divided by. */
  function Denom(x1: real, x2: real, x3: real): real
  {
    x1 * x1 * (x2 - x3) + x1 * (x3 * x3 - x2 * x2) + x2 * x2 * x3 - x3 * x3 * x2
  }

  function NumA(x1: real, y1: real, x2: real, y2: real, x3: real, y3: real): real
  {
    y1 * (x2 - x3) + x1 * (y3 - y2) + y2 * x3 - y3 * x2
  }

  function NumB(x1: real, y1: real, x2: real, y2: real, x3: real, y3: real): real
  {
    x1 * x1 * (y2 - y3) + y1 * (x3 * x3 - x2 * x2) + x2 * x2 * y3 - x3 * x3 * y2
  }

  function NumC(x1: real, y1: real, x2: real, y2: real, x3: real, y3: real): real
  {
    x1 * x1 * (x2 * y3 - x3 * y2) + x1 * (x3 * x3 * y2 - x2 * x2 * y3) + y1 * (x2 * x2 * x3 - x3 * x3 * x2)
  }

  /** The coefficients `a`, `bb` and `c` computed in `draw_lip`: when the abscissae are
      distinct, the parabola they define passes through all three points, exactly, over
      the reals. */
  function Solve(x1: real, y1: real, x2: real, y2: real, x3: real, y3: real): (q: Parabola)
    requires Denom(x1, x2, x3) != 0.0
    ensures Eval(q, x1) == y1 && Eval(q, x2) == y2 && Eval(q, x3) == y3
  {
    CramerInterpolates(x1, y1, x2, y2, x3, y3);
    Cramer(x1, y1, x2, y2, x3, y3)
  }

  /** The three quotients of Cramer's rule. */
  function Cramer(x1: real, y1: real, x2: real, y2: real, x3: real, y3: real): Parabola
    requires Denom(x1, x2, x3) != 0.0
  {
    var d := Denom(x1, x2, x3);
    Parabola(NumA(x1, y1, x2, y2, x3, y3) / d, NumB(x1, y1, x2, y2, x3, y3) / d,
             NumC(x1, y1, x2, y2, x3, y3) / d)
  }

  /** The determinant is the Vandermonde product. */
  lemma DenomFactors(x1: real, x2: real, x3: real)
    ensures Denom(x1, x2, x3) == (x1 - x2) * (x2 - x3) * (x1 - x3)
  {
  }

  lemma ProductZero(x: real, y: real)
    ensures x * y == 0.0 <==> x == 0.0 || y == 0.0
  {
  }

  /** The division in `draw_lip` is defined exactly when the three abscissae are pairwise distinct. */
  lemma DenomZeroIff(x1: real, x2: real, x3: real)
    ensures Denom(x1, x2, x3) == 0.0 <==> x1 == x2 || x2 == x3 || x1 == x3
  {
    DenomFactors(x1, x2, x3);
    ProductZero((x1 - x2) * (x2 - x3), x1 - x3);
    ProductZero(x1 - x2, x2 - x3);
  }

  /** Cramer's numerators, multiplied back, reproduce each ordinate times the determinant. */
  lemma ClearedAt1(x1: real, y1: real, x2: real, y2: real, x3: real, y3: real)
    ensures NumA(x1, y1, x2, y2, x3, y3) * x1 * x1 + NumB(x1, y1, x2, y2, x3, y3) * x1
            + NumC(x1, y1, x2, y2, x3, y3) == y1 * Denom(x1, x2, x3)
  {
  }

  lemma ClearedAt2(x1: real, y1: real, x2: real, y2: real, x3: real, y3: real)
    ensures NumA(x1, y1, x2, y2, x3, y3) * x2 * x2 + NumB(x1, y1, x2, y2, x3, y3) * x2
            + NumC(x1, y1, x2, y2, x3, y3) == y2 * Denom(x1, x2, x3)
  {
  }

  lemma ClearedAt3(x1: real, y1: real, x2: real, y2: real, x3: real, y3: real)
    ensures NumA(x1, y1, x2, y2, x3, y3) * x3 * x3 + NumB(x1, y1, x2, y2, x3, y3) * x3
            + NumC(x1, y1, x2, y2, x3, y3) == y3 * Denom(x1, x2, x3)
  {
  }

  lemma DivideThrough(na: real, nb: real, nc: real, d: real, x: real, y: real)
    requires d != 0.0
    requires na * x * x + nb * x + nc == y * d
    ensures Eval(Parabola(na / d, nb / d, nc / d), x) == y
  {
    calc {
      Eval(Parabola(na / d, nb / d, nc / d), x);
      (na / d) * (x * x) + (nb / d) * x + nc / d;
      (na * x * x + nb * x + nc) / d;
      (y * d) / d;
      y;
    }
  }

  /** A point whose cleared equation holds lies on Cramer's parabola. */
  lemma CramerThrough(x1: real, y1: real, x2: real, y2: real, x3: real, y3: real, x: real, y: real)
    requires Denom(x1, x2, x3) != 0.0
    requires NumA(x1, y1, x2, y2, x3, y3) * x * x + NumB(x1, y1, x2, y2, x3, y3) * x
             + NumC(x1, y1, x2, y2, x3, y3) == y * Denom(x1, x2, x3)
    ensures Eval(Cramer(x1, y1, x2, y2, x3, y3), x) == y
  {
    DivideThrough(NumA(x1, y1, x2, y2, x3, y3), NumB(x1, y1, x2, y2, x3, y3),
                  NumC(x1, y1, x2, y2, x3, y3), Denom(x1, x2, x3), x, y);
  }

  lemma CramerInterpolates(x1: real, y1: real, x2: real, y2: real, x3: real, y3: real)
    requires Denom(x1, x2, x3) != 0.0
    ensures Eval(Cramer(x1, y1, x2, y2, x3, y3), x1) == y1
    ensures Eval(Cramer(x1, y1, x2, y2, x3, y3), x2) == y2
    ensures Eval(Cramer(x1, y1, x2, y2, x3, y3), x3) == y3
  {
    ClearedAt1(x1, y1, x2, y2, x3, y3);
    CramerThrough(x1, y1, x2, y2, x3, y3, x1, y1);
    ClearedAt2(x1, y1, x2, y2, x3, y3);
    CramerThrough(x1, y1, x2, y2, x3, y3, x2, y2);
    ClearedAt3(x1, y1, x2, y2, x3, y3);
    CramerThrough(x1, y1, x2, y2, x3, y3, x3, y3);
  }

  /** Two parabolas that agree at three distinct abscissae are the same parabola. */
  lemma ThreePointsDetermine(p: Parabola, q: Parabola, x1: real, x2: real, x3: real)
    requires x1 != x2 && x2 != x3 && x1 != x3
    requires Eval(p, x1) == Eval(q, x1) && Eval(p, x2) == Eval(q, x2) && Eval(p, x3) == Eval(q, x3)
    ensures p == q
  {
    var da, db, dc := p.a - q.a, p.b - q.b, p.c - q.c;
    assert da * (x1 * x1) + db * x1 + dc == 0.0;
    assert da * (x2 * x2) + db * x2 + dc == 0.0;
    assert da * (x3 * x3) + db * x3 + dc == 0.0;
    assert (x1 - x2) * (da * (x1 + x2) + db) == 0.0;
    assert (x1 - x3) * (da * (x1 + x3) + db) == 0.0;
    ProductZero(x1 - x2, da * (x1 + x2) + db);
    ProductZero(x1 - x3, da * (x1 + x3) + db);
    assert da * (x2 - x3) == 0.0;
    ProductZero(da, x2 - x3);
  }

  /** Hence the solved parabola is the only one through the three points. */
  lemma SolveUnique(q: Parabola, x1: real, y1: real, x2: real, y2: real, x3: real, y3: real)
    requires Denom(x1, x2, x3) != 0.0
    requires Eval(q, x1) == y1 && Eval(q, x2) == y2 && Eval(q, x3) == y3
    ensures q == Solve(x1, y1, x2, y2, x3, y3)
  {
    DenomZeroIff(x1, x2, x3);
    ThreePointsDetermine(q, Solve(x1, y1, x2, y2, x3, y3), x1, x2, x3);
  }

  /** The k-th value of the loop variable `i`: `x1` advanced k times by `1.0 / x_factor`. */
  function Sample(x1: real, xf: real, k: nat): real
    requires xf > 0.0
  {
    x1 + k as real * (1.0 / xf)
  }

  /** How many times the sampling loop runs. */
  function SampleCount(x1: real, x2: real, xf: real): nat
    requires xf > 0.0
  {
    if x2 < x1 then 0 else ((x2 - x1) * xf).Floor + 1
  }

  /** The loop guard `i <= x2` holds for exactly the first `SampleCount` samples. */
  lemma SampleCountExact(x1: real, x2: real, xf: real, k: nat)
    requires xf > 0.0
    ensures k < SampleCount(x1, x2, xf) <==> Sample(x1, xf, k) <= x2
  {
    var s := 1.0 / xf;
    assert s * xf == 1.0;
    ScaleInequality(k as real * s, x2 - x1, xf);
    assert k as real * s * xf == k as real;
  }

  lemma SamplesInRange(x1: real, x2: real, xf: real)
    requires xf > 0.0
    ensures forall k: nat :: k < SampleCount(x1, x2, xf) ==> x1 <= Sample(x1, xf, k) <= x2
    ensures Sample(x1, xf, SampleCount(x1, x2, xf)) > x2
  {
    forall k: nat | k < SampleCount(x1, x2, xf)
      ensures x1 <= Sample(x1, xf, k) <= x2
    {
      SampleCountExact(x1, x2, xf, k);
      assert k as real * (1.0 / xf) >= 0.0;
    }
    SampleCountExact(x1, x2, xf, SampleCount(x1, x2, xf));
  }

  /** The k-th call `xLine(last_x, last_y, new_x, new_y)` of the sampling loop. */
  function LipSegment(q: Parabola, x1: real, y1: real, xf: real, k: nat): Shape
    requires xf > 0.0
  {
    var x := Sample(x1, xf, k);
    if k == 0 then Segment(x1, y1, x, Eval(q, x))
    else
      var px := Sample(x1, xf, k - 1);
      Segment(px, Eval(q, px), x, Eval(q, x))
  }

  /** The segments `draw_lip` draws for the parabola `q`, in logical units: one per
      sampled abscissa `i` with `x1 <= i <= x2`. */
  function LipPolyline(q: Parabola, x1: real, y1: real, x2: real, xf: real): (r: seq<Shape>)
    requires xf > 0.0
    ensures |r| == SampleCount(x1, x2, xf)
    ensures forall k :: 0 <= k < |r| ==> r[k].Segment?
  {
    seq(SampleCount(x1, x2, xf), k requires 0 <= k => LipSegment(q, x1, y1, xf, k))
  }

  /** The lip is a connected polyline that starts at the left corner with a vertical
      segment to the parabola, then visits the parabola at every sampled abscissa in `[x1, x2]`, one device pixel (`1 / x_factor`
      logical units) apart, stopping only once the next sample would pass `x2`. */
  lemma LipPolylineShape(q: Parabola, x1: real, y1: real, x2: real, xf: real)
    requires xf > 0.0
    ensures var r := LipPolyline(q, x1, y1, x2, xf);
      (|r| > 0 ==> r[0].x1 == x1 && r[0].y1 == y1 && r[0].x2 == x1) &&
      (forall k :: 0 < k < |r| ==> r[k].x1 == r[k - 1].x2 && r[k].y1 == r[k - 1].y2) &&
      (forall k :: 0 <= k < |r| ==> x1 <= r[k].x2 <= x2 && r[k].y2 == Eval(q, r[k].x2)) &&
      (forall k :: 0 < k < |r| ==> r[k].x2 - r[k].x1 == 1.0 / xf) &&
      x1 + |r| as real * (1.0 / xf) > x2
  {
    var r := LipPolyline(q, x1, y1, x2, xf);
    assert forall k :: 0 <= k < |r| ==> r[k] == LipSegment(q, x1, y1, xf, k);
    LipSegmentsChained(q, x1, y1, x2, xf);
    SamplesInRange(x1, x2, xf);
  }

  lemma LipSegmentsChained(q: Parabola, x1: real, y1: real, x2: real, xf: real)
    requires xf > 0.0
    ensures forall k: nat :: k < SampleCount(x1, x2, xf) ==>
      x1 <= LipSegment(q, x1, y1, xf, k).x2 <= x2 &&
      LipSegment(q, x1, y1, xf, k).y2 == Eval(q, LipSegment(q, x1, y1, xf, k).x2)
    ensures forall k: nat :: 0 < k < SampleCount(x1, x2, xf) ==>
      LipSegment(q, x1, y1, xf, k).x1 == LipSegment(q, x1, y1, xf, k - 1).x2 &&
      LipSegment(q, x1, y1, xf, k).y1 == LipSegment(q, x1, y1, xf, k - 1).y2 &&
      LipSegment(q, x1, y1, xf, k).x2 - LipSegment(q, x1, y1, xf, k).x1 == 1.0 / xf
  {
    SamplesInRange(x1, x2, xf);
    forall k: nat | 0 < k < SampleCount(x1, x2, xf)
      ensures LipSegment(q, x1, y1, xf, k).x2 - LipSegment(q, x1, y1, xf, k).x1 == 1.0 / xf
    {
      SampleNext(x1, xf, k - 1);
    }
  }

  lemma SampleNext(x1: real, xf: real, k: nat)
    requires xf > 0.0
    ensures Sample(x1, xf, k + 1) == Sample(x1, xf, k) + 1.0 / xf
  {
  }

  /** `draw_lip` as written, with `xf` the painter's `x_factor`: solve, then step `i` from
      `x1` while `i <= x2`. Returns the
      logical arguments of every `xLine` call, in order. */
  method DrawLip(xf: real, x1: real, y1: real, x2: real, y2: real, x3: real, y3: real)
    returns (segs: seq<Shape>)
    requires xf > 0.0
    requires Denom(x1, x2, x3) != 0.0
    ensures segs == LipPolyline(Solve(x1, y1, x2, y2, x3, y3), x1, y1, x2, xf)
  {
    var q := Solve(x1, y1, x2, y2, x3, y3);
    ghost var n := SampleCount(x1, x2, xf);
    var i, lastX, lastY := x1, x1, y1;
    segs := [];
    while i <= x2
      invariant |segs| <= n
      invariant i == Sample(x1, xf, |segs|)
      invariant forall j :: 0 <= j < |segs| ==> segs[j] == LipSegment(q, x1, y1, xf, j)
      invariant |segs| == 0 ==> lastX == x1 && lastY == y1
      invariant |segs| > 0 ==> lastX == Sample(x1, xf, |segs| - 1) && lastY == Eval(q, lastX)
      decreases n - |segs|
    {
      SampleCountExact(x1, x2, xf, |segs|);
      SampleNext(x1, xf, |segs|);
      var newX := i;
      var newY := Eval(q, i);
      segs := segs + [Segment(lastX, lastY, newX, newY)];
      lastX, lastY := newX, newY;
      i := i + 1.0 / xf;
    }
    SampleCountExact(x1, x2, xf, |segs|);
  }
}
