/** The face painter: maps the ten parameters of a face vector to the primitive calls
    that draw a Chernoff face into a target rectangle.

    Each feature function returns the logical arguments of the painter's `xOval`,
    `xFillOval` and `xLine` calls (a `Shape`) in the order the painter makes them;
    `Draw` renders them through the transform of the target rectangle. */
module FacePainter {
  import opened Numerics
  import opened Scaling
  import opened LipCurve
  import opened FaceVectors

  /** The painter's public tunables. `pupilRadius` and `noseHeight` are declared but no
      drawing routine reads them. */
  datatype Layout = Layout(
    headRadius: int,
    eyeRadius: int, eyeLeftX: int, eyeRightX: int, eyeY: int,
    pupilRadius: real,
    eyebrowLLX: int, eyebrowRLX: int, eyebrowLRX: int, eyebrowRRX: int, eyebrowY: int,
    noseApexX: int, noseApexY: int, noseHeight: int, noseWidth: int,
    mouthY: int)

  /** The initial values of the tunables. */
  const Defaults: Layout := Layout(30, 5, 40, 60, 40, 0.2, 35, 55, 45, 65, 30, 50, 45, 16, 8, 65)

  /** The two-element array returned by `eccentricities`: `e0` is added to the first
      radius argument of `xOval`, `e1` to the second. */
  datatype Eccentricity = Eccentricity(e0: int, e1: int)

  /** Total distortion: whichever component is non-zero. */
  function Magnitude(e: Eccentricity): int
  {
    e.e0 + e.e1
  }

  /** `eccentricities`: stretches a circle along one axis only. */
  function Eccentricities(p: real): (e: Eccentricity)
    ensures e.e0 >= 0 && e.e1 >= 0
    ensures p > 0.5 ==> e.e1 == 0
    ensures p <= 0.5 ==> e.e0 == 0
  {
    if p > 0.5 then
      Eccentricity(Trunc((p - 0.5) * 20.0), 0)
    else
      Eccentricity(0, Trunc(AbsReal(p - 0.5) * 20.0))
  }

  /** The distortion is twenty times the distance of `p` from 0.5, cut toward zero: none at
      0.5, and 10 at either end of [0, 1], which bounds it for every parameter in between. */
  lemma EccentricityMagnitude(p: real)
    ensures Magnitude(Eccentricities(p)) == Trunc(AbsReal(p - 0.5) * 20.0)
    ensures 0.0 <= p <= 1.0 ==> Magnitude(Eccentricities(p)) <= 10
    ensures p == 0.5 ==> Eccentricities(p) == Eccentricity(0, 0)
    ensures p == 1.0 ==> Eccentricities(p) == Eccentricity(10, 0)
    ensures p == 0.0 ==> Eccentricities(p) == Eccentricity(0, 10)
  {
  }

  /** The distortion never shrinks as `p` moves away from 0.5, on either side. */
  lemma EccentricityMonotone(p: real, q: real)
    requires AbsReal(p - 0.5) <= AbsReal(q - 0.5)
    ensures Magnitude(Eccentricities(p)) <= Magnitude(Eccentricities(q))
  {
    EccentricityMagnitude(p);
    EccentricityMagnitude(q);
    TruncMonotone(AbsReal(p - 0.5) * 20.0, AbsReal(q - 0.5) * 20.0);
  }

  /** `draw_head`: an oval at (50, 50). Because `xOval` reads its third argument as the
      vertical radius, the `e0` component stretches the head vertically (for p1 > 0.5)
      and the `e1` component horizontally. */
  function Head(L: Layout, p1: real): (s: Shape)
    ensures s.OvalShape? && s.cx == 50 && s.cy == 50
    ensures p1 > 0.5 ==> s.widthR == L.headRadius && s.heightR >= L.headRadius
    ensures p1 <= 0.5 ==> s.heightR == L.headRadius && s.widthR >= L.headRadius
  {
    var e := Eccentricities(p1);
    OvalShape(50, 50, L.headRadius + e.e0, L.headRadius + e.e1)
  }

  /** The head's two radii exceed `headRadius` by the distortion in total. */
  lemma HeadStretch(L: Layout, p1: real)
    ensures Head(L, p1).heightR + Head(L, p1).widthR == 2 * L.headRadius + Magnitude(Eccentricities(p1))
  {
  }

  /** `eye_spacing`, truncated toward zero: it is zero for every p7 strictly between 0.4
      and 0.6, and at most 5 in size for p7 in [0, 1]. */
  function EyeSpacing(p7: real): (s: int)
    ensures s < 0 <==> p7 <= 0.4
    ensures s > 0 <==> p7 >= 0.6
    ensures 0.0 <= p7 <= 1.0 ==> -5 <= s <= 5
  {
    Trunc((p7 - 0.5) * 10.0)
  }

  /** `eye_size` */
  function EyeSize(p8: real): (s: int)
    ensures 0.0 <= p8 <= 1.0 ==> -2 <= s <= 2
  {
    Trunc(((p8 - 0.5) / 2.0) * 10.0)
  }

  /** `draw_eye`: two ovals of identical radii, moved apart (or together) by the same
      spacing on both sides. */
  function Eyes(L: Layout, p2: real, p7: real, p8: real): (r: seq<Shape>)
    ensures |r| == 2 && r[0].OvalShape? && r[1].OvalShape?
    ensures r[0].heightR == r[1].heightR && r[0].widthR == r[1].widthR
    ensures r[0].cy == L.eyeY && r[1].cy == L.eyeY
    ensures r[0].cx + r[1].cx == L.eyeLeftX + L.eyeRightX
    ensures r[1].cx - r[0].cx == L.eyeRightX - L.eyeLeftX + 2 * EyeSpacing(p7)
  {
    var e := Eccentricities(p2);
    var spacing := EyeSpacing(p7);
    var radius := L.eyeRadius + EyeSize(p8);
    [OvalShape(L.eyeLeftX - spacing, L.eyeY, radius + e.e0, radius + e.e1),
     OvalShape(L.eyeRightX + spacing, L.eyeY, radius + e.e0, radius + e.e1)]
  }

  function MaxReal(a: real, b: real): real
  {
    if a >= b then a else b
  }

  /** `pupil_size`: never below 2, and exactly 2 for every p3 up to 5 (so for every
      parameter in [0, 1]); the `pupilRadius` tunable plays no part. */
  function PupilSize(p3: real): (s: int)
    ensures s >= 2
    ensures p3 <= 5.0 ==> s == 2
  {
    Trunc(MaxReal(1.0, p3 * 0.2) * 2.0)
  }

  /** `draw_pupil`: two round filled ovals of the same size, level with each other. */
  function Pupils(L: Layout, p3: real, p7: real): (r: seq<Shape>)
    ensures |r| == 2 && r[0].FilledShape? && r[1].FilledShape?
    ensures forall i :: 0 <= i < 2 ==> r[i].heightR == PupilSize(p3) && r[i].widthR == PupilSize(p3)
    ensures r[0].cy == L.eyeY && r[1].cy == L.eyeY
  {
    var size := PupilSize(p3);
    [FilledShape(L.eyeLeftX - Trunc((p7 - 0.5) * 10.0), L.eyeY, size, size),
     FilledShape(L.eyeRightX + Trunc((p7 - 0.5) * 10.0), L.eyeY, size, size)]
  }

  /** Each pupil is centred in its eye: the pupils recompute the eye spacing but not the
      eye size or eccentricity, which change only the eyes' radii. */
  lemma PupilsCentredInEyes(L: Layout, p2: real, p3: real, p7: real, p8: real)
    ensures forall i :: 0 <= i < 2 ==>
      Pupils(L, p3, p7)[i].cx == Eyes(L, p2, p7, p8)[i].cx && Pupils(L, p3, p7)[i].cy == Eyes(L, p2, p7, p8)[i].cy
  {
  }

  /** `draw_eyebrow`: two segments whose ends are raised and lowered by the same tilt. */
  function Eyebrows(L: Layout, p4: real): (r: seq<Shape>)
    ensures |r| == 2 && r[0].Segment? && r[1].Segment?
    ensures r[0].x1 == L.eyebrowLLX as real && r[0].x2 == L.eyebrowLRX as real
    ensures r[1].x1 == L.eyebrowRLX as real && r[1].x2 == L.eyebrowRRX as real
    ensures r[0].y1 + r[0].y2 == 2.0 * L.eyebrowY as real
    ensures r[1].y1 == r[0].y2 && r[1].y2 == r[0].y1
    ensures 0.0 <= p4 <= 1.0 ==> -5.0 <= r[0].y1 - L.eyebrowY as real <= 5.0
  {
    var tilt := Trunc((p4 - 0.5) * 10.0);
    var y1 := L.eyebrowY + tilt;
    var y2 := L.eyebrowY - tilt;
    [Segment(L.eyebrowLLX as real, y1 as real, L.eyebrowLRX as real, y2 as real),
     Segment(L.eyebrowRLX as real, y2 as real, L.eyebrowRRX as real, y1 as real)]
  }

  /** With the default tunables the right brow is the mirror image of the left brow in
      the vertical line x = 50. */
  lemma DefaultEyebrowsMirrored(p4: real)
    ensures var r := Eyebrows(Defaults, p4);
      r[1].x1 == 100.0 - r[0].x2 && r[1].x2 == 100.0 - r[0].x1 &&
      r[1].y1 == r[0].y2 && r[1].y2 == r[0].y1 &&
      r[0].x1 == 35.0 && r[0].x2 == 45.0
  {
  }

  /** The nose base height. It is the literal 55 plus the offset; neither `noseHeight`
      nor `noseApexY` takes part. */
  function NoseBaseY(p5: real): (y: int)
    ensures 0.0 <= p5 <= 1.0 ==> 53 <= y <= 57
  {
    55 + Trunc(((p5 - 0.5) / 2.0) * 10.0)
  }

  /** `draw_nose`: a closed triangle from the apex down to a horizontal base centred under it. */
  function Nose(L: Layout, p5: real): (r: seq<Shape>)
    ensures |r| == 3 && r[0].Segment? && r[1].Segment? && r[2].Segment?
    ensures r[0].x1 == L.noseApexX as real && r[0].y1 == L.noseApexY as real
    ensures forall i :: 0 <= i < 2 ==> r[i].x2 == r[i + 1].x1 && r[i].y2 == r[i + 1].y1
    ensures r[2].x2 == r[0].x1 && r[2].y2 == r[0].y1
    ensures r[1].y1 == r[1].y2 == NoseBaseY(p5) as real
    ensures r[1].x1 + r[1].x2 == 2.0 * L.noseApexX as real
    ensures r[1].x2 - r[1].x1 == 2.0 * JavaDiv(L.noseWidth, 2) as real
  {
    var y := NoseBaseY(p5) as real;
    var half := JavaDiv(L.noseWidth, 2);
    var ax, ay := L.noseApexX, L.noseApexY as real;
    [Segment(ax as real, ay, (ax - half) as real, y),
     Segment((ax - half) as real, y, (ax + half) as real, y),
     Segment((ax + half) as real, y, ax as real, ay)]
  }

  /** The `noseHeight` tunable has no effect on the nose, and moving the apex vertically
      leaves the base where it is. */
  lemma NoseIgnoresNoseHeight(L: Layout, p5: real, h: int, ay: int)
    ensures Nose(L.(noseHeight := h), p5) == Nose(L, p5)
    ensures Nose(L.(noseApexY := ay), p5)[1] == Nose(L, p5)[1]
  {
  }

  /** The three points `draw_mouth` passes to `draw_lip`, plus the raised third point of
      the second lip. */
  datatype MouthPoints = MouthPoints(x1: real, y1: real, x2: real, y2: real, x3: real, y3: real, y3Upper: real)

  /** `mouth_size`: how far each corner moves out from its default position. */
  function MouthSize(p9: real): real
  {
    (p9 - 0.5) * 10.0
  }

  /** `draw_mouth`'s points: corners symmetric about x = 50 on the mouth line, the third
      point midway between them, moved vertically by the curve parameter. */
  function Mouth(L: Layout, p6: real, p9: real, p10: real): (m: MouthPoints)
    ensures m.x1 + m.x2 == 100.0 && m.x3 == 50.0
    ensures m.y1 == L.mouthY as real && m.y2 == L.mouthY as real
    ensures m.y3 - m.y1 == (p6 - 0.5) * 10.0 && m.y3Upper - m.y3 == p10 * 5.0
    ensures (m.x1 != m.x2 && m.x2 != m.x3 && m.x1 != m.x3) <==> p9 != -0.5
    ensures m.x1 < m.x2 <==> p9 > -0.5
    ensures 0.0 <= p9 <= 1.0 ==> 35.0 <= m.x1 <= 45.0 && 55.0 <= m.x2 <= 65.0
  {
    var x1 := 40.0 - MouthSize(p9);
    var x2 := 60.0 + MouthSize(p9);
    var y3 := ((p6 - 0.5) * 10.0) + L.mouthY as real;
    MouthPoints(x1, L.mouthY as real, x2, L.mouthY as real, ((x2 - x1) / 2.0) + x1, y3, y3 + ((p10 / 2.0) * 10.0))
  }

  /** How many segments each lip has for a given mouth width parameter and x scale. */
  function LipSegmentCount(p9: real, xf: real): nat
    requires xf > 0.0
  {
    SampleCount(40.0 - MouthSize(p9), 60.0 + MouthSize(p9), xf)
  }

  /** The two lips of `draw_mouth`, lower lip first. */
  function Lips(L: Layout, p6: real, p9: real, p10: real, xf: real): (r: seq<Shape>)
    requires xf > 0.0 && p9 != -0.5
    ensures |r| == 2 * LipSegmentCount(p9, xf)
    ensures forall k :: 0 <= k < |r| ==> r[k].Segment?
  {
    var m := Mouth(L, p6, p9, p10);
    DenomZeroIff(m.x1, m.x2, m.x3);
    LipPolyline(Solve(m.x1, m.y1, m.x2, m.y2, m.x3, m.y3), m.x1, m.y1, m.x2, xf)
    + LipPolyline(Solve(m.x1, m.y1, m.x2, m.y2, m.x3, m.y3Upper), m.x1, m.y1, m.x2, xf)
  }

  /** Both lips are drawn through the two mouth corners; the lower lip also passes through
      the curve point and the upper one through the raised point. */
  lemma LipsThroughMouthPoints(L: Layout, p6: real, p9: real, p10: real)
    requires p9 != -0.5
    ensures var m := Mouth(L, p6, p9, p10);
      Denom(m.x1, m.x2, m.x3) != 0.0 &&
      var lower := Solve(m.x1, m.y1, m.x2, m.y2, m.x3, m.y3);
      var upper := Solve(m.x1, m.y1, m.x2, m.y2, m.x3, m.y3Upper);
      Eval(lower, m.x1) == m.y1 && Eval(lower, m.x2) == m.y2 && Eval(lower, m.x3) == m.y3 &&
      Eval(upper, m.x1) == m.y1 && Eval(upper, m.x2) == m.y2 && Eval(upper, m.x3) == m.y3Upper
  {
    var m := Mouth(L, p6, p9, p10);
    DenomZeroIff(m.x1, m.x2, m.x3);
  }

  /** The first half of the lips is the lower lip and the second half the upper lip:
      both start at the left mouth corner, and every segment of the first half ends on the
      parabola through the corners and the curve point, every segment of the second half
      on the parabola through the corners and the raised point. */
  lemma LipsOnCurves(L: Layout, p6: real, p9: real, p10: real, xf: real, lower: Parabola, upper: Parabola)
    requires xf > 0.0 && p9 != -0.5
    requires var m := Mouth(L, p6, p9, p10);
      Eval(lower, m.x1) == m.y1 && Eval(lower, m.x2) == m.y2 && Eval(lower, m.x3) == m.y3 &&
      Eval(upper, m.x1) == m.y1 && Eval(upper, m.x2) == m.y2 && Eval(upper, m.x3) == m.y3Upper
    ensures var r := Lips(L, p6, p9, p10, xf);
      var n := LipSegmentCount(p9, xf);
      var m := Mouth(L, p6, p9, p10);
      (n > 0 ==> r[0].x1 == m.x1 && r[0].y1 == m.y1 && r[n].x1 == m.x1 && r[n].y1 == m.y1) &&
      (forall k :: 0 <= k < n ==> r[k].y2 == Eval(lower, r[k].x2)) &&
      (forall k :: n <= k < 2 * n ==> r[k].y2 == Eval(upper, r[k].x2))
  {
    var m := Mouth(L, p6, p9, p10);
    DenomZeroIff(m.x1, m.x2, m.x3);
    SolveUnique(lower, m.x1, m.y1, m.x2, m.y2, m.x3, m.y3);
    SolveUnique(upper, m.x1, m.y1, m.x2, m.y2, m.x3, m.y3Upper);
    var lo := LipPolyline(lower, m.x1, m.y1, m.x2, xf);
    var up := LipPolyline(upper, m.x1, m.y1, m.x2, xf);
    LipPolylineShape(lower, m.x1, m.y1, m.x2, xf);
    LipPolylineShape(upper, m.x1, m.y1, m.x2, xf);
    var r := Lips(L, p6, p9, p10, xf);
    var n := LipSegmentCount(p9, xf);
    assert r == lo + up;
    assert forall k :: 0 <= k < n ==> r[k] == lo[k];
    assert forall k :: n <= k < 2 * n ==> r[k] == up[k - n];
  }

  /** The body of `draw`: every shape of the face in drawing order. One head oval, two eye
      ovals and two filled pupils come first; every later call is a line: two brows,
      three nose lines and the two lips. */
  function Face(L: Layout, v: FaceVector, xf: real): (f: seq<Shape>)
    requires Valid(v) && xf > 0.0 && v.p[9] != -0.5
    ensures |f| == 10 + 2 * LipSegmentCount(v.p[9], xf)
    ensures f[0].OvalShape? && f[1].OvalShape? && f[2].OvalShape? && f[3].FilledShape? && f[4].FilledShape?
    ensures forall i :: 5 <= i < |f| ==> f[i].Segment?
  {
    [Head(L, v.p[1])] + Eyes(L, v.p[2], v.p[7], v.p[8]) + Pupils(L, v.p[3], v.p[7])
    + Eyebrows(L, v.p[4]) + Nose(L, v.p[5]) + Lips(L, v.p[6], v.p[9], v.p[10], xf)
  }

  /** `draw`: the calls made on the drawing surface, in order: one head oval, two eye
      ovals of identical size at the same height, two identical filled pupils, two
      eyebrow lines, three nose lines, then the segments of the lower and of the upper lip. */
  function Draw(L: Layout, v: FaceVector, x: int, y: int, width: int, height: int): (r: seq<Command>)
    requires Valid(v) && width > 0 && v.p[9] != -0.5
    ensures |r| == 10 + 2 * LipSegmentCount(v.p[9], width as real / 100.0)
    ensures r[0].Oval? && r[1].Oval? && r[2].Oval? && r[3].FillOval? && r[4].FillOval?
    ensures forall i :: 5 <= i < |r| ==> r[i].Line?
  {
    var t := CalcXform(x, y, width, height);
    RenderAll(t, Face(L, v, t.xFactor))
  }

  /** Where each feature sits in the drawing order. */
  lemma FaceParts(L: Layout, v: FaceVector, xf: real)
    requires Valid(v) && xf > 0.0 && v.p[9] != -0.5
    ensures var f := Face(L, v, xf);
      |f| == 10 + |Lips(L, v.p[6], v.p[9], v.p[10], xf)| &&
      f[0] == Head(L, v.p[1]) &&
      f[1] == Eyes(L, v.p[2], v.p[7], v.p[8])[0] && f[2] == Eyes(L, v.p[2], v.p[7], v.p[8])[1] &&
      f[3] == Pupils(L, v.p[3], v.p[7])[0] && f[4] == Pupils(L, v.p[3], v.p[7])[1] &&
      f[5..7] == Eyebrows(L, v.p[4]) && f[7..10] == Nose(L, v.p[5]) && f[10..] == Lips(L, v.p[6], v.p[9], v.p[10], xf)
  {
  }

  /** Each device call is the rendering of the corresponding shape of the face. */
  lemma DrawRendersFace(L: Layout, v: FaceVector, x: int, y: int, width: int, height: int)
    requires Valid(v) && width > 0 && v.p[9] != -0.5
    ensures var t := CalcXform(x, y, width, height);
      var f := Face(L, v, t.xFactor);
      var r := Draw(L, v, x, y, width, height);
      |r| == |f| && forall i :: 0 <= i < |r| ==> r[i] == Render(t, f[i])
  {
  }

  /** The two eyes are drawn as ovals of identical size at the same height, and so are the
      two pupils. */
  lemma DrawEyesMatched(L: Layout, v: FaceVector, x: int, y: int, width: int, height: int)
    requires Valid(v) && width > 0 && v.p[9] != -0.5
    ensures var r := Draw(L, v, x, y, width, height);
      r[1].width == r[2].width && r[1].height == r[2].height && r[1].y == r[2].y &&
      r[3].width == r[4].width && r[3].height == r[4].height && r[3].y == r[4].y
  {
    DrawFront(L, v, x, y, width, height);
  }

  /** The first five device calls draw the head, the eyes and the pupils. */
  lemma DrawFront(L: Layout, v: FaceVector, x: int, y: int, width: int, height: int)
    requires Valid(v) && width > 0 && v.p[9] != -0.5
    ensures var t := CalcXform(x, y, width, height);
      var r := Draw(L, v, x, y, width, height);
      r[0] == Render(t, Head(L, v.p[1])) &&
      r[1] == Render(t, Eyes(L, v.p[2], v.p[7], v.p[8])[0]) &&
      r[2] == Render(t, Eyes(L, v.p[2], v.p[7], v.p[8])[1]) &&
      r[3] == Render(t, Pupils(L, v.p[3], v.p[7])[0]) &&
      r[4] == Render(t, Pupils(L, v.p[3], v.p[7])[1])
  {
    FaceParts(L, v, width as real / 100.0);
    DrawRendersFace(L, v, x, y, width, height);
  }

  /** Calls 6 and 7 draw the left and right brow, calls 8 to 10 the nose. */
  lemma DrawBrowsAndNose(L: Layout, v: FaceVector, x: int, y: int, width: int, height: int)
    requires Valid(v) && width > 0 && v.p[9] != -0.5
    ensures var t := CalcXform(x, y, width, height);
      var r := Draw(L, v, x, y, width, height);
      r[5] == Render(t, Eyebrows(L, v.p[4])[0]) && r[6] == Render(t, Eyebrows(L, v.p[4])[1]) &&
      forall i :: 0 <= i < 3 ==> r[7 + i] == Render(t, Nose(L, v.p[5])[i])
  {
    var f := Face(L, v, width as real / 100.0);
    FaceParts(L, v, width as real / 100.0);
    DrawRendersFace(L, v, x, y, width, height);
    assert f[5] == Eyebrows(L, v.p[4])[0] && f[6] == Eyebrows(L, v.p[4])[1];
    assert forall i :: 0 <= i < 3 ==> f[7 + i] == Nose(L, v.p[5])[i];
  }

  /** Two device lines meet: the first ends where the second starts. */
  predicate Joined(a: Command, b: Command)
  {
    a.Line? && b.Line? && a.x2 == b.x1 && a.y2 == b.y1
  }

  /** The three nose lines form a closed triangle on the device exactly when the target
      rectangle's x and y coordinates are equal: `xLine` shifts each line's start by the
      x origin in both coordinates. */
  lemma DrawNoseClosedIff(L: Layout, v: FaceVector, x: int, y: int, width: int, height: int)
    requires Valid(v) && width > 0 && v.p[9] != -0.5
    ensures var r := Draw(L, v, x, y, width, height);
      (Joined(r[7], r[8]) && Joined(r[8], r[9]) && Joined(r[9], r[7])) <==> x == y
  {
    var t := CalcXform(x, y, width, height);
    var f := Face(L, v, t.xFactor);
    var n := Nose(L, v.p[5]);
    FaceParts(L, v, t.xFactor);
    DrawRendersFace(L, v, x, y, width, height);
    assert f[7] == n[0] && f[8] == n[1] && f[9] == n[2];
    JoinedOnDeviceIff(t, n[0], n[1]);
    JoinedOnDeviceIff(t, n[1], n[2]);
    JoinedOnDeviceIff(t, n[2], n[0]);
  }

  /** Within each lip, consecutive device segments meet exactly when the target's x and
      y coordinates are equal (given at least two segments per lip). */
  lemma DrawLipsJoinedIff(L: Layout, v: FaceVector, x: int, y: int, width: int, height: int)
    requires Valid(v) && width > 0 && v.p[9] != -0.5
    requires LipSegmentCount(v.p[9], width as real / 100.0) >= 2
    ensures var r := Draw(L, v, x, y, width, height);
      var n := LipSegmentCount(v.p[9], width as real / 100.0);
      (forall k :: 10 < k < 10 + 2 * n && k != 10 + n ==> Joined(r[k - 1], r[k])) <==> x == y
  {
    var t := CalcXform(x, y, width, height);
    var f := Face(L, v, t.xFactor);
    var r := Draw(L, v, x, y, width, height);
    var n := LipSegmentCount(v.p[9], t.xFactor);
    var lips := Lips(L, v.p[6], v.p[9], v.p[10], t.xFactor);
    FaceParts(L, v, t.xFactor);
    DrawRendersFace(L, v, x, y, width, height);
    LipsChained(L, v.p[6], v.p[9], v.p[10], t.xFactor);
    forall k | 10 < k < 10 + 2 * n && k != 10 + n
      ensures Joined(r[k - 1], r[k]) <==> x == y
    {
      assert f[k - 1] == lips[k - 11] && f[k] == lips[k - 10];
      JoinedOnDeviceIff(t, lips[k - 11], lips[k - 10]);
    }
    assert Joined(r[10], r[11]) <==> x == y;
  }

  /** Each of the two lips is a chain of segments that meet end to start. */
  lemma LipsChained(L: Layout, p6: real, p9: real, p10: real, xf: real)
    requires xf > 0.0 && p9 != -0.5
    ensures var r := Lips(L, p6, p9, p10, xf);
      var n := LipSegmentCount(p9, xf);
      forall k :: 0 < k < 2 * n && k != n ==> r[k - 1].x2 == r[k].x1 && r[k - 1].y2 == r[k].y1
  {
    var m := Mouth(L, p6, p9, p10);
    DenomZeroIff(m.x1, m.x2, m.x3);
    var lower := LipPolyline(Solve(m.x1, m.y1, m.x2, m.y2, m.x3, m.y3), m.x1, m.y1, m.x2, xf);
    var upper := LipPolyline(Solve(m.x1, m.y1, m.x2, m.y2, m.x3, m.y3Upper), m.x1, m.y1, m.x2, xf);
    LipPolylineShape(Solve(m.x1, m.y1, m.x2, m.y2, m.x3, m.y3), m.x1, m.y1, m.x2, xf);
    LipPolylineShape(Solve(m.x1, m.y1, m.x2, m.y2, m.x3, m.y3Upper), m.x1, m.y1, m.x2, xf);
    var r := Lips(L, p6, p9, p10, xf);
    var n := LipSegmentCount(p9, xf);
    assert r == lower + upper;
    forall k | 0 < k < 2 * n && k != n
      ensures r[k - 1].x2 == r[k].x1 && r[k - 1].y2 == r[k].y1
    {
      if k < n {
        assert r[k - 1] == lower[k - 1] && r[k] == lower[k];
      } else {
        assert r[k - 1] == upper[k - 1 - n] && r[k] == upper[k - n];
      }
    }
  }

  /** Under equal scale factors an oval with the larger vertical radius is drawn at least
      as tall as it is wide, and vice versa. */
  lemma RenderOvalOrientation(t: Xform, s: Shape)
    requires t.xFactor == t.yFactor && t.xFactor > 0.0 && s.OvalShape?
    ensures s.widthR <= s.heightR ==> Render(t, s).width <= Render(t, s).height
    ensures s.heightR <= s.widthR ==> Render(t, s).height <= Render(t, s).width
  {
    var w, h := (s.widthR * 2) as real, (s.heightR * 2) as real;
    assert Render(t, s).width == ScaleX(t, w) && Render(t, s).height == ScaleY(t, h);
    ScaleAxesAgree(t, h);
    if w <= h {
      ScaleXMonotone(t, w, h);
    }
    if h <= w {
      ScaleXMonotone(t, h, w);
    }
  }

  /** On a square target the head is drawn at least as tall as wide when p1 > 0.5 and at
      least as wide as tall otherwise. */
  lemma DrawHeadOrientation(L: Layout, v: FaceVector, x: int, y: int, size: int)
    requires Valid(v) && size > 0 && v.p[9] != -0.5
    ensures var r := Draw(L, v, x, y, size, size);
      (v.p[1] > 0.5 ==> r[0].height >= r[0].width) && (v.p[1] <= 0.5 ==> r[0].width >= r[0].height)
  {
    var t := CalcXform(x, y, size, size);
    var h := Head(L, v.p[1]);
    FaceParts(L, v, t.xFactor);
    DrawRendersFace(L, v, x, y, size, size);
    assert Draw(L, v, x, y, size, size)[0] == Render(t, h);
    RenderOvalOrientation(t, h);
  }

  /** Scaling by 2 of an integral logical value is exact. */
  lemma DoubleScale(t: Xform, v: int)
    requires t.xFactor == 2.0 && t.yFactor == 2.0
    ensures ScaleX(t, v as real) == 2 * v && ScaleY(t, v as real) == 2 * v
  {
    assert v as real * 2.0 == (2 * v) as real;
    TruncOfInt(2 * v);
  }

  /** With every parameter at 0.5 the head is a circle of radius `headRadius` at (50, 50). */
  lemma HalfwayHead(L: Layout)
    ensures Head(L, 0.5) == OvalShape(50, 50, L.headRadius, L.headRadius)
  {
    assert Eccentricities(0.5) == Eccentricity(0, 0);
    var h := Head(L, 0.5);
    assert h.cx == 50 && h.cy == 50 && h.heightR == L.headRadius && h.widthR == L.headRadius;
  }

  /** With every parameter at 0.5 the eyes are circles of radius `eyeRadius` at their
      layout positions. */
  lemma HalfwayEyes(L: Layout)
    ensures Eyes(L, 0.5, 0.5, 0.5)[0] == OvalShape(L.eyeLeftX, L.eyeY, L.eyeRadius, L.eyeRadius)
    ensures Eyes(L, 0.5, 0.5, 0.5)[1] == OvalShape(L.eyeRightX, L.eyeY, L.eyeRadius, L.eyeRadius)
  {
    assert Eccentricities(0.5) == Eccentricity(0, 0);
    TruncOfInt(0);
    assert (0.5 - 0.5) * 10.0 == 0.0 && ((0.5 - 0.5) / 2.0) * 10.0 == 0.0;
    assert EyeSpacing(0.5) == 0 && EyeSize(0.5) == 0;
    var e := Eyes(L, 0.5, 0.5, 0.5);
    assert e[0].cx == L.eyeLeftX && e[0].cy == L.eyeY && e[0].heightR == L.eyeRadius && e[0].widthR == L.eyeRadius;
    assert e[1].cx == L.eyeRightX && e[1].cy == L.eyeY && e[1].heightR == L.eyeRadius && e[1].widthR == L.eyeRadius;
  }

  /** Rendering the head into a 200 x 200 target at the origin. */
  lemma HalfwayHeadRendered(t: Xform)
    requires t == CalcXform(0, 0, 200, 200)
    ensures Render(t, OvalShape(50, 50, 30, 30)) == Oval(40, 40, 120, 120)
  {
    DoubleScale(t, 20); DoubleScale(t, 60);
    var c := Render(t, OvalShape(50, 50, 30, 30));
    assert c.x == 40 && c.y == 40 && c.width == 120 && c.height == 120;
  }

  /** Rendering the eyes into a 200 x 200 target at the origin. */
  lemma HalfwayEyesRendered(t: Xform)
    requires t == CalcXform(0, 0, 200, 200)
    ensures Render(t, OvalShape(40, 40, 5, 5)) == Oval(70, 70, 20, 20)
    ensures Render(t, OvalShape(60, 40, 5, 5)) == Oval(110, 70, 20, 20)
  {
    DoubleScale(t, 35); DoubleScale(t, 55); DoubleScale(t, 10);
    var c := Render(t, OvalShape(40, 40, 5, 5));
    assert c.x == 70 && c.y == 70 && c.width == 20 && c.height == 20;
    c := Render(t, OvalShape(60, 40, 5, 5));
    assert c.x == 110 && c.y == 70 && c.width == 20 && c.height == 20;
  }

  /** Drawn into a 200 x 200 target at the origin, a face whose p1 is 0.5 has a round
      head of radius 60 centred at (100, 100), whatever its other parameters. */
  lemma HalfwayHeadDrawn(v: FaceVector)
    requires Valid(v) && v.p[9] != -0.5 && v.p[1] == 0.5
    ensures Draw(Defaults, v, 0, 0, 200, 200)[0] == Oval(40, 40, 120, 120)
  {
    var t := CalcXform(0, 0, 200, 200);
    DrawFront(Defaults, v, 0, 0, 200, 200);
    HalfwayHead(Defaults);
    HalfwayHeadRendered(t);
  }

  /** At p2 = p7 = p8 = 0.5 the default eyes are circles of radius 5 at (40, 40) and (60, 40). */
  lemma HalfwayDefaultEyes(v: FaceVector)
    requires Valid(v) && v.p[2] == 0.5 && v.p[7] == 0.5 && v.p[8] == 0.5
    ensures Eyes(Defaults, v.p[2], v.p[7], v.p[8])[0] == OvalShape(40, 40, 5, 5)
    ensures Eyes(Defaults, v.p[2], v.p[7], v.p[8])[1] == OvalShape(60, 40, 5, 5)
  {
    HalfwayEyes(Defaults);
  }

  /** Drawn into the same target, a face whose p2, p7 and p8 are 0.5 has round eyes of
      radius 10 centred at (80, 80) and (120, 80). */
  lemma HalfwayEyesDrawn(v: FaceVector)
    requires Valid(v) && v.p[9] != -0.5 && v.p[2] == 0.5 && v.p[7] == 0.5 && v.p[8] == 0.5
    ensures var r := Draw(Defaults, v, 0, 0, 200, 200);
      r[1] == Oval(70, 70, 20, 20) && r[2] == Oval(110, 70, 20, 20)
  {
    var t := CalcXform(0, 0, 200, 200);
    DrawFront(Defaults, v, 0, 0, 200, 200);
    HalfwayDefaultEyes(v);
    HalfwayEyesRendered(t);
  }
}
