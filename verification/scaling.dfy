/** The painter's coordinate transform and the primitive calls it hands to the
    drawing surface.

    The face is laid out in a logical 100 x 100 space. `draw` first records the
    scale factors and the origin of the target rectangle; every helper then maps a
    logical value v to device pixels as `(int)(v * factor) + origin`. The drawing
    surface itself is not modelled: each primitive call becomes a `Command` value. */
module Scaling {
  import opened Numerics

  /** The per-call transform (the painter's `x_factor`, `y_factor`, `x_origin`, `y_origin`). */
  datatype Xform = Xform(xFactor: real, yFactor: real, xOrigin: int, yOrigin: int)

  /** One call on the drawing surface, in device pixels. */
  datatype Command =
    | Oval(x: int, y: int, width: int, height: int)       // drawOval
    | FillOval(x: int, y: int, width: int, height: int)   // fillOval
    | Line(x1: int, y1: int, x2: int, y2: int)            // drawLine

  /** The arguments of one call on the painter's own helpers, in logical units:
      `xOval`, `xFillOval` (centre and the two radii, in the helpers' parameter
      order: the third argument is named the height radius) and `xLine`. */
  datatype Shape =
    | OvalShape(cx: int, cy: int, heightR: int, widthR: int)
    | FilledShape(cx: int, cy: int, heightR: int, widthR: int)
    | Segment(x1: real, y1: real, x2: real, y2: real)

  /** `calc_xform_factors`: one logical unit is a hundredth of the target's width or height. */
  function CalcXform(x: int, y: int, width: int, height: int): (t: Xform)
    ensures t.xFactor * 100.0 == width as real && t.yFactor * 100.0 == height as real
    ensures t.xOrigin == x && t.yOrigin == y
  {
    Xform(width as real / 100.0, height as real / 100.0, x, y)
  }

  /** `scale_x`; the `int` overload widens its argument to double first, so one
      function on reals serves both overloads. The scaled value is cut toward zero: the
      result has the sign of the exact product, is no larger in size, and is less than
      one pixel short of it. */
  function ScaleX(t: Xform, v: real): (r: int)
    ensures 0.0 <= v * t.xFactor ==> 0 <= r && r as real <= v * t.xFactor < r as real + 1.0
    ensures v * t.xFactor <= 0.0 ==> r <= 0 && r as real - 1.0 < v * t.xFactor <= r as real
  {
    Trunc(v * t.xFactor)
  }

  /** `scale_y`, the same on the vertical axis. */
  function ScaleY(t: Xform, v: real): (r: int)
    ensures 0.0 <= v * t.yFactor ==> 0 <= r && r as real <= v * t.yFactor < r as real + 1.0
    ensures v * t.yFactor <= 0.0 ==> r <= 0 && r as real - 1.0 < v * t.yFactor <= r as real
  {
    Trunc(v * t.yFactor)
  }

  /** `xOval`, `xFillOval` and `xLine`. The oval helpers place the box `widthR` to the
      left of the centre and `heightR` above it. Both `xLine` overloads add the x
      origin (not the y origin) to the first endpoint's y coordinate. */
  function Render(t: Xform, s: Shape): (c: Command)
    ensures s.OvalShape? <==> c.Oval?
    ensures s.FilledShape? <==> c.FillOval?
    ensures s.Segment? <==> c.Line?
  {
    match s
    case OvalShape(x, y, hr, wr) =>
      Oval(ScaleX(t, (x - wr) as real) + t.xOrigin, ScaleY(t, (y - hr) as real) + t.yOrigin,
           ScaleX(t, (wr * 2) as real), ScaleY(t, (hr * 2) as real))
    case FilledShape(x, y, hr, wr) =>
      FillOval(ScaleX(t, (x - wr) as real) + t.xOrigin, ScaleY(t, (y - hr) as real) + t.yOrigin,
               ScaleX(t, (wr * 2) as real), ScaleY(t, (hr * 2) as real))
    case Segment(x1, y1, x2, y2) =>
      Line(ScaleX(t, x1) + t.xOrigin, ScaleY(t, y1) + t.xOrigin,
           ScaleX(t, x2) + t.xOrigin, ScaleY(t, y2) + t.yOrigin)
  }

  function RenderAll(t: Xform, shapes: seq<Shape>): seq<Command>
  {
    seq(|shapes|, i requires 0 <= i < |shapes| => Render(t, shapes[i]))
  }

  /** The transform for a 100 x 100 target at the origin. */
  const Identity: Xform := CalcXform(0, 0, 100, 100)

  /** With a 100 x 100 target at (0, 0) every integral logical coordinate is its own
      device coordinate, and a non-integral one is cut toward zero. */
  lemma IdentityScaling(v: real)
    ensures ScaleX(Identity, v) == ScaleY(Identity, v) == Trunc(v)
    ensures v == v.Floor as real ==> ScaleX(Identity, v) == v.Floor
  {
    assert Identity.xFactor == 1.0 && Identity.yFactor == 1.0;
    TruncOfInt(v.Floor);
  }

  /** Under the identity transform an oval's box is its centre minus its radii, and its
      extent is twice the radii. */
  lemma IdentityOval(s: Shape)
    requires s.OvalShape?
    ensures Render(Identity, s) == Oval(s.cx - s.widthR, s.cy - s.heightR, 2 * s.widthR, 2 * s.heightR)
  {
    IdentityScaling((s.cx - s.widthR) as real);
    IdentityScaling((s.cy - s.heightR) as real);
    IdentityScaling((s.widthR * 2) as real);
    IdentityScaling((s.heightR * 2) as real);
  }

  /** Two logical segments that meet (the first ends where the second starts) are drawn
      as device lines that meet exactly when the x and y origins coincide, because the
      start of every line is shifted by the x origin in both coordinates. */
  lemma JoinedOnDeviceIff(t: Xform, a: Shape, b: Shape)
    requires a.Segment? && b.Segment?
    requires a.x2 == b.x1 && a.y2 == b.y1
    ensures (Render(t, a).x2 == Render(t, b).x1 && Render(t, a).y2 == Render(t, b).y1)
            <==> t.xOrigin == t.yOrigin
  {
  }

  /** A larger logical value never scales to a smaller device value. */
  lemma ScaleXMonotone(t: Xform, u: real, v: real)
    requires u <= v && t.xFactor > 0.0
    ensures ScaleX(t, u) <= ScaleX(t, v)
  {
    assert u * t.xFactor <= v * t.xFactor;
    TruncMonotone(u * t.xFactor, v * t.xFactor);
  }

  /** On a target as tall as it is wide, both axes scale alike. */
  lemma ScaleAxesAgree(t: Xform, v: real)
    requires t.xFactor == t.yFactor
    ensures ScaleX(t, v) == ScaleY(t, v)
  {
  }
}
