/** The slice of System.Drawing the overlay uses: integer and real rectangles,
    elliptical arcs and a closed path of arcs. Angles are in degrees, measured
    clockwise from the positive x-axis because y grows downwards. */
module Geometry {

  datatype PointF = PointF(x: real, y: real)

  datatype SizeF = SizeF(width: real, height: real)

  /** An integer rectangle such as a chart window's client area. */
  datatype Rect = Rect(x: int, y: int, width: int, height: int) {
    function Left(): int { x }
    function Top(): int { y }
    function Right(): int { x + width }
    function Bottom(): int { y + height }
  }

  /** A rectangle with real coordinates. */
  datatype RectF = RectF(x: real, y: real, width: real, height: real) {
    function Right(): real { x + width }
    function Bottom(): real { y + height }
  }

  /** A line segment. */
  datatype Segment = Segment(start: PointF, end: PointF)

  /** The part of the ellipse inscribed in `box` from `startAngle` sweeping
      `sweepAngle` degrees clockwise. */
  datatype Arc = Arc(box: RectF, startAngle: int, sweepAngle: int)

  /** A figure made of arcs; consecutive arcs are joined by straight segments and
      a closed figure also joins the last arc back to the first. */
  datatype Path = Path(arcs: seq<Arc>, closed: bool)

  /** The point of the ellipse inscribed in `box` at a multiple of 90 degrees:
      the middle of the right, bottom, left or top side of the box. */
  function QuarterPoint(box: RectF, angle: int): (p: PointF)
    requires angle % 90 == 0
    ensures p.x == box.x || p.x == box.Right() || p.x == box.x + box.width / 2.0
    ensures p.y == box.y || p.y == box.Bottom() || p.y == box.y + box.height / 2.0
  {
    var cx := box.x + box.width / 2.0;
    var cy := box.y + box.height / 2.0;
    match angle % 360
    case 0 => PointF(box.Right(), cy)
    case 90 => PointF(cx, box.Bottom())
    case 180 => PointF(box.x, cy)
    case _ => PointF(cx, box.y)
  }

  predicate QuarterArc(a: Arc) {
    a.startAngle % 90 == 0 && a.sweepAngle % 90 == 0
  }

  function ArcStart(a: Arc): PointF
    requires QuarterArc(a)
  {
    QuarterPoint(a.box, a.startAngle)
  }

  function ArcEnd(a: Arc): PointF
    requires QuarterArc(a)
  {
    QuarterPoint(a.box, a.startAngle + a.sweepAngle)
  }

  function TotalSweep(arcs: seq<Arc>): int {
    if |arcs| == 0 then 0 else arcs[0].sweepAngle + TotalSweep(arcs[1..])
  }

  /** A corner arc's box: a square of side `d` at the given corner. */
  predicate SquareBox(b: RectF, d: real) {
    b.width == d && b.height == d
  }

  /** The closed outline of `rect` with its four corners rounded to `radius`:
      top-left, top-right, bottom-right and bottom-left quarter arcs, each
      continuing in the direction the previous one ended. */
  function RoundedRectanglePath(rect: RectF, radius: real): (p: Path)
    ensures p.closed && |p.arcs| == 4
    ensures forall k :: 0 <= k < 4 ==> SquareBox(p.arcs[k].box, 2.0 * radius) && p.arcs[k].sweepAngle == 90
    ensures p.arcs[0].box.x == rect.x && p.arcs[0].box.y == rect.y
    ensures p.arcs[1].box.Right() == rect.Right() && p.arcs[1].box.y == rect.y
    ensures p.arcs[2].box.Right() == rect.Right() && p.arcs[2].box.Bottom() == rect.Bottom()
    ensures p.arcs[3].box.x == rect.x && p.arcs[3].box.Bottom() == rect.Bottom()
    ensures p.arcs[0].startAngle == 180
    ensures forall k :: 0 <= k < 3 ==> p.arcs[k + 1].startAngle == (p.arcs[k].startAngle + p.arcs[k].sweepAngle) % 360
    ensures TotalSweep(p.arcs) == 360
    ensures (p.arcs[3].startAngle + p.arcs[3].sweepAngle) % 360 == p.arcs[0].startAngle
  {
    var d := radius * 2.0;
    var arcs := [Arc(RectF(rect.x, rect.y, d, d), 180, 90),
                 Arc(RectF(rect.Right() - d, rect.y, d, d), 270, 90),
                 Arc(RectF(rect.Right() - d, rect.Bottom() - d, d, d), 0, 90),
                 Arc(RectF(rect.x, rect.Bottom() - d, d, d), 90, 90)];
    assert TotalSweep(arcs[3..]) == 90 by {
      assert arcs[3..][1..] == [];
    }
    assert TotalSweep(arcs[2..]) == 180 by {
      assert arcs[2..][1..] == arcs[3..];
    }
    assert arcs[1..][1..] == arcs[2..];
    Path(arcs, true)
  }

  /** The straight joins of the rounded outline run along the rectangle's sides:
      top, right, bottom, and (the closing segment) left, each from the end of
      one corner arc to the start of the next. */
  lemma RoundedRectangleJoinsOnSides(rect: RectF, radius: real)
    ensures var a := RoundedRectanglePath(rect, radius).arcs;
      && (forall k :: 0 <= k < 4 ==> QuarterArc(a[k]))
      && ArcEnd(a[0]) == PointF(rect.x + radius, rect.y)
      && ArcStart(a[1]) == PointF(rect.Right() - radius, rect.y)
      && ArcEnd(a[1]) == PointF(rect.Right(), rect.y + radius)
      && ArcStart(a[2]) == PointF(rect.Right(), rect.Bottom() - radius)
      && ArcEnd(a[2]) == PointF(rect.Right() - radius, rect.Bottom())
      && ArcStart(a[3]) == PointF(rect.x + radius, rect.Bottom())
      && ArcEnd(a[3]) == PointF(rect.x, rect.Bottom() - radius)
      && ArcStart(a[0]) == PointF(rect.x, rect.y + radius)
  {
  }

  /** When the radius is half the height, as for a label pill, each short end
      is one half-disc: the two left arcs share a box, and so do the two right
      arcs, and the left end's arcs meet at the middle of the left side. */
  lemma PillEndsAreHalfDiscs(rect: RectF)
    ensures var a := RoundedRectanglePath(rect, rect.height / 2.0).arcs;
      && a[0].box == a[3].box
      && a[1].box == a[2].box
      && ArcEnd(a[3]) == ArcStart(a[0])
      && ArcEnd(a[1]) == ArcStart(a[2])
  {
  }
}
