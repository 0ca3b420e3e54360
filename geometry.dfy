/**
 * Geometry helpers of the radial menu: degree/radian conversion, the polar
 * projection and the donut-wedge outline used behind the subcategory fan.
 *
 * The value of pi and the cosine and sine functions are left abstract: pi is
 * some positive real and Cos/Sin are arbitrary functions from reals to reals.
 * Everything proved here is exact algebra over those three symbols.
 */
module Geometry {

  type Positive = r: real | r > 0.0 witness 1.0

  /** An SVG arc flag: 0 or 1. */
  type Bit = b: int | 0 <= b <= 1

  /** pi, abstract. */
  const PI: Positive

  /** Cosine and sine, uninterpreted. */
  const Cos: real -> real
  const Sin: real -> real

  datatype Point = Point(x: real, y: real)

  /** An angle in degrees, converted to radians. */
  function Deg2Rad(deg: real): (r: real)
  {
    deg * PI / 180.0
  }

  lemma Deg2RadAdditive(a: real, b: real)
    ensures Deg2Rad(a + b) == Deg2Rad(a) + Deg2Rad(b)
  {
  }

  lemma Deg2RadHalfTurn()
    ensures Deg2Rad(180.0) == PI
    ensures Deg2Rad(-90.0) == -(PI as real) / 2.0
  {
  }

  /** The conversion is strictly increasing, so it preserves every comparison of degrees. */
  lemma Deg2RadMonotonic(a: real, b: real)
    ensures a < b <==> Deg2Rad(a) < Deg2Rad(b)
    ensures a <= b <==> Deg2Rad(a) <= Deg2Rad(b)
  {
    assert Deg2Rad(b) - Deg2Rad(a) == (b - a) * (PI / 180.0);
    if a < b {
      assert (b - a) * (PI / 180.0) > 0.0;
    } else {
      assert (a - b) * (PI / 180.0) >= 0.0;
    }
  }

  /** The point at distance r from (cx, cy) in the direction of angle (radians). */
  function PolarToCartesian(cx: real, cy: real, r: real, angle: real): (p: Point)
  {
    Point(cx + r * Cos(angle), cy + r * Sin(angle))
  }

  /** The projection offsets the centre by r along the unit direction (Cos(angle), Sin(angle)). */
  lemma PolarOffset(cx: real, cy: real, r: real, angle: real)
    ensures PolarToCartesian(cx, cy, r, angle).x - cx == r * Cos(angle)
    ensures PolarToCartesian(cx, cy, r, angle).y - cy == r * Sin(angle)
    ensures r == 0.0 ==> PolarToCartesian(cx, cy, r, angle) == Point(cx, cy)
  {
  }

  ghost predicate OnUnitCircle(angle: real)
  {
    Cos(angle) * Cos(angle) + Sin(angle) * Sin(angle) == 1.0
  }

  function SquaredDistance(p: Point, q: Point): (d: real)
    ensures d >= 0.0
  {
    (p.x - q.x) * (p.x - q.x) + (p.y - q.y) * (p.y - q.y)
  }

  /** Wherever cos^2 + sin^2 = 1 holds, the projected point lies at distance |r| from the centre. */
  lemma PolarDistance(cx: real, cy: real, r: real, angle: real)
    requires OnUnitCircle(angle)
    ensures SquaredDistance(PolarToCartesian(cx, cy, r, angle), Point(cx, cy)) == r * r
  {
    var c, s := Cos(angle), Sin(angle);
    calc {
      SquaredDistance(PolarToCartesian(cx, cy, r, angle), Point(cx, cy));
      (r * c) * (r * c) + (r * s) * (r * s);
      r * r * (c * c + s * s);
      r * r;
    }
  }

  /** One command of an SVG path, with numbers instead of text. */
  datatype PathCommand =
    | MoveTo(to: Point)
    | ArcTo(rx: real, ry: real, rotation: real, largeArc: Bit, sweep: Bit, to: Point)
    | LineTo(to: Point)
    | ClosePath

  /** The large-arc flag: set exactly when the swept angle exceeds half a turn. */
  function LargeArcFlag(startAngle: real, endAngle: real): (b: Bit)
    ensures b == 1 <==> endAngle - startAngle > PI
  {
    if endAngle - startAngle > PI then 1 else 0
  }

  /** The shape every donut wedge has: M, A, L, A, Z with matching large-arc flags. */
  ghost predicate IsDonutWedgeShape(d: seq<PathCommand>)
  {
    && |d| == 5
    && d[0].MoveTo?
    && d[1].ArcTo? && d[1].rotation == 0.0 && d[1].sweep == 1
    && d[2].LineTo?
    && d[3].ArcTo? && d[3].rotation == 0.0 && d[3].sweep == 0
    && d[4].ClosePath?
    && d[1].largeArc == d[3].largeArc
  }

  /**
   * The outline of a donut segment: start on the outer circle at startAngle,
   * arc clockwise along the outer circle to endAngle, go straight in to the
   * inner circle, arc counter-clockwise back to startAngle and close.
   */
  function DescribeDonutWedge(cx: real, cy: real, innerR: real, outerR: real,
                              startAngle: real, endAngle: real): (d: seq<PathCommand>)
    ensures IsDonutWedgeShape(d)
    ensures d[1].largeArc == 1 <==> endAngle - startAngle > PI
    ensures d[1].rx == d[1].ry == outerR && d[3].rx == d[3].ry == innerR
  {
    var largeOuter := LargeArcFlag(startAngle, endAngle);
    var largeInner := LargeArcFlag(startAngle, endAngle);
    var p1 := PolarToCartesian(cx, cy, outerR, startAngle);
    var p2 := PolarToCartesian(cx, cy, outerR, endAngle);
    var p3 := PolarToCartesian(cx, cy, innerR, endAngle);
    var p4 := PolarToCartesian(cx, cy, innerR, startAngle);
    [ MoveTo(p1),
      ArcTo(outerR, outerR, 0.0, largeOuter, 1, p2),
      LineTo(p3),
      ArcTo(innerR, innerR, 0.0, largeInner, 0, p4),
      ClosePath ]
  }

  /** A piece of the boundary a path draws. */
  datatype Edge =
    | Arc(from: Point, to: Point, rx: real, ry: real, largeArc: Bit, sweep: Bit)
    | Segment(from: Point, to: Point)

  /**
   * What a path draws, following SVG's rules: `subpathStart` is where the
   * current subpath began (the target of ClosePath), `current` the pen position.
   */
  function Edges(d: seq<PathCommand>, subpathStart: Point, current: Point): (es: seq<Edge>)
    decreases |d|
  {
    if d == [] then []
    else
      match d[0]
      case MoveTo(p) => Edges(d[1..], p, p)
      case ArcTo(rx, ry, _, la, sw, p) => [Arc(current, p, rx, ry, la, sw)] + Edges(d[1..], subpathStart, p)
      case LineTo(p) => [Segment(current, p)] + Edges(d[1..], subpathStart, p)
      case ClosePath => [Segment(current, subpathStart)] + Edges(d[1..], subpathStart, subpathStart)
  }

  function Boundary(d: seq<PathCommand>): (es: seq<Edge>)
  {
    Edges(d, Point(0.0, 0.0), Point(0.0, 0.0))
  }

  /** Consecutive edges share their endpoints and the last edge ends where the first began. */
  ghost predicate IsClosedLoop(es: seq<Edge>)
  {
    && |es| > 0
    && (forall i :: 0 <= i < |es| - 1 ==> es[i].to == es[i + 1].from)
    && es[|es| - 1].to == es[0].from
  }

  /**
   * Reading the wedge path back gives its four corners -- each the polar
   * projection at the stated radius and angle -- joined by the outer arc, the
   * radial line at endAngle, the inner arc and the closing radial line at startAngle.
   */
  lemma {:induction false} WedgeBoundary(cx: real, cy: real, innerR: real, outerR: real,
                                         startAngle: real, endAngle: real)
    ensures
      var large := LargeArcFlag(startAngle, endAngle);
      var p1 := PolarToCartesian(cx, cy, outerR, startAngle);
      var p2 := PolarToCartesian(cx, cy, outerR, endAngle);
      var p3 := PolarToCartesian(cx, cy, innerR, endAngle);
      var p4 := PolarToCartesian(cx, cy, innerR, startAngle);
      Boundary(DescribeDonutWedge(cx, cy, innerR, outerR, startAngle, endAngle))
        == [Arc(p1, p2, outerR, outerR, large, 1), Segment(p2, p3),
            Arc(p3, p4, innerR, innerR, large, 0), Segment(p4, p1)]
  {
    var d := DescribeDonutWedge(cx, cy, innerR, outerR, startAngle, endAngle);
    var p1 := PolarToCartesian(cx, cy, outerR, startAngle);
    var p2 := PolarToCartesian(cx, cy, outerR, endAngle);
    var p3 := PolarToCartesian(cx, cy, innerR, endAngle);
    var p4 := PolarToCartesian(cx, cy, innerR, startAngle);
    var large := LargeArcFlag(startAngle, endAngle);
    var o := Point(0.0, 0.0);
    assert d[4..] == [ClosePath];
    assert Edges(d[4..], p1, p4) == [Segment(p4, p1)] by {
      assert d[4..][1..] == [];
    }
    assert Edges(d[3..], p1, p3) == [Arc(p3, p4, innerR, innerR, large, 0), Segment(p4, p1)] by {
      assert d[3..][1..] == d[4..];
    }
    assert Edges(d[2..], p1, p2) == [Segment(p2, p3), Arc(p3, p4, innerR, innerR, large, 0), Segment(p4, p1)] by {
      assert d[2..][1..] == d[3..];
    }
    assert Edges(d[1..], p1, p1) == [Arc(p1, p2, outerR, outerR, large, 1), Segment(p2, p3),
                                     Arc(p3, p4, innerR, innerR, large, 0), Segment(p4, p1)] by {
      assert d[1..][1..] == d[2..];
    }
    assert Edges(d, o, o) == Edges(d[1..], p1, p1);
  }

  lemma WedgeBoundaryClosed(cx: real, cy: real, innerR: real, outerR: real,
                            startAngle: real, endAngle: real)
    ensures IsClosedLoop(Boundary(DescribeDonutWedge(cx, cy, innerR, outerR, startAngle, endAngle)))
  {
    WedgeBoundary(cx, cy, innerR, outerR, startAngle, endAngle);
  }

  /** Under cos^2 + sin^2 = 1 at both angles, the two arcs run on circles of radius outerR and innerR. */
  lemma WedgeCornersOnCircles(cx: real, cy: real, innerR: real, outerR: real,
                              startAngle: real, endAngle: real)
    requires OnUnitCircle(startAngle) && OnUnitCircle(endAngle)
    ensures
      var es := Boundary(DescribeDonutWedge(cx, cy, innerR, outerR, startAngle, endAngle));
      && |es| == 4
      && SquaredDistance(es[0].from, Point(cx, cy)) == outerR * outerR
      && SquaredDistance(es[0].to, Point(cx, cy)) == outerR * outerR
      && SquaredDistance(es[2].from, Point(cx, cy)) == innerR * innerR
      && SquaredDistance(es[2].to, Point(cx, cy)) == innerR * innerR
  {
    WedgeBoundary(cx, cy, innerR, outerR, startAngle, endAngle);
    PolarDistance(cx, cy, outerR, startAngle);
    PolarDistance(cx, cy, outerR, endAngle);
    PolarDistance(cx, cy, innerR, startAngle);
    PolarDistance(cx, cy, innerR, endAngle);
  }
}
