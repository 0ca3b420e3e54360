/**
 * The subcategory fan of an open category: a donut wedge just outside the
 * ring, centred on the category's own ring angle, wide enough to hold one
 * icon per subcategory, with the icons spread evenly from one end to the other.
 */
module SubArc {
  import opened Wrappers
  import opened Geometry
  import opened MenuTypes

  /** Math.max and Math.min on two numbers. */
  function Max(a: real, b: real): (m: real)
    ensures m >= a && m >= b && (m == a || m == b)
  {
    if a >= b then a else b
  }

  function Min(a: real, b: real): (m: real)
    ensures m <= a && m <= b && (m == a || m == b)
  {
    if a <= b then a else b
  }

  /** The smallest radial depth of the wedge, in pixels. */
  const BandFloor: real := 48.0
  /** The span of a wedge holding at most one icon is at least this many degrees. */
  const SingleSpanFloorDeg: real := 10.0
  /** The padding added to the span of a wedge holding several icons, in degrees. */
  const PaddingDeg: real := 12.0

  datatype Radii = Radii(arcInner: real, arcOuter: real, mid: real)

  /** The wedge begins gapBetween outside the ring and is max(1.2 itemSize, 48) deep; icons sit half way. */
  function WedgeRadii(outerRadius: real, gapBetween: real, itemSize: real): (w: Radii)
    ensures w.arcInner == outerRadius + gapBetween
    ensures w.arcOuter - w.arcInner == Max(itemSize * 1.2, BandFloor) >= BandFloor
    ensures w.arcInner < w.mid < w.arcOuter
    ensures w.mid - w.arcInner == w.arcOuter - w.mid
  {
    var arcInner := outerRadius + gapBetween;
    var arcOuter := arcInner + Max(itemSize * 1.2, BandFloor);
    Radii(arcInner, arcOuter, (arcInner + arcOuter) / 2.0)
  }

  /** The number of icon slots: the number of subcategories, but never less than one. */
  function SlotCount(subs: seq<Subcategory>): (n: nat)
    ensures n >= 1 && n >= |subs|
    ensures |subs| >= 1 ==> n == |subs|
    ensures |subs| == 0 ==> n == 1
  {
    if |subs| >= 1 then |subs| else 1
  }

  /** The radius at which arc length is turned into an angle: the mid radius, but at least 1. */
  function SpanRadius(midR: real): (r: real)
    ensures r >= 1.0 && r >= midR
    ensures r == 1.0 || r == midR
  {
    Max(1.0, midR)
  }

  /** The angle needed for n icons of width itemSize set iconSpacing apart along the mid radius. */
  function RequiredAngle(n: nat, itemSize: real, iconSpacing: real, midR: real): (a: real)
  {
    (n - 1) as real * (itemSize + iconSpacing) / SpanRadius(midR)
  }

  /**
   * The angular span of the wedge, in radians. At most one slot: max(10, minSpanDeg)
   * degrees. Several slots: the required angle plus the padding, raised to
   * minSpanDeg and then lowered to maxSpanDeg.
   */
  function SpanRad(n: nat, itemSize: real, iconSpacing: real, midR: real,
                   minSpanDeg: real, maxSpanDeg: real): (theta: real)
  {
    if n <= 1 then Deg2Rad(Max(SingleSpanFloorDeg, minSpanDeg))
    else Min(Max(RequiredAngle(n, itemSize, iconSpacing, midR) + Deg2Rad(PaddingDeg),
                 Deg2Rad(minSpanDeg)),
             Deg2Rad(maxSpanDeg))
  }

  /** The span as the component computes it: one local variable updated step by step. */
  method ComputeSpanRad(n: nat, itemSize: real, iconSpacing: real, midR: real,
                        minSpanDeg: real, maxSpanDeg: real) returns (theta: real)
    ensures theta == SpanRad(n, itemSize, iconSpacing, midR, minSpanDeg, maxSpanDeg)
    ensures n > 1 ==> theta <= Deg2Rad(maxSpanDeg)
    ensures n <= 1 ==> theta == Deg2Rad(Max(SingleSpanFloorDeg, minSpanDeg))
  {
    var r := Max(1.0, midR);
    if n <= 1 {
      return Deg2Rad(Max(SingleSpanFloorDeg, minSpanDeg));
    }
    var requiredArcLength := (n - 1) as real * (itemSize + iconSpacing);
    theta := requiredArcLength / r;
    var padRad := Deg2Rad(PaddingDeg);
    theta := theta + padRad;
    var minRad := Deg2Rad(minSpanDeg);
    var maxRad := Deg2Rad(maxSpanDeg);
    if theta < minRad {
      theta := minRad;
    }
    if theta > maxRad {
      theta := maxRad;
    }
  }

  /** With no subcategory or one, the span is the same, never below 10 degrees or minSpanDeg, and maxSpanDeg plays no part. */
  lemma SpanOfSingleSlot(n: nat, itemSize: real, iconSpacing: real, midR: real,
                         minSpanDeg: real, maxSpanDeg: real, otherMaxSpanDeg: real)
    requires n <= 1
    ensures SpanRad(n, itemSize, iconSpacing, midR, minSpanDeg, maxSpanDeg)
         == SpanRad(1, itemSize, iconSpacing, midR, minSpanDeg, otherMaxSpanDeg)
    ensures SpanRad(n, itemSize, iconSpacing, midR, minSpanDeg, maxSpanDeg) >= Deg2Rad(SingleSpanFloorDeg)
    ensures SpanRad(n, itemSize, iconSpacing, midR, minSpanDeg, maxSpanDeg) >= Deg2Rad(minSpanDeg)
  {
    var m := Max(SingleSpanFloorDeg, minSpanDeg);
    Deg2RadMonotonic(SingleSpanFloorDeg, m);
    Deg2RadMonotonic(minSpanDeg, m);
  }

  /** With several slots the span never exceeds maxSpanDeg, and never falls below minSpanDeg when minSpanDeg <= maxSpanDeg. */
  lemma SpanBounds(n: nat, itemSize: real, iconSpacing: real, midR: real,
                   minSpanDeg: real, maxSpanDeg: real)
    requires n > 1
    ensures SpanRad(n, itemSize, iconSpacing, midR, minSpanDeg, maxSpanDeg) <= Deg2Rad(maxSpanDeg)
    ensures minSpanDeg <= maxSpanDeg ==>
              Deg2Rad(minSpanDeg) <= SpanRad(n, itemSize, iconSpacing, midR, minSpanDeg, maxSpanDeg)
    ensures minSpanDeg > maxSpanDeg ==>
              SpanRad(n, itemSize, iconSpacing, midR, minSpanDeg, maxSpanDeg) == Deg2Rad(maxSpanDeg)
  {
    Deg2RadMonotonic(minSpanDeg, maxSpanDeg);
  }

  /** Inside the clamp bounds the span is exactly (n - 1)(itemSize + iconSpacing) / max(1, mid) plus 12 degrees. */
  lemma SpanUnclamped(n: nat, itemSize: real, iconSpacing: real, midR: real,
                      minSpanDeg: real, maxSpanDeg: real)
    requires n > 1
    requires Deg2Rad(minSpanDeg) <= RequiredAngle(n, itemSize, iconSpacing, midR) + Deg2Rad(PaddingDeg) <= Deg2Rad(maxSpanDeg)
    ensures SpanRad(n, itemSize, iconSpacing, midR, minSpanDeg, maxSpanDeg)
         == (n - 1) as real * (itemSize + iconSpacing) / Max(1.0, midR) + 12.0 * PI / 180.0
  {
  }

  /**
   * Four icons 56 wide with spacing 15 on a mid radius of 150: for any value of
   * pi between 3 and 3.2 neither clamp applies and the span is 3 * 71 / 150
   * radians plus 12 degrees.
   */
  lemma SpanOfFourIcons()
    requires 3.0 <= PI <= 3.2
    ensures SpanRad(4, 56.0, 15.0, 150.0, 12.0, 160.0) == 3.0 * 71.0 / 150.0 + Deg2Rad(12.0)
  {
    SpanUnclamped(4, 56.0, 15.0, 150.0, 12.0, 160.0);
  }

  /** More icons never need less angle, as long as icon width plus spacing is not negative. */
  lemma {:induction false} RequiredAngleMonotonic(n: nat, m: nat, itemSize: real, iconSpacing: real, midR: real)
    requires 1 <= n <= m
    requires itemSize + iconSpacing >= 0.0
    ensures RequiredAngle(n, itemSize, iconSpacing, midR) <= RequiredAngle(m, itemSize, iconSpacing, midR)
  {
    var k := itemSize + iconSpacing;
    var r := SpanRadius(midR);
    MulMonotonic((n - 1) as real, (m - 1) as real, k);
    DivMonotonic((n - 1) as real * k, (m - 1) as real * k, r);
  }

  /** For several slots, the span is non-decreasing in the number of slots. */
  lemma SpanMonotonic(n: nat, m: nat, itemSize: real, iconSpacing: real, midR: real,
                      minSpanDeg: real, maxSpanDeg: real)
    requires 1 < n <= m
    requires itemSize + iconSpacing >= 0.0
    ensures SpanRad(n, itemSize, iconSpacing, midR, minSpanDeg, maxSpanDeg)
         <= SpanRad(m, itemSize, iconSpacing, midR, minSpanDeg, maxSpanDeg)
  {
    RequiredAngleMonotonic(n, m, itemSize, iconSpacing, midR);
  }

  /** The single-slot span ignores maxSpanDeg, so it can be wider than maxSpanDeg allows. */
  lemma SingleSlotSpanCanExceedMax()
    ensures SpanRad(1, 56.0, 28.0, 249.6, 12.0, 5.0) > Deg2Rad(5.0)
  {
    Deg2RadMonotonic(5.0, 12.0);
  }

  /** The angle the wedge is centred on: the looked-up ring angle, or 0 without a position. */
  function CenterAngle(pos: Option<RingPosition>): (a: real)
    ensures pos.Some? ==> a == pos.value.angle
    ensures pos.None? ==> a == 0.0
  {
    if pos.Some? then pos.value.angle else 0.0
  }

  datatype Bounds = Bounds(startAngle: real, endAngle: real)

  /** The start and end angles: spanRad apart and symmetric about centerAngle. */
  function WedgeAngles(centerAngle: real, spanRad: real): (b: Bounds)
    ensures b.endAngle - b.startAngle == spanRad
    ensures (b.startAngle + b.endAngle) / 2.0 == centerAngle
  {
    Bounds(centerAngle - spanRad / 2.0, centerAngle + spanRad / 2.0)
  }

  /** Two angles are the wedge's bounds exactly when they are spanRad apart with midpoint centerAngle. */
  lemma WedgeAnglesCharacterised(centerAngle: real, spanRad: real, b: Bounds)
    ensures b == WedgeAngles(centerAngle, spanRad)
        <==> b.endAngle - b.startAngle == spanRad && (b.startAngle + b.endAngle) / 2.0 == centerAngle
  {
  }

  /** One angle per slot: the centre for a single slot, else evenly from startAngle to endAngle. */
  function IconAngles(n: nat, centerAngle: real, startAngle: real, endAngle: real): (r: seq<real>)
    ensures |r| == n
  {
    if n == 1 then [centerAngle]
    else seq(n, i => startAngle + (i as real / (n - 1) as real) * (endAngle - startAngle))
  }

  /**
   * For several slots the first angle is startAngle, the last endAngle, and
   * neighbours are (endAngle - startAngle) / (n - 1) apart.
   */
  lemma IconAnglesSpread(n: nat, centerAngle: real, startAngle: real, endAngle: real)
    requires n > 1
    ensures var r := IconAngles(n, centerAngle, startAngle, endAngle);
      && r[0] == startAngle
      && r[n - 1] == endAngle
      && forall i :: 0 <= i < n - 1 ==> r[i + 1] - r[i] == (endAngle - startAngle) / (n - 1) as real
  {
    var r := IconAngles(n, centerAngle, startAngle, endAngle);
    var d := (n - 1) as real;
    var s := endAngle - startAngle;
    IconAngleAt(n, centerAngle, startAngle, endAngle, 0);
    ZeroQuotient(d);
    ZeroTimes(s);
    IconAngleAt(n, centerAngle, startAngle, endAngle, n - 1);
    QuotientOfSelf(d);
    OneTimes(s);
    forall i | 0 <= i < n - 1
      ensures r[i + 1] - r[i] == s / d
    {
      IconAngleAt(n, centerAngle, startAngle, endAngle, i);
      IconAngleAt(n, centerAngle, startAngle, endAngle, i + 1);
      var ti, tj := i as real / d, (i + 1) as real / d;
      Distribute(tj, ti, s);
      DiffOfQuotients((i + 1) as real, i as real, d);
      assert (i + 1) as real - i as real == 1.0;
      ReciprocalTimes(s, d);
    }
  }

  /** When the span is positive the icon angles strictly increase. */
  lemma IconAnglesIncreasing(n: nat, centerAngle: real, startAngle: real, endAngle: real, i: nat, j: nat)
    requires n > 1 && startAngle < endAngle
    requires i < j < n
    ensures IconAngles(n, centerAngle, startAngle, endAngle)[i] < IconAngles(n, centerAngle, startAngle, endAngle)[j]
  {
    var r := IconAngles(n, centerAngle, startAngle, endAngle);
    var d := (n - 1) as real;
    var ti, tj, s := i as real / d, j as real / d, endAngle - startAngle;
    IconAngleAt(n, centerAngle, startAngle, endAngle, i);
    IconAngleAt(n, centerAngle, startAngle, endAngle, j);
    DivStrict(i as real, j as real, d);
    MulStrict(ti, tj, s);
    assert r[i] == startAngle + ti * s && r[j] == startAngle + tj * s;
  }

  /** On the wedge's own bounds the icon angles are symmetric about the centre angle. */
  lemma IconAnglesSymmetric(n: nat, centerAngle: real, spanRad: real, i: nat)
    requires i < n
    ensures var b := WedgeAngles(centerAngle, spanRad);
      var r := IconAngles(n, centerAngle, b.startAngle, b.endAngle);
      r[i] + r[n - 1 - i] == 2.0 * centerAngle
  {
    var b := WedgeAngles(centerAngle, spanRad);
    if n > 1 {
      var d := (n - 1) as real;
      var t, u := i as real / d, (n - 1 - i) as real / d;
      IconAngleAt(n, centerAngle, b.startAngle, b.endAngle, i);
      IconAngleAt(n, centerAngle, b.startAngle, b.endAngle, n - 1 - i);
      SumOfQuotients(i as real, (n - 1 - i) as real, d);
      assert i as real + (n - 1 - i) as real == d;
      QuotientOfSelf(d);
      Distribute(t, u, spanRad);
      OneTimes(spanRad);
    }
  }

  /** Entry i of the icon angles for several slots, written out. */
  lemma IconAngleAt(n: nat, centerAngle: real, startAngle: real, endAngle: real, i: nat)
    requires 1 < n && i < n
    ensures IconAngles(n, centerAngle, startAngle, endAngle)[i]
         == startAngle + (i as real / (n - 1) as real) * (endAngle - startAngle)
  {
  }

  // Single steps of real arithmetic, each kept on its own so that the lemmas
  // above never leave a product or quotient for the solver to rearrange.

  lemma MulMonotonic(a: real, b: real, k: real)
    requires a <= b && k >= 0.0
    ensures a * k <= b * k
  {
    assert b * k - a * k == (b - a) * k;
  }

  lemma MulStrict(a: real, b: real, k: real)
    requires a < b && k > 0.0
    ensures a * k < b * k
  {
    assert b * k - a * k == (b - a) * k;
  }

  lemma DivMonotonic(a: real, b: real, r: real)
    requires a <= b && r > 0.0
    ensures a / r <= b / r
  {
    DiffOfQuotients(b, a, r);
  }

  lemma DivStrict(a: real, b: real, r: real)
    requires a < b && r > 0.0
    ensures a / r < b / r
  {
    DiffOfQuotients(b, a, r);
  }

  lemma SumOfQuotients(a: real, b: real, d: real)
    requires d > 0.0
    ensures a / d + b / d == (a + b) / d
  {
  }

  lemma DiffOfQuotients(a: real, b: real, d: real)
    requires d > 0.0
    ensures a / d - b / d == (a - b) / d
    ensures a > b ==> (a - b) / d > 0.0
    ensures a >= b ==> (a - b) / d >= 0.0
  {
  }

  lemma QuotientOfSelf(d: real)
    requires d > 0.0
    ensures d / d == 1.0
  {
  }

  lemma ZeroQuotient(d: real)
    requires d > 0.0
    ensures 0.0 / d == 0.0
  {
  }

  lemma Distribute(t: real, u: real, s: real)
    ensures t * s + u * s == (t + u) * s
    ensures t * s - u * s == (t - u) * s
  {
  }

  lemma OneTimes(s: real)
    ensures 1.0 * s == s
  {
  }

  lemma ZeroTimes(s: real)
    ensures 0.0 * s == 0.0
  {
  }

  lemma ReciprocalTimes(s: real, d: real)
    requires d > 0.0
    ensures (1.0 / d) * s == s / d
  {
  }

  /** A subcategory icon: its id and its centre on the mid radius. */
  datatype SubIcon = SubIcon(id: string, center: Point)

  function SubIcons(subs: seq<Subcategory>, half: real, midR: real, angles: seq<real>): (icons: seq<SubIcon>)
    requires |subs| <= |angles|
    ensures |icons| == |subs|
    ensures forall idx :: 0 <= idx < |subs| ==>
              icons[idx] == SubIcon(subs[idx].id, PolarToCartesian(half, half, midR, angles[idx]))
  {
    seq(|subs|, idx requires 0 <= idx < |subs| => SubIcon(subs[idx].id, PolarToCartesian(half, half, midR, angles[idx])))
  }

  /** The sizing inputs of the component; the ones the menu does not pass take their defaults. */
  datatype Props = Props(half: real, outerRadius: real, itemSize: real, gapBetween: real,
                         iconSpacing: real, minSpanDeg: real, maxSpanDeg: real)

  function WithDefaults(half: real, outerRadius: real, itemSize: real): (p: Props)
    ensures p.gapBetween == 40.0 && p.iconSpacing == 28.0
    ensures p.minSpanDeg == 12.0 && p.maxSpanDeg == 160.0
    ensures p.half == half && p.outerRadius == outerRadius && p.itemSize == itemSize
  {
    Props(half, outerRadius, itemSize, 40.0, 28.0, 12.0, 160.0)
  }

  /** What the position lookup callback does: return a position or nothing, or throw. */
  datatype Lookup = Returned(result: Option<RingPosition>) | Threw

  /** The category's ring position; nothing without a category, on an empty result or on a throw. */
  function Position(category: Option<Category>, getPositionById: string -> Lookup): (pos: Option<RingPosition>)
    ensures pos.Some? <==> category.Some? && getPositionById(category.value.id).Returned?
                           && getPositionById(category.value.id).result.Some?
    ensures pos.Some? ==> pos == getPositionById(category.value.id).result
  {
    if category.None? then None
    else match getPositionById(category.value.id)
      case Threw => None
      case Returned(r) => r
  }

  /** All the component draws: the wedge radii and bounds, its outline, and one icon per subcategory. */
  datatype Wedge = Wedge(radii: Radii, spanRad: real, bounds: Bounds,
                         path: seq<PathCommand>, iconAngles: seq<real>, icons: seq<SubIcon>)

  /** The subcategories the component reads (none without a category). */
  function Subs(category: Option<Category>): (subs: seq<Subcategory>)
  {
    if category.Some? then category.value.subcategories else []
  }

  /** The wedge the component renders, or nothing when it has no category or no position. */
  function Render(category: Option<Category>, getPositionById: string -> Lookup, p: Props): (w: Option<Wedge>)
    ensures w.None? <==> Position(category, getPositionById).None?
    ensures w.Some? ==>
      var pos := Position(category, getPositionById).value;
      var wedge := w.value;
      && wedge.bounds.endAngle - wedge.bounds.startAngle == wedge.spanRad
      && (wedge.bounds.startAngle + wedge.bounds.endAngle) / 2.0 == pos.angle
      && wedge.path == DescribeDonutWedge(p.half, p.half, wedge.radii.arcInner, wedge.radii.arcOuter,
                                          wedge.bounds.startAngle, wedge.bounds.endAngle)
      && wedge.iconAngles == IconAngles(SlotCount(category.value.subcategories), pos.angle,
                                        wedge.bounds.startAngle, wedge.bounds.endAngle)
      && |wedge.icons| == |category.value.subcategories| <= |wedge.iconAngles|
      && (forall idx :: 0 <= idx < |wedge.icons| ==>
            && wedge.icons[idx].id == category.value.subcategories[idx].id
            && wedge.icons[idx].center == PolarToCartesian(p.half, p.half, wedge.radii.mid, wedge.iconAngles[idx]))
      && wedge.radii == WedgeRadii(p.outerRadius, p.gapBetween, p.itemSize)
      && wedge.spanRad == SpanRad(SlotCount(category.value.subcategories), p.itemSize, p.iconSpacing,
                                  wedge.radii.mid, p.minSpanDeg, p.maxSpanDeg)
  {
    var pos := Position(category, getPositionById);
    var radii := WedgeRadii(p.outerRadius, p.gapBetween, p.itemSize);
    var subs := Subs(category);
    var n := SlotCount(subs);
    var spanRad := SpanRad(n, p.itemSize, p.iconSpacing, radii.mid, p.minSpanDeg, p.maxSpanDeg);
    var centerAngle := CenterAngle(pos);
    var bounds := WedgeAngles(centerAngle, spanRad);
    var path := DescribeDonutWedge(p.half, p.half, radii.arcInner, radii.arcOuter, bounds.startAngle, bounds.endAngle);
    var iconAngles := IconAngles(n, centerAngle, bounds.startAngle, bounds.endAngle);
    if category.None? || pos.None? then None
    else Some(Wedge(radii, spanRad, bounds, path, iconAngles, SubIcons(subs, p.half, radii.mid, iconAngles)))
  }

  /**
   * Where the rendered icons sit: a single icon on the mid radius at the
   * category's own angle; with several, the first at the wedge's start angle
   * and the last at its end angle, in strictly increasing angle order when
   * the span is positive, and placed symmetrically about the category's angle.
   */
  lemma RenderedIconPlacement(category: Option<Category>, getPositionById: string -> Lookup, p: Props)
    requires Render(category, getPositionById, p).Some?
    ensures var w := Render(category, getPositionById, p).value;
      var pos := Position(category, getPositionById).value;
      var m := |w.icons|;
      && (m == 1 ==> w.icons[0].center == PolarToCartesian(p.half, p.half, w.radii.mid, pos.angle))
      && (m > 1 ==>
            && w.icons[0].center == PolarToCartesian(p.half, p.half, w.radii.mid, w.bounds.startAngle)
            && w.icons[m - 1].center == PolarToCartesian(p.half, p.half, w.radii.mid, w.bounds.endAngle))
      && (m > 1 && w.spanRad > 0.0 ==>
            forall i, j :: 0 <= i < j < m ==> w.iconAngles[i] < w.iconAngles[j])
      && (forall i :: 0 <= i < m ==> w.iconAngles[i] + w.iconAngles[m - 1 - i] == 2.0 * pos.angle)
  {
    var w := Render(category, getPositionById, p).value;
    var pos := Position(category, getPositionById).value;
    var m := |w.icons|;
    var b := w.bounds;
    assert b == WedgeAngles(pos.angle, w.spanRad);
    if m > 1 {
      IconAnglesSpread(m, pos.angle, b.startAngle, b.endAngle);
      if w.spanRad > 0.0 {
        forall i, j | 0 <= i < j < m
          ensures w.iconAngles[i] < w.iconAngles[j]
        {
          IconAnglesIncreasing(m, pos.angle, b.startAngle, b.endAngle, i, j);
        }
      }
    }
    forall i | 0 <= i < m
      ensures w.iconAngles[i] + w.iconAngles[m - 1 - i] == 2.0 * pos.angle
    {
      IconAnglesSymmetric(m, pos.angle, w.spanRad, i);
    }
  }

  /**
   * With the default props on the default ring (radius 176, icons 56 wide) the
   * wedge runs from 216 to 283.2 with icons at 249.6; a single icon gets
   * 12 degrees and several never get more than 160 degrees.
   */
  lemma DefaultWedge(n: nat)
    ensures var p := WithDefaults(210.0, 176.0, 56.0);
      var radii := WedgeRadii(p.outerRadius, p.gapBetween, p.itemSize);
      && radii == Radii(216.0, 283.2, 249.6)
      && (n <= 1 ==> SpanRad(n, p.itemSize, p.iconSpacing, radii.mid, p.minSpanDeg, p.maxSpanDeg) == Deg2Rad(12.0))
      && (n > 1 ==> Deg2Rad(12.0) <= SpanRad(n, p.itemSize, p.iconSpacing, radii.mid, p.minSpanDeg, p.maxSpanDeg)
                                  <= Deg2Rad(160.0))
  {
    var p := WithDefaults(210.0, 176.0, 56.0);
    var radii := WedgeRadii(p.outerRadius, p.gapBetween, p.itemSize);
    if n > 1 {
      SpanBounds(n, p.itemSize, p.iconSpacing, radii.mid, p.minSpanDeg, p.maxSpanDeg);
    }
  }
}
