/**
 * The radial menu itself: the sizes it derives from its props, the ring
 * layout of its categories, the lookup of a ring position by id, the
 * hover/open state its buttons update, and the sub-arc it shows for the open
 * category.
 */
module InteractionMenu {
  import opened Wrappers
  import opened Geometry
  import opened MenuTypes
  import SubArc

  /** Default props of the component. */
  const DefaultSize: real := 420.0
  const DefaultItemSize: real := 56.0
  const DefaultRingThickness: real := 40.0

  /** Pixels kept free between a ring button and the edge of the widget. */
  const RingMargin: real := 6.0

  datatype RingRadii = RingRadii(half: real, outerRadius: real, innerRadius: real)

  /**
   * The ring geometry: buttons are centred on the outer radius and keep
   * RingMargin pixels clear of the widget's edge; the inner radius lies
   * ringThickness further in.
   */
  function MenuRadii(size: real, itemSize: real, ringThickness: real): (r: RingRadii)
    ensures r.half * 2.0 == size
    ensures r.outerRadius + itemSize / 2.0 + RingMargin == r.half
    ensures r.outerRadius - r.innerRadius == ringThickness
    ensures ringThickness > 0.0 <==> r.innerRadius < r.outerRadius
  {
    var outerRadius := size / 2.0 - itemSize / 2.0 - RingMargin;
    RingRadii(size / 2.0, outerRadius, outerRadius - ringThickness)
  }

  /** The number of ring slots the angle step is based on: the category count, or 1 for an empty list. */
  function RingDivisor(count: nat): (n: nat)
    ensures n >= 1
    ensures count > 0 ==> n == count
  {
    if count == 0 then 1 else count
  }

  /** The angle of slot i out of n: the 12 o'clock position, then 2 pi / n per slot. */
  function RingAngle(i: nat, n: nat): (a: real)
    requires n >= 1
  {
    Deg2Rad(-90.0) + i as real * (2.0 * PI / n as real)
  }

  /** One ring entry per category, in the categories' order, on the circle of radius outerRadius about (half, half). */
  function CategoryPositions(categories: seq<Category>, half: real, outerRadius: real): (ps: seq<RingPosition>)
    ensures |ps| == |categories|
    ensures forall i :: 0 <= i < |ps| ==> ps[i].id == categories[i].id && ps[i].category == categories[i]
  {
    var n := RingDivisor(|categories|);
    seq(|categories|, i requires 0 <= i < |categories| =>
      var angle := RingAngle(i, n);
      var p := PolarToCartesian(half, half, outerRadius, angle);
      RingPosition(categories[i].id, angle, p.x, p.y, categories[i]))
  }

  /**
   * The first entry sits at -pi/2, neighbours are 2 pi / N apart, and one more
   * step after the last entry comes back to the first one a full turn later.
   */
  lemma RingAngles(categories: seq<Category>, half: real, outerRadius: real)
    requires |categories| >= 1
    ensures var ps := CategoryPositions(categories, half, outerRadius);
      var step := 2.0 * PI / |categories| as real;
      && ps[0].angle == -(PI as real) / 2.0
      && (forall i :: 0 <= i < |ps| - 1 ==> ps[i + 1].angle - ps[i].angle == step)
      && ps[|ps| - 1].angle + step == ps[0].angle + 2.0 * PI
  {
    var ps := CategoryPositions(categories, half, outerRadius);
    var n := |categories|;
    Deg2RadHalfTurn();
    forall i | 0 <= i < n - 1
      ensures ps[i + 1].angle - ps[i].angle == 2.0 * PI / n as real
    {
      RingAngleStep(i, n);
    }
    RingAngleFullTurn(n);
  }

  lemma RingAngleStep(i: nat, n: nat)
    requires n >= 1
    ensures RingAngle(i + 1, n) - RingAngle(i, n) == 2.0 * PI / n as real
  {
    var step := 2.0 * PI / n as real;
    assert (i + 1) as real * step == i as real * step + step;
  }

  lemma RingAngleFullTurn(n: nat)
    requires n >= 1
    ensures RingAngle(n - 1, n) + 2.0 * PI / n as real == RingAngle(0, n) + 2.0 * PI
  {
    var step := 2.0 * PI / n as real;
    assert n as real * step == 2.0 * PI;
    assert (n - 1) as real * step + step == n as real * step;
  }

  /** Each entry's centre is the polar projection of its angle on the ring. */
  lemma RingPoints(categories: seq<Category>, half: real, outerRadius: real, i: nat)
    requires i < |categories|
    ensures var e := CategoryPositions(categories, half, outerRadius)[i];
      && Point(e.x, e.y) == PolarToCartesian(half, half, outerRadius, e.angle)
      && (OnUnitCircle(e.angle) ==>
            SquaredDistance(Point(e.x, e.y), Point(half, half)) == outerRadius * outerRadius)
  {
    var e := CategoryPositions(categories, half, outerRadius)[i];
    if OnUnitCircle(e.angle) {
      PolarDistance(half, half, outerRadius, e.angle);
    }
  }

  /**
   * Six categories on a ring of radius 200: the first sits straight above the
   * centre and the fourth straight below it, given the values of cos and sin
   * at -pi/2 and pi/2.
   */
  lemma SixCategoryRing(categories: seq<Category>, half: real)
    requires |categories| == 6
    requires Cos(-(PI as real) / 2.0) == 0.0 && Sin(-(PI as real) / 2.0) == -1.0
    requires Cos(PI / 2.0) == 0.0 && Sin(PI / 2.0) == 1.0
    ensures var ps := CategoryPositions(categories, half, 200.0);
      && ps[0].x == half && ps[0].y == half - 200.0
      && ps[3].x == half && ps[3].y == half + 200.0
  {
    Deg2RadHalfTurn();
    var ps := CategoryPositions(categories, half, 200.0);
    assert ps[3].angle == -(PI as real) / 2.0 + 3.0 * (2.0 * PI / 6.0);
    assert ps[3].angle == PI / 2.0;
  }

  /** The index of the first element that satisfies p, as Array.prototype.findIndex. */
  function FindIndex<T>(s: seq<T>, p: T -> bool): (r: Option<nat>)
    ensures r.Some? ==> r.value < |s| && p(s[r.value]) && forall j :: 0 <= j < r.value ==> !p(s[j])
    ensures r.None? ==> forall j :: 0 <= j < |s| ==> !p(s[j])
  {
    if |s| == 0 then None
    else if p(s[0]) then Some(0)
    else match FindIndex(s[1..], p)
      case None => None
      case Some(k) => Some(k + 1)
  }

  /** The first element that satisfies p, or nothing, as Array.prototype.find. */
  function Find<T>(s: seq<T>, p: T -> bool): (r: Option<T>)
    ensures r.Some? <==> exists j :: 0 <= j < |s| && p(s[j])
    ensures r.Some? ==> FindIndex(s, p).Some? && r.value == s[FindIndex(s, p).value]
  {
    match FindIndex(s, p)
    case None => None
    case Some(k) => Some(s[k])
  }

  /** getPosById: the first ring entry carrying the id. */
  function GetPosById(ps: seq<RingPosition>, id: string): (r: Option<RingPosition>)
  {
    Find(ps, (q: RingPosition) => q.id == id)
  }

  /** The first category carrying the id. */
  function CategoryById(categories: seq<Category>, id: string): (r: Option<Category>)
  {
    Find(categories, (c: Category) => c.id == id)
  }

  /** Looking an id up returns the first entry with that id, and nothing exactly when no entry has it. */
  lemma GetPosByIdFirstMatch(ps: seq<RingPosition>, id: string)
    ensures GetPosById(ps, id).None? <==> forall j :: 0 <= j < |ps| ==> ps[j].id != id
    ensures GetPosById(ps, id).Some? ==>
      exists k :: 0 <= k < |ps| && GetPosById(ps, id) == Some(ps[k]) && ps[k].id == id
                  && forall j :: 0 <= j < k ==> ps[j].id != id
  {
    var p := (q: RingPosition) => q.id == id;
    var r := FindIndex(ps, p);
    if r.Some? {
      var k := r.value;
      assert forall j :: 0 <= j < k ==> !p(ps[j]);
    } else {
      assert forall j :: 0 <= j < |ps| ==> !p(ps[j]);
    }
  }

  /**
   * The ring layout keeps the categories' order, so looking an id up among
   * the ring entries lands on the same index as looking it up among the
   * categories, and the entry found carries the category found.
   */
  lemma {:induction false} PositionLookupAgrees(categories: seq<Category>, half: real, outerRadius: real, id: string)
    ensures var ps := CategoryPositions(categories, half, outerRadius);
      FindIndex(ps, (q: RingPosition) => q.id == id) == FindIndex(categories, (c: Category) => c.id == id)
    ensures var ps := CategoryPositions(categories, half, outerRadius);
      match GetPosById(ps, id)
      case None => CategoryById(categories, id).None?
      case Some(e) => CategoryById(categories, id) == Some(e.category)
  {
    var ps := CategoryPositions(categories, half, outerRadius);
    var p := (q: RingPosition) => q.id == id;
    var c := (c: Category) => c.id == id;
    assert forall j :: 0 <= j < |ps| ==> (p(ps[j]) <==> c(categories[j]));
  }

  /** Hover and open state of the menu: which category is hovered and which is open. */
  datatype InteractionState = InteractionState(hoverId: Option<string>, openId: Option<string>)

  /** What a category button reports: pointer entered it, pointer left it, or it was clicked. */
  datatype Event = MouseEnter(id: string) | MouseLeave(id: string) | Click(id: string)

  /** The state after one button event. */
  function Next(s: InteractionState, e: Event): (t: InteractionState)
  {
    match e
    case MouseEnter(id) => s.(hoverId := Some(id))
    case MouseLeave(id) => s.(hoverId := if s.hoverId == Some(id) then None else s.hoverId)
    case Click(id) => s.(openId := if s.openId == Some(id) then None else Some(id))
  }

  /** The value an event passes to onHover, if it calls onHover at all. */
  function HoverNotice(s: InteractionState, e: Event): (v: Option<Option<string>>)
  {
    match e
    case MouseEnter(id) => Some(Some(id))
    case MouseLeave(_) => Some(None)
    case Click(_) => None
  }

  /**
   * The value an event passes to onSelect, if it calls onSelect at all. The
   * handler reads openId as it was when the button was rendered, which is
   * the state the event starts from.
   */
  function SelectNotice(s: InteractionState, e: Event): (v: Option<Option<string>>)
  {
    match e
    case Click(id) => Some(if s.openId == Some(id) then None else Some(id))
    case _ => None
  }

  /** The calls a handler makes on a callback that may be absent. */
  function Calls(present: bool, notice: Option<Option<string>>): (c: seq<Option<string>>)
    ensures |c| <= 1
    ensures c != [] <==> present && notice.Some?
    ensures c != [] ==> c[0] == notice.value
  {
    if present && notice.Some? then [notice.value] else []
  }

  /** Entering a category makes it the hovered one and reports it; the open category stays. */
  lemma MouseEnterEffect(s: InteractionState, x: string)
    ensures Next(s, MouseEnter(x)).hoverId == Some(x)
    ensures Next(s, MouseEnter(x)).openId == s.openId
    ensures HoverNotice(s, MouseEnter(x)) == Some(Some(x)) && SelectNotice(s, MouseEnter(x)).None?
  {
  }

  /**
   * Leaving X clears the hover exactly when X is the hovered category and
   * leaves it as it was otherwise; onHover(null) is reported either way and
   * the open category stays.
   */
  lemma MouseLeaveEffect(s: InteractionState, x: string)
    ensures Next(s, MouseLeave(x)).hoverId == s.hoverId <==> s.hoverId != Some(x)
    ensures Next(s, MouseLeave(x)).hoverId.None? <==> s.hoverId.None? || s.hoverId == Some(x)
    ensures Next(s, MouseLeave(x)).openId == s.openId
    ensures HoverNotice(s, MouseLeave(x)) == Some(None) && SelectNotice(s, MouseLeave(x)).None?
  {
  }

  /**
   * Clicking X closes it if it was open and opens it otherwise, whatever its
   * subcategories; onSelect receives the new open id; the hover stays. A
   * second click on X restores the state exactly when X was open or nothing
   * was: if another category was open, two clicks on X leave none open.
   */
  lemma ClickEffect(s: InteractionState, x: string)
    ensures Next(s, Click(x)).openId == Some(x) <==> s.openId != Some(x)
    ensures Next(s, Click(x)).openId.None? <==> s.openId == Some(x)
    ensures Next(s, Click(x)).hoverId == s.hoverId
    ensures SelectNotice(s, Click(x)) == Some(Next(s, Click(x)).openId)
    ensures HoverNotice(s, Click(x)).None?
    ensures Next(Next(s, Click(x)), Click(x)) == s <==> s.openId.None? || s.openId == Some(x)
    ensures Next(Next(s, Click(x)), Click(x)).openId == if s.openId == Some(x) then Some(x) else None
  {
  }

  /** The state after a sequence of events, processed in order. */
  function Run(s: InteractionState, es: seq<Event>): (t: InteractionState)
    decreases |es|
  {
    if es == [] then s else Run(Next(s, es[0]), es[1..])
  }

  /**
   * k > 0 clicks on the same category X close every other category, and leave
   * X open exactly when it was open before or k is odd, but not both.
   */
  lemma {:induction false} RepeatedClicks(s: InteractionState, x: string, k: nat)
    ensures Run(s, seq(k, _ => Click(x))).hoverId == s.hoverId
    ensures k > 0 ==> Run(s, seq(k, _ => Click(x))).openId
                      == if (k % 2 == 1) != (s.openId == Some(x)) then Some(x) else None
    decreases k
  {
    var clicks := seq(k, _ => Click(x));
    if k > 0 {
      var rest := seq(k - 1, _ => Click(x));
      assert clicks[1..] == rest;
      assert Run(s, clicks) == Run(Next(s, Click(x)), rest);
      RepeatedClicks(Next(s, Click(x)), x, k - 1);
    }
  }

  /** The component's state: the two useState values and the callbacks' call history. */
  class Menu {
    var hoverId: Option<string>
    var openId: Option<string>
    /** Whether the onHover and onSelect props were given. */
    const hasOnHover: bool
    const hasOnSelect: bool
    /** Every value passed to onHover and to onSelect, oldest first. */
    ghost var hoverCalls: seq<Option<string>>
    ghost var selectCalls: seq<Option<string>>

    function State(): (s: InteractionState)
      reads this
    {
      InteractionState(hoverId, openId)
    }

    constructor (hasOnHover: bool, hasOnSelect: bool)
      ensures this.hasOnHover == hasOnHover && this.hasOnSelect == hasOnSelect
      ensures hoverId.None? && openId.None?
      ensures hoverCalls == [] && selectCalls == []
    {
      this.hasOnHover := hasOnHover;
      this.hasOnSelect := hasOnSelect;
      hoverId, openId := None, None;
      hoverCalls, selectCalls := [], [];
    }

    method OnMouseEnter(id: string)
      modifies this
      ensures State() == Next(old(State()), MouseEnter(id))
      ensures hoverId == Some(id) && openId == old(openId)
      ensures hoverCalls == old(hoverCalls) + Calls(hasOnHover, Some(Some(id)))
      ensures selectCalls == old(selectCalls)
    {
      hoverId := Some(id);
      if hasOnHover {
        hoverCalls := hoverCalls + [Some(id)];
      }
    }

    method OnMouseLeave(id: string)
      modifies this
      ensures State() == Next(old(State()), MouseLeave(id))
      ensures hoverId == (if old(hoverId) == Some(id) then None else old(hoverId))
      ensures openId == old(openId)
      ensures hoverCalls == old(hoverCalls) + Calls(hasOnHover, Some(None))
      ensures selectCalls == old(selectCalls)
    {
      hoverId := if hoverId == Some(id) then None else hoverId;
      if hasOnHover {
        hoverCalls := hoverCalls + [None];
      }
    }

    method OnClick(id: string)
      modifies this
      ensures State() == Next(old(State()), Click(id))
      ensures openId == (if old(openId) == Some(id) then None else Some(id))
      ensures hoverId == old(hoverId)
      ensures selectCalls == old(selectCalls) + Calls(hasOnSelect, Some(openId))
      ensures hoverCalls == old(hoverCalls)
    {
      var renderedOpenId := openId;
      openId := if openId == Some(id) then None else Some(id);
      if hasOnSelect {
        selectCalls := selectCalls + [if renderedOpenId == Some(id) then None else Some(id)];
      }
    }
  }

  /** JavaScript truthiness of an id: present and not the empty string. */
  predicate IsTruthy(id: Option<string>)
  {
    id.Some? && id.value != ""
  }

  /** Whether the sub-arc element is rendered, and with which category. */
  datatype SubArcSlot = NoSubArc | SubArcFor(category: Option<Category>)

  function SubArcElement(openId: Option<string>, categories: seq<Category>): (e: SubArcSlot)
    ensures e.SubArcFor? <==> IsTruthy(openId)
    ensures e.SubArcFor? ==> (e.category.Some? <==> exists j :: 0 <= j < |categories| && categories[j].id == openId.value)
    ensures e.SubArcFor? && e.category.Some? ==> e.category.value.id == openId.value
    ensures e.SubArcFor? && e.category.Some? ==>
      exists k :: 0 <= k < |categories| && e.category.value == categories[k]
                  && forall j :: 0 <= j < k ==> categories[j].id != openId.value
  {
    if IsTruthy(openId) then SubArcFor(CategoryById(categories, openId.value)) else NoSubArc
  }

  /** The wedge the menu shows for its state, with the sub-arc's default spacing props. */
  function ShownWedge(s: InteractionState, categories: seq<Category>,
                      size: real, itemSize: real, ringThickness: real): (w: Option<SubArc.Wedge>)
  {
    var radii := MenuRadii(size, itemSize, ringThickness);
    var ps := CategoryPositions(categories, radii.half, radii.outerRadius);
    match SubArcElement(s.openId, categories)
    case NoSubArc => None
    case SubArcFor(c) =>
      SubArc.Render(c, (id: string) => SubArc.Returned(GetPosById(ps, id)),
                    SubArc.WithDefaults(radii.half, radii.outerRadius, itemSize))
  }

  /**
   * A wedge is shown exactly when the open id is truthy and names a category;
   * it is centred on that category's ring angle (the first category with
   * that id) and holds one icon per subcategory of that category, carrying
   * the subcategory's id and placed on the wedge's mid radius at the icon
   * angles spread over the wedge.
   */
  lemma ShownWedgeMatchesOpenCategory(s: InteractionState, categories: seq<Category>,
                                      size: real, itemSize: real, ringThickness: real)
    ensures var w := ShownWedge(s, categories, size, itemSize, ringThickness);
      w.Some? <==> IsTruthy(s.openId) && exists j :: 0 <= j < |categories| && categories[j].id == s.openId.value
    ensures var w := ShownWedge(s, categories, size, itemSize, ringThickness);
      w.Some? ==>
        var k := FindIndex(categories, (c: Category) => c.id == s.openId.value).value;
        var subs := categories[k].subcategories;
        && (w.value.bounds.startAngle + w.value.bounds.endAngle) / 2.0 == RingAngle(k, |categories|)
        && w.value.iconAngles == SubArc.IconAngles(SubArc.SlotCount(subs), RingAngle(k, |categories|),
                                                   w.value.bounds.startAngle, w.value.bounds.endAngle)
        && |w.value.icons| == |subs| <= |w.value.iconAngles|
        && (forall idx :: 0 <= idx < |subs| ==>
              && w.value.icons[idx].id == subs[idx].id
              && w.value.icons[idx].center
                 == PolarToCartesian(size / 2.0, size / 2.0, w.value.radii.mid, w.value.iconAngles[idx]))
  {
    var radii := MenuRadii(size, itemSize, ringThickness);
    var ps := CategoryPositions(categories, radii.half, radii.outerRadius);
    var w := ShownWedge(s, categories, size, itemSize, ringThickness);
    if IsTruthy(s.openId) {
      var id := s.openId.value;
      PositionLookupAgrees(categories, radii.half, radii.outerRadius, id);
      var lookup := (i: string) => SubArc.Returned(GetPosById(ps, i));
      var c := CategoryById(categories, id);
      if c.Some? {
        assert c.value.id == id;
        assert SubArc.Position(c, lookup) == GetPosById(ps, id);
        var k := FindIndex(categories, (cc: Category) => cc.id == id).value;
        assert GetPosById(ps, id) == Some(ps[k]);
      } else {
        assert SubArc.Position(c, lookup).None?;
      }
    }
  }

  /**
   * Clicking a category without subcategories still opens it, and the menu
   * then shows a wedge with no icons and the single-slot span of 12 degrees.
   */
  lemma ClickOnEmptyCategoryOpensEmptyWedge(s: InteractionState, categories: seq<Category>,
                                            size: real, itemSize: real, ringThickness: real, k: nat)
    requires k < |categories| && categories[k].subcategories == [] && categories[k].id != ""
    requires forall j :: 0 <= j < k ==> categories[j].id != categories[k].id
    requires s.openId != Some(categories[k].id)
    ensures var w := ShownWedge(Next(s, Click(categories[k].id)), categories, size, itemSize, ringThickness);
      && w.Some? && w.value.icons == [] && w.value.spanRad == Deg2Rad(12.0)
  {
    var t := Next(s, Click(categories[k].id));
    var id := categories[k].id;
    ShownWedgeMatchesOpenCategory(t, categories, size, itemSize, ringThickness);
    var p := (c: Category) => c.id == id;
    var i := FindIndex(categories, p);
    assert p(categories[k]);
    assert i == Some(k);
  }

  /** With the default props: ring radius 176, inner radius 136, wedge from 216 to 283.2 with icons at 249.6. */
  lemma DefaultSizing()
    ensures var r := MenuRadii(DefaultSize, DefaultItemSize, DefaultRingThickness);
      && r.half == 210.0 && r.outerRadius == 176.0 && r.innerRadius == 136.0
      && var p := SubArc.WithDefaults(r.half, r.outerRadius, DefaultItemSize);
         SubArc.WedgeRadii(p.outerRadius, p.gapBetween, p.itemSize) == SubArc.Radii(216.0, 283.2, 249.6)
  {
  }
}
