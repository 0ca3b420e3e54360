# Radial interaction menu — verified model

This project models the logic of a radial ("donut") menu widget written in
React. Category buttons sit evenly spaced on a ring. Clicking a category opens
a wedge-shaped fan of subcategory icons just outside the ring, centred on that
category's angle. Three parts are modelled:

- **Geometry helpers** (`geometry.dfy`, module `Geometry`): degree-to-radian
  conversion, the polar-to-Cartesian projection, and the donut-wedge outline.
  The outline is a structured SVG path value (M, A, L, A, Z), not text. An
  interpreter (`Edges`/`Boundary`) reads the path back into the edges it draws.
- **Sub-arc wedge fitter** (`sub_arc.dfy`, module `SubArc`): the wedge radii,
  the number of icon slots, the clamped angular span (as the component's
  step-by-step method `ComputeSpanRad`, proved equal to the function `SpanRad`),
  the start/end angles, the per-icon angles and icon centres. `Render` returns
  "nothing" when there is no category or no position.
- **Menu** (`interaction_menu.dfy`, module `InteractionMenu`): the ring radii,
  the ring layout `CategoryPositions`, `find`-style lookups, and the hover/open
  state machine. The state machine is pure transition functions (`Next`,
  `HoverNotice`, `SelectNotice`) plus a class `Menu`. The class has the two
  state fields `hoverId` and `openId`, and ghost logs of the values passed to
  `onHover` and `onSelect`. The module also models which sub-arc is rendered
  for the current state (`SubArcElement`, `ShownWedge`).

`menu_types.dfy` holds the records (`Category`, `Subcategory`, `RingPosition`).
`wrappers.dfy` holds `Option`.

All arithmetic is over `real`. π is an abstract positive constant `PI`.
`Cos` and `Sin` are uninterpreted functions. Every property is exact algebra
over those symbols. Facts that need trigonometry, such as a point lying on a
circle, are stated under the hypothesis `cos² + sin² = 1` (`OnUnitCircle`), or
under given values of cos and sin at particular angles.

Behaviours of the component worth knowing, each modelled as the code has it:

- A click on a category with no subcategories still opens it.
  `ClickOnEmptyCategoryOpensEmptyWedge` shows the result: a wedge with no icons.
- Mouse-leave on a category that is not the hovered one leaves `hoverId` as it
  is, but still calls `onHover(null)`.
- With at most one subcategory, the span is `max(10°, minSpanDeg)` and ignores
  `maxSpanDeg`, so it can exceed it (`SingleSlotSpanCanExceedMax`).
- The sub-arc's defaults are `gapBetween = 40` and `iconSpacing = 28`. The
  component's doc comment says 12 and 8.
- Icons are centred on the wedge's mid radius (`Render`, `RenderedIconPlacement`).
- The sub-arc is rendered when `openId` is truthy. So an empty-string id counts
  as "nothing open" (`IsTruthy`).
- Two clicks on the same category X restore the state only when X, or nothing,
  was open before. If another category was open, two clicks leave nothing open
  (`ClickEffect`, `RepeatedClicks`).

`onSelect` is passed the `openId` captured at render time. The model takes it
to be the state the event starts from, which makes it the new (post-toggle)
value.

## Model

| member | source | states |
|---|---|---|
| Geometry.Deg2RadAdditive | src/features/intersaction-menu/utils.js:3 | the conversion is additive: deg2rad(a+b) = deg2rad(a) + deg2rad(b) |
| Geometry.Deg2RadHalfTurn | src/features/intersaction-menu/utils.js:3 | 180° is π and −90° is −π/2 |
| Geometry.Deg2RadMonotonic | src/features/intersaction-menu/utils.js:3 | the conversion preserves < and ≤ in both directions |
| Geometry.PolarOffset | src/features/intersaction-menu/utils.js:6-9 | x − cx = r·cos(angle), y − cy = r·sin(angle); r = 0 gives the centre |
| Geometry.PolarDistance | src/features/intersaction-menu/utils.js:6-9 | where cos² + sin² = 1, the projected point is at squared distance r² from the centre |
| Geometry.DescribeDonutWedge | src/features/intersaction-menu/utils.js:12-40 | the path is M, A, L, A, Z; both arcs have rotation 0 and the same large-arc flag, which is set iff the span exceeds π; the outer arc has sweep 1 and radii outerR; the inner arc has sweep 0 and radii innerR |
| Geometry.WedgeBoundary | src/features/intersaction-menu/utils.js:23-37 | reading the path back gives the outer arc from p1 to p2, the line p2→p3, the inner arc p3→p4 and the closing line p4→p1; p1..p4 are the polar points (outer, start), (outer, end), (inner, end), (inner, start) |
| Geometry.WedgeBoundaryClosed | src/features/intersaction-menu/utils.js:28-37 | the drawn edges form one closed loop |
| Geometry.WedgeCornersOnCircles | src/features/intersaction-menu/utils.js:23-26 | where cos² + sin² = 1 at both angles, the outer arc's ends are at distance outerR and the inner arc's at distance innerR |
| SubArc.Max | src/features/intersaction-menu/components/SubArc.jsx:46 | Math.max: an upper bound equal to one argument |
| SubArc.Min | src/features/intersaction-menu/components/SubArc.jsx:78 | the larger-then-smaller clamp's lower bound: a lower bound equal to one argument |
| SubArc.WedgeRadii | src/features/intersaction-menu/components/SubArc.jsx:43-53 | arcInner = outerRadius + gapBetween; the wedge depth is max(1.2·itemSize, 48) ≥ 48; the mid radius is strictly inside and equidistant from both edges |
| SubArc.SlotCount | src/features/intersaction-menu/components/SubArc.jsx:56-57 | n ≥ 1 and n ≥ the number of subcategories (so every icon index is in range); zero subcategories give n = 1 |
| SubArc.SpanRadius | src/features/intersaction-menu/components/SubArc.jsx:62 | the divisor is max(1, mid radius): at least 1 and at least the mid radius |
| SubArc.ComputeSpanRad | src/features/intersaction-menu/components/SubArc.jsx:60-81 | the step-by-step computation (pad, raise to min, lower to max) equals SpanRad; for n > 1 it never exceeds deg2rad(maxSpanDeg); for n ≤ 1 it is deg2rad(max(10, minSpanDeg)) |
| SubArc.SpanOfSingleSlot | src/features/intersaction-menu/components/SubArc.jsx:64-66 | for n ≤ 1 the span is the same as for one slot, whatever maxSpanDeg is, and is at least deg2rad(10) and deg2rad(minSpanDeg) |
| SubArc.SpanBounds | src/features/intersaction-menu/components/SubArc.jsx:75-78 | for n > 1 the span is at most deg2rad(maxSpanDeg); it is at least deg2rad(minSpanDeg) when minSpanDeg ≤ maxSpanDeg, and equals deg2rad(maxSpanDeg) otherwise |
| SubArc.SpanUnclamped | src/features/intersaction-menu/components/SubArc.jsx:68-78 | inside the clamp bounds the span is (n−1)(itemSize+iconSpacing)/max(1, mid) + 12π/180 |
| SubArc.SpanOfFourIcons | src/features/intersaction-menu/components/SubArc.jsx:68-78 | four 56-px icons with spacing 15 on mid radius 150 get span 3·71/150 + deg2rad(12) for any π in [3, 3.2] |
| SubArc.RequiredAngleMonotonic | src/features/intersaction-menu/components/SubArc.jsx:68-69 | with itemSize + iconSpacing ≥ 0 the required angle is non-decreasing in n |
| SubArc.SpanMonotonic | src/features/intersaction-menu/components/SubArc.jsx:68-78 | for n > 1 and itemSize + iconSpacing ≥ 0 the span is non-decreasing in n |
| SubArc.SingleSlotSpanCanExceedMax | src/features/intersaction-menu/components/SubArc.jsx:64-66 | with maxSpanDeg = 5 a single subcategory still gets a span wider than 5° |
| SubArc.WedgeAngles | src/features/intersaction-menu/components/SubArc.jsx:87-92 | endAngle − startAngle = spanRad and (startAngle + endAngle)/2 = centerAngle |
| SubArc.WedgeAnglesCharacterised | src/features/intersaction-menu/components/SubArc.jsx:88-89 | those two equations determine the bounds uniquely |
| SubArc.IconAngles | src/features/intersaction-menu/components/SubArc.jsx:95-101 | exactly n angles |
| SubArc.IconAnglesSpread | src/features/intersaction-menu/components/SubArc.jsx:97-100 | for n > 1: the first angle is startAngle, the last is endAngle, and neighbours are (end − start)/(n−1) apart |
| SubArc.IconAnglesIncreasing | src/features/intersaction-menu/components/SubArc.jsx:97-100 | for n > 1 and startAngle < endAngle the angles strictly increase |
| SubArc.IconAnglesSymmetric | src/features/intersaction-menu/components/SubArc.jsx:88-101 | on the wedge's own bounds, angle i and angle n−1−i are symmetric about the centre angle; for n = 1 the single angle is the centre |
| SubArc.Render | src/features/intersaction-menu/components/SubArc.jsx:32-104 | nothing is rendered exactly when there is no position (no category, an empty result or a throw); otherwise the wedge has WedgeRadii's radii and SpanRad's span, is centred on the position's angle, is outlined by DescribeDonutWedge on its radii and bounds, has the max(len, 1) IconAngles spread over its bounds, and draws one icon per subcategory carrying its id, on the mid radius at its icon angle |
| SubArc.RenderedIconPlacement | src/features/intersaction-menu/components/SubArc.jsx:95-101 | a single rendered icon sits at the category's angle; with several, the first sits at the start angle and the last at the end angle, angles strictly increase when the span is positive, and icon i and icon m−1−i are symmetric about the category's angle |
| SubArc.DefaultWedge | src/features/intersaction-menu/components/SubArc.jsx:27-30 | with the default props on the default ring the wedge runs from 216 to 283.2 with icons at 249.6; one icon gets 12°, several get between 12° and 160° |
| InteractionMenu.MenuRadii | src/features/intersaction-menu/components/IntersactionMenu.jsx:34-36 | half = size/2; a button centred on the ring keeps 6 px from the widget edge; outer − inner = ringThickness, so inner < outer iff ringThickness > 0 |
| InteractionMenu.RingDivisor | src/features/intersaction-menu/components/IntersactionMenu.jsx:39 | the divisor is at least 1 and is the category count when there are categories |
| InteractionMenu.CategoryPositions | src/features/intersaction-menu/components/IntersactionMenu.jsx:38-46 | one entry per category in the same order, carrying its id and category; an empty list gives an empty layout |
| InteractionMenu.RingAngles | src/features/intersaction-menu/components/IntersactionMenu.jsx:39-42 | entry 0 is at −π/2; neighbours are 2π/N apart; one more step after the last entry is a full turn after the first |
| InteractionMenu.RingAngleStep | src/features/intersaction-menu/components/IntersactionMenu.jsx:41-42 | consecutive slots are 2π/n apart |
| InteractionMenu.RingAngleFullTurn | src/features/intersaction-menu/components/IntersactionMenu.jsx:41-42 | one step after the last slot is a full turn after slot 0 |
| InteractionMenu.RingPoints | src/features/intersaction-menu/components/IntersactionMenu.jsx:43-44 | each entry's point is polarToCartesian(half, half, outerRadius, angle), at distance outerRadius where cos² + sin² = 1 |
| InteractionMenu.SixCategoryRing | src/features/intersaction-menu/components/IntersactionMenu.jsx:38-46 | with six categories on radius 200, entry 0 is straight above the centre and entry 3 straight below, given cos/sin at ±π/2 |
| InteractionMenu.FindIndex | src/features/intersaction-menu/components/IntersactionMenu.jsx:48 | the index found is the first whose element satisfies the predicate; none means no element does |
| InteractionMenu.Find | src/features/intersaction-menu/components/IntersactionMenu.jsx:48 | a result exists iff some element satisfies the predicate, and it is the one at FindIndex |
| InteractionMenu.GetPosByIdFirstMatch | src/features/intersaction-menu/components/IntersactionMenu.jsx:48 | getPosById returns the first entry with the id, and nothing exactly when no entry has it |
| InteractionMenu.PositionLookupAgrees | src/features/intersaction-menu/components/IntersactionMenu.jsx:38-48 | an id looked up among the ring entries and among the categories lands on the same index; the entry found carries the category found |
| InteractionMenu.MouseEnterEffect | src/features/intersaction-menu/components/IntersactionMenu.jsx:117-120 | mouse-enter on X sets hoverId to X, reports onHover(X), and leaves openId unchanged |
| InteractionMenu.MouseLeaveEffect | src/features/intersaction-menu/components/IntersactionMenu.jsx:121-124 | mouse-leave on X clears hoverId iff it was X, keeps it otherwise, always reports onHover(null), and leaves openId unchanged |
| InteractionMenu.ClickEffect | src/features/intersaction-menu/components/IntersactionMenu.jsx:125-128 | a click on X closes X if it was open and opens it otherwise; onSelect gets the new openId; hoverId is unchanged; a second click restores the state iff X or nothing was open |
| InteractionMenu.RepeatedClicks | src/features/intersaction-menu/components/IntersactionMenu.jsx:125-128 | k > 0 clicks on X leave X open iff exactly one of "k is odd" and "X was open" holds, with nothing else open; hoverId is unchanged |
| InteractionMenu.Menu.constructor | src/features/intersaction-menu/components/IntersactionMenu.jsx:31-32 | the menu starts with nothing hovered, nothing open and no callback calls |
| InteractionMenu.Menu.OnMouseEnter | src/features/intersaction-menu/components/IntersactionMenu.jsx:117-120 | the new state is Next(old, MouseEnter(id)); onHover's log gains id when the prop is given; onSelect's log is unchanged |
| InteractionMenu.Menu.OnMouseLeave | src/features/intersaction-menu/components/IntersactionMenu.jsx:121-124 | the new state is Next(old, MouseLeave(id)); onHover's log gains null when the prop is given, whether or not hoverId changed |
| InteractionMenu.Menu.OnClick | src/features/intersaction-menu/components/IntersactionMenu.jsx:125-128 | the new state is Next(old, Click(id)); onSelect's log gains the new openId when the prop is given; hoverId is unchanged |
| InteractionMenu.SubArcElement | src/features/intersaction-menu/components/IntersactionMenu.jsx:136-149 | a sub-arc element exists exactly when openId is truthy; it receives the first category in the list whose id is openId, or none when no category has that id |
| InteractionMenu.ShownWedgeMatchesOpenCategory | src/features/intersaction-menu/components/IntersactionMenu.jsx:136-149 | a wedge is drawn iff openId is truthy and names a category; it is centred on the ring angle of the first such category, its icon angles are spread over its bounds around that ring angle, and it draws one icon per subcategory, carrying its id, on the mid radius at its icon angle |
| InteractionMenu.ClickOnEmptyCategoryOpensEmptyWedge | src/features/intersaction-menu/components/IntersactionMenu.jsx:125-128 | clicking a closed category with no subcategories opens it, and the menu draws an empty wedge 12° wide |
| InteractionMenu.DefaultSizing | src/features/intersaction-menu/components/IntersactionMenu.jsx:15-36 | default props give ring radius 176 and inner radius 136; with the sub-arc's default gap the wedge runs from 216 to 283.2 with icons at 249.6 |

## Left out

- Decimal formatting of the path (`toFixed(3)` and the space-joined string): the path is a structured value. Float rounding is not modelled anywhere.
- The concrete values of `Math.PI`, `Math.cos` and `Math.sin`: π is an abstract positive constant and cos/sin are uninterpreted.
- framer-motion variants, `AnimatePresence`, JSX markup, styles and the centre-hub text: these are animation and presentation only.
- The icons' `left`/`top` offsets (`x − itemSize/2`): these are presentation.
- The sub-arc props `size`, `innerRadius`, `subArcSpan` and `colors`: the component receives them but its logic does not use them.
- React's `useMemo`/`useState` machinery: memoised values are plain functions of their inputs, and state is class fields.
- InteractionMenu.Menu.OnClick: the logged `onSelect` value is computed from the `openId` the handler saw at render time. The model takes that to be the current field value. Two clicks handled before a re-render, where the two could differ, are not modelled.
- InteractionMenu.SubArcElement: `key={openId}` and the remounting it causes are not modelled.
- CategoryButton.jsx: it maps `isHovered`/`isOpen` to CSS and forwards handlers; it has no logic.
- App.js: a demo category list and console logging, not part of the logic.
- use-audio-effects.jsx: browser audio playback and React context.
- The optional category `description` and icon references: the logic passes them through untouched.
