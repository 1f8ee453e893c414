/** The trench drawing primitives of app/cad/trench.py: the elevation of a
    single trench (`draw_trench_front`), its plan rectangle (`draw_trench_top`)
    and the partial elevation used for merged trenches (`draw_trench_front_lr`).
    Each routine computes its coordinates and then adds a flag-guarded series
    of entities to the drawing. */
module TrenchGeom {
  import opened Wrappers
  import opened Numbers
  import opened Sink

  const LayerOut := "Baugraben"
  const LayerIn := "InnerRechteck"
  const LayerHatch := "Zwischenraum"

  const DimOffset: real := 0.5
  const DimOffsetFront: real := 0.7
  const TopDimExtra: real := 0.55
  /** The inner outline's top is lowered by this much to keep it off the ceiling line. */
  const TopEps: real := 0.000001
  /** Depths closer than this count as equal (no second depth dimension). */
  const SameDepthEps: real := 0.000001
  const LineEps: real := 0.000000001

  // ---------------------------------------------------------------------------
  // draw_trench_front

  /** The arguments of a `draw_trench_front` call. */
  datatype FrontCall = FrontCall(
    origin: Point, length: real, depth: real,
    clearanceLeft: real, clearanceBottom: real,
    depthLeft: Option<real>, depthRight: Option<real>)

  /** The heights of an elevation: the left and right depths, the bottom of
      the inner box, the level ceiling and the inner floors on both sides. */
  datatype Levels = Levels(dL: real, dR: real, yb: real, yTop: real, yBL: real, yBR: real)

  /** The depths default to `depth`; the ceiling lies the greatest of the three
      depths above the inner bottom, and each side's floor its own depth below
      the ceiling. */
  function LevelsOf(oy: real, depth: real, clearanceBottom: real,
                    depthLeft: Option<real>, depthRight: Option<real>): (v: Levels)
    ensures v.dL == depthLeft.GetOr(depth) && v.dR == depthRight.GetOr(depth)
    ensures v.yb == oy + clearanceBottom
    ensures v.yTop == oy + clearanceBottom + Max(Max(v.dL, v.dR), depth)
    ensures v.yBL == v.yTop - v.dL && v.yBR == v.yTop - v.dR
  {
    var dL := depthLeft.GetOr(depth);
    var dR := depthRight.GetOr(depth);
    var yb := oy + clearanceBottom;
    var yTop := yb + Max(Max(dL, dR), depth);
    Levels(dL, dR, yb, yTop, yTop - dL, yTop - dR)
  }

  /** Neither inner floor drops below the inner bottom, and the deepest side
      (when it is one of the two sides) touches it. */
  lemma FloorsAboveBottom(oy: real, depth: real, clearanceBottom: real,
                          depthLeft: Option<real>, depthRight: Option<real>)
    ensures var v := LevelsOf(oy, depth, clearanceBottom, depthLeft, depthRight);
            v.yBL >= v.yb && v.yBR >= v.yb
            && (depth <= Max(v.dL, v.dR) ==> Min(v.yBL, v.yBR) == v.yb)
  {
  }

  function InnerOutline(c: FrontCall): (pts: seq<Point>)
  {
    var v := LevelsOf(c.origin.y, c.depth, c.clearanceBottom, c.depthLeft, c.depthRight);
    var x0 := c.origin.x + c.clearanceLeft;
    var x1 := x0 + c.length;
    [Point(x0, v.yBL), Point(x1, v.yBR), Point(x1, v.yTop - TopEps), Point(x0, v.yTop - TopEps)]
  }

  function OuterOutline(c: FrontCall): (pts: seq<Point>)
  {
    var v := LevelsOf(c.origin.y, c.depth, c.clearanceBottom, c.depthLeft, c.depthRight);
    var xr := c.origin.x + c.length + 2.0 * c.clearanceLeft;
    [Point(c.origin.x, v.yBL - c.clearanceBottom), Point(xr, v.yBR - c.clearanceBottom),
     Point(xr, v.yTop), Point(c.origin.x, v.yTop)]
  }

  /** The depth dimension on one side: from the ceiling down to that side's floor. */
  function DepthDim(x: real, baseX: real, v: Levels, floor: real): Entity {
    Dimension(LayerOut, Point(baseX, v.yb), Point(x, v.yTop), Point(x, floor), 90.0)
  }

  /** Everything `draw_trench_front` adds, in order: the inner and the outer
      outline, the left depth dimension, the right one when the depths differ,
      and the hatch between the outlines. */
  function FrontEntities(c: FrontCall): (es: seq<Entity>)
  {
    var v := LevelsOf(c.origin.y, c.depth, c.clearanceBottom, c.depthLeft, c.depthRight);
    var x0 := c.origin.x + c.clearanceLeft;
    var x1 := x0 + c.length;
    var inner := InnerOutline(c);
    var outer := OuterOutline(c);
    [Polyline(LayerIn, inner, true), Polyline(LayerOut, outer, true),
     DepthDim(x0, x0 - DimOffsetFront, v, v.yBL)]
    + (if Abs(v.dL - v.dR) < SameDepthEps then [] else [DepthDim(x1, x1 + DimOffsetFront, v, v.yBR)])
    + [Hatch(LayerHatch, [outer, inner])]
  }

  method DrawTrenchFront(msp: Drawing, c: FrontCall)
    modifies msp
    ensures msp.entities == old(msp.entities) + FrontEntities(c)
  {
    var v := LevelsOf(c.origin.y, c.depth, c.clearanceBottom, c.depthLeft, c.depthRight);
    var x0 := c.origin.x + c.clearanceLeft;
    var x1 := x0 + c.length;
    var inner := InnerOutline(c);
    var outer := OuterOutline(c);
    msp.Add(Polyline(LayerIn, inner, true));
    msp.Add(Polyline(LayerOut, outer, true));
    msp.Add(DepthDim(x0, x0 - DimOffsetFront, v, v.yBL));
    if !(Abs(v.dL - v.dR) < SameDepthEps) {
      msp.Add(DepthDim(x1, x1 + DimOffsetFront, v, v.yBR));
    }
    msp.Add(Hatch(LayerHatch, [outer, inner]));
  }

  /** The outer outline spans `length + 2·clearance_left` from the origin and
      rises to the ceiling; the inner outline starts `clearance_left` in, is
      `length` long and stops just under the ceiling; each outer floor lies
      `clearance_bottom` under the inner floor on its side. */
  lemma FrontOutlines(c: FrontCall)
    ensures var v := LevelsOf(c.origin.y, c.depth, c.clearanceBottom, c.depthLeft, c.depthRight);
            var inner, outer := InnerOutline(c), OuterOutline(c);
            |inner| == 4 && |outer| == 4
            && outer[0].x == outer[3].x == c.origin.x
            && outer[1].x == outer[2].x == c.origin.x + c.length + 2.0 * c.clearanceLeft
            && inner[0].x == inner[3].x == c.origin.x + c.clearanceLeft
            && inner[1].x - inner[0].x == c.length
            && outer[2].y == outer[3].y == v.yTop
            && inner[2].y == inner[3].y == v.yTop - TopEps
            && inner[0].y - outer[0].y == c.clearanceBottom
            && inner[1].y - outer[1].y == c.clearanceBottom
  {
  }

  /** With non-negative clearances and length, the inner outline lies inside
      the outer one's horizontal extent, centred when the clearances match. */
  lemma InnerInsideOuter(c: FrontCall)
    requires c.length >= 0.0 && c.clearanceLeft >= 0.0
    ensures var inner, outer := InnerOutline(c), OuterOutline(c);
            forall k :: 0 <= k < 4 ==> outer[0].x <= inner[k].x <= outer[1].x
    ensures var inner, outer := InnerOutline(c), OuterOutline(c);
            inner[0].x - outer[0].x == outer[1].x - inner[1].x
  {
  }

  /** The left depth dimension is always drawn; a right one only when the two
      depths differ by at least 1e-6.  Each measures its side's depth. */
  lemma FrontDimensions(c: FrontCall)
    ensures var v := LevelsOf(c.origin.y, c.depth, c.clearanceBottom, c.depthLeft, c.depthRight);
            var es := FrontEntities(c);
            var same := Abs(v.dL - v.dR) < SameDepthEps;
            |es| == (if same then 4 else 5)
            && es[2].Dimension? && es[2].p1.y - es[2].p2.y == v.dL
            && es[2].p1.x == c.origin.x + c.clearanceLeft
            && (!same ==> es[3].Dimension? && es[3].p1.y - es[3].p2.y == v.dR
                          && es[3].p1.x == c.origin.x + c.clearanceLeft + c.length)
            && (forall k :: 0 <= k < |es| && es[k].Dimension? ==> k == 2 || (!same && k == 3))
  {
  }

  /** The hatch fills exactly the band between the two outlines drawn first. */
  lemma FrontHatch(c: FrontCall)
    ensures var es := FrontEntities(c);
            es[|es| - 1] == Hatch(LayerHatch, [es[1].points, es[0].points])
  {
  }

  // ---------------------------------------------------------------------------
  // draw_trench_top

  /** The arguments of a `draw_trench_top` call. */
  datatype TopCall = TopCall(topLeft: Point, length: real, width: real,
                             clipLeft: bool, clipRight: bool, dimRight: bool)

  function Segment(layer: string, a: Point, b: Point): Entity {
    Polyline(layer, [a, b], false)
  }

  /** The four edges of the plan rectangle. */
  function BottomEdge(c: TopCall): Entity {
    Segment(LayerOut, c.topLeft, Point(c.topLeft.x + c.length, c.topLeft.y))
  }
  function TopEdge(c: TopCall): Entity {
    Segment(LayerOut, Point(c.topLeft.x, c.topLeft.y + c.width),
            Point(c.topLeft.x + c.length, c.topLeft.y + c.width))
  }
  function LeftEdge(c: TopCall): Entity {
    Segment(LayerOut, c.topLeft, Point(c.topLeft.x, c.topLeft.y + c.width))
  }
  function RightEdge(c: TopCall): Entity {
    Segment(LayerOut, Point(c.topLeft.x + c.length, c.topLeft.y),
            Point(c.topLeft.x + c.length, c.topLeft.y + c.width))
  }

  /** The length dimension over the far long edge, and the width dimension at
      the right or the left short edge. */
  function LengthDim(c: TopCall): Entity {
    var x, yTop := c.topLeft.x, c.topLeft.y + c.width;
    Dimension(LayerOut, Point(x, yTop + DimOffset + TopDimExtra), Point(x, yTop),
              Point(x + c.length, yTop), 0.0)
  }
  function WidthDim(c: TopCall): Entity {
    var x, y := c.topLeft.x, c.topLeft.y;
    var vx := if c.dimRight then x + c.length else x;
    var baseX := if c.dimRight then vx + DimOffset else x - DimOffset;
    Dimension(LayerOut, Point(baseX, y), Point(vx, y), Point(vx, y + c.width), 90.0)
  }

  function TopEntities(c: TopCall): (es: seq<Entity>)
  {
    [BottomEdge(c), TopEdge(c)]
    + (if c.clipLeft then [] else [LeftEdge(c)])
    + (if c.clipRight then [] else [RightEdge(c)])
    + [LengthDim(c), WidthDim(c)]
  }

  method DrawTrenchTop(msp: Drawing, c: TopCall)
    modifies msp
    ensures msp.entities == old(msp.entities) + TopEntities(c)
  {
    msp.Add(BottomEdge(c));
    msp.Add(TopEdge(c));
    if !c.clipLeft {
      msp.Add(LeftEdge(c));
    }
    if !c.clipRight {
      msp.Add(RightEdge(c));
    }
    msp.Add(LengthDim(c));
    msp.Add(WidthDim(c));
  }

  /** A point on the boundary of the plan rectangle. */
  predicate OnRectangle(c: TopCall, p: Point) {
    var x, y := c.topLeft.x, c.topLeft.y;
    ((p.x == x || p.x == x + c.length) && Min(y, y + c.width) <= p.y <= Max(y, y + c.width))
    || ((p.y == y || p.y == y + c.width) && Min(x, x + c.length) <= p.x <= Max(x, x + c.length))
  }

  /** The plan view always holds the two long edges at `y` and `y + width`;
      every line it draws lies on the rectangle's boundary, and there are
      exactly as many lines as edges left unclipped. */
  lemma TopEdges(c: TopCall)
    ensures var es := TopEntities(c);
            BottomEdge(c) in es && TopEdge(c) in es
            && BottomEdge(c).points[0].y == BottomEdge(c).points[1].y == c.topLeft.y
            && TopEdge(c).points[0].y == TopEdge(c).points[1].y == c.topLeft.y + c.width
            && |es| == 4 + (if c.clipLeft then 0 else 1) + (if c.clipRight then 0 else 1)
            && (forall e, k :: e in es && e.Polyline? && 0 <= k < |e.points| ==> OnRectangle(c, e.points[k]))
  {
  }

  /** For a rectangle of non-zero length, the left (right) short edge is
      drawn exactly when it is not clipped. */
  lemma TopClipping(c: TopCall)
    requires c.length != 0.0
    ensures LeftEdge(c) in TopEntities(c) <==> !c.clipLeft
    ensures RightEdge(c) in TopEntities(c) <==> !c.clipRight
  {
    var es := TopEntities(c);
    assert LeftEdge(c) != BottomEdge(c) && LeftEdge(c) != TopEdge(c) && LeftEdge(c) != RightEdge(c);
    assert LeftEdge(c) != LengthDim(c) && LeftEdge(c) != WidthDim(c);
    assert RightEdge(c) != BottomEdge(c) && RightEdge(c) != TopEdge(c);
    assert RightEdge(c) != LengthDim(c) && RightEdge(c) != WidthDim(c);
  }

  /** Exactly two dimensions: the length one above the far long edge measuring
      the length, and the width one on the right short edge when `dim_right`
      and on the left one otherwise, measuring the width. */
  lemma TopDimensions(c: TopCall)
    ensures var es := TopEntities(c);
            var ld, wd := es[|es| - 2], es[|es| - 1];
            (forall k :: 0 <= k < |es| - 2 ==> !es[k].Dimension?)
            && ld.Dimension? && ld.p2.x - ld.p1.x == c.length && ld.p1.y == ld.p2.y == c.topLeft.y + c.width
            && ld.base.y == c.topLeft.y + c.width + DimOffset + TopDimExtra
            && wd.Dimension? && wd.p2.y - wd.p1.y == c.width
            && wd.p1.x == wd.p2.x == (if c.dimRight then c.topLeft.x + c.length else c.topLeft.x)
  {
  }

  // ---------------------------------------------------------------------------
  // draw_trench_front_lr

  /** The arguments of a `draw_trench_front_lr` call; `None` is Python's `None`. */
  datatype FrontLRCall = FrontLRCall(
    origin: Point, length: real, depth: real,
    clearLeft: real, clearRight: real, clearBottom: real,
    bottomClipLeft: real, topClipLeft: real, topLenFromLeft: Option<real>,
    verticalClipRight: real,
    drawLeftInner: bool, drawRightInner: bool, drawOuter: bool,
    gapTopFromLeft: Option<real>, gapTopLen: Option<real>,
    gapBotFromLeft: Option<real>, gapBotLen: Option<real>,
    depthLeft: Option<real>, depthRight: Option<real>,
    drawBottom: bool)

  /** The call with every keyword left at its default. */
  function DefaultLR(origin: Point, length: real, depth: real): (c: FrontLRCall)
    ensures c.clearLeft == 0.2 && c.clearRight == 0.2 && c.drawOuter && c.drawBottom
  {
    FrontLRCall(origin, length, depth, 0.2, 0.2, 0.2, 0.0, 0.0, None, 0.0,
                true, true, true, None, None, None, None, None, None, true)
  }

  function LRLevels(c: FrontLRCall): Levels {
    LevelsOf(c.origin.y, c.depth, c.clearBottom, c.depthLeft, c.depthRight)
  }

  /** `_hline`: a horizontal inner line, skipped when not longer than 1e-9. */
  function HLine(x1: real, x2: real, y: real): (es: seq<Entity>)
    ensures |es| <= 1
    ensures es != [] <==> x2 - x1 > LineEps
  {
    if x2 - x1 > LineEps then [Segment(LayerIn, Point(x1, y), Point(x2, y))] else []
  }

  /** `y_at`: the height of the sloped floor at x. */
  function FloorAt(c: FrontLRCall, x: real): real {
    var v := LRLevels(c);
    var x0 := c.origin.x + c.clearLeft;
    if c.length <= LineEps then v.yBL
    else v.yBL + (x - x0) / c.length * (v.yBR - v.yBL)
  }

  /** The floor runs through the left floor at the inner left edge and the
      right floor at the inner right edge. */
  lemma FloorAtEnds(c: FrontLRCall)
    requires c.length > LineEps
    ensures FloorAt(c, c.origin.x + c.clearLeft) == LRLevels(c).yBL
    ensures FloorAt(c, c.origin.x + c.clearLeft + c.length) == LRLevels(c).yBR
  {
    var v := LRLevels(c);
    var x0 := c.origin.x + c.clearLeft;
    assert (x0 + c.length - x0) / c.length == 1.0;
  }

  function LROuter(c: FrontLRCall): seq<Entity> {
    var v := LRLevels(c);
    var xr := c.origin.x + c.clearLeft + c.length + c.clearRight;
    [Polyline(LayerOut, [Point(c.origin.x, v.yBL - c.clearBottom), Point(xr, v.yBR - c.clearBottom),
                         Point(xr, v.yTop), Point(c.origin.x, v.yTop)], true)]
  }

  function LRLeftInner(c: FrontLRCall): Entity {
    var v := LRLevels(c);
    var x0 := c.origin.x + c.clearLeft;
    Segment(LayerIn, Point(x0, v.yBL), Point(x0, v.yTop))
  }

  function LRRightInner(c: FrontLRCall): Entity {
    var v := LRLevels(c);
    var xR := c.origin.x + c.clearLeft + c.length;
    var yStart := if c.verticalClipRight > 0.0 then Max(v.yb, v.yBR) else v.yBR;
    Segment(LayerIn, Point(xR, yStart), Point(xR, v.yTop))
  }

  /** The ceiling from `x_start_top` to `x_end_top`, interrupted by the top gap
      when both gap values are given. */
  function LRTop(c: FrontLRCall): seq<Entity> {
    var v := LRLevels(c);
    var x0 := c.origin.x + c.clearLeft;
    var xR := x0 + c.length;
    var xs := x0 + c.topClipLeft;
    var xe := if c.topLenFromLeft.None? then xR else Min(xR, x0 + c.topLenFromLeft.value);
    if c.gapTopFromLeft.None? || c.gapTopLen.None? then HLine(xs, xe, v.yTop)
    else
      var g0 := x0 + Max(0.0, c.gapTopFromLeft.value);
      var g1 := x0 + Min(c.length, c.gapTopFromLeft.value + c.gapTopLen.value);
      HLine(xs, Min(xe, g0), v.yTop) + HLine(Max(xs, g1), xe, v.yTop)
  }

  /** The horizontal bottom line and the sloped floor, each with the optional
      bottom gap. */
  function LRBottom(c: FrontLRCall): seq<Entity> {
    var v := LRLevels(c);
    var x0 := c.origin.x + c.clearLeft;
    var xRgt := x0 + c.length;
    var xLft := x0 + c.bottomClipLeft;
    if c.gapBotFromLeft.None? || c.gapBotLen.None? then
      HLine(xLft, xRgt, v.yb) + [Segment(LayerIn, Point(x0, FloorAt(c, x0)), Point(xRgt, FloorAt(c, xRgt)))]
    else
      var g0 := x0 + Max(0.0, c.gapBotFromLeft.value);
      var g1 := x0 + Min(c.length, c.gapBotFromLeft.value + c.gapBotLen.value);
      HLine(xLft, Min(xRgt, g0), v.yb) + HLine(Max(xLft, g1), xRgt, v.yb)
      + [Segment(LayerIn, Point(x0, FloorAt(c, x0)), Point(Min(xRgt, g0), FloorAt(c, Min(xRgt, g0)))),
         Segment(LayerIn, Point(Max(x0, g1), FloorAt(c, Max(x0, g1))), Point(xRgt, FloorAt(c, xRgt)))]
  }

  /** What a clearance on either side adds: the inner verticals asked for,
      the ceiling and, when asked for, the floor lines. */
  function LRInner(c: FrontLRCall): seq<Entity> {
    (if c.drawLeftInner then [LRLeftInner(c)] else [])
    + (if c.drawRightInner then [LRRightInner(c)] else [])
    + LRTop(c)
    + (if c.drawBottom then LRBottom(c) else [])
  }

  function FrontLREntities(c: FrontLRCall): (es: seq<Entity>)
  {
    (if c.drawOuter then LROuter(c) else [])
    + (if c.clearLeft > 0.0 || c.clearRight > 0.0 then LRInner(c) else [])
  }

  method DrawTrenchFrontLR(msp: Drawing, c: FrontLRCall)
    modifies msp
    ensures msp.entities == old(msp.entities) + FrontLREntities(c)
  {
    var outer := if c.drawOuter then LROuter(c) else [];
    var inner: seq<Entity> := [];
    if c.clearLeft > 0.0 || c.clearRight > 0.0 {
      inner := InnerEntities(c);
    }
    assert FrontLREntities(c) == outer + inner;
    msp.AddAll(outer + inner);
  }

  /** The entities drawn when there is a clearance on either side, collected
      in drawing order. */
  method InnerEntities(c: FrontLRCall) returns (es: seq<Entity>)
    ensures es == LRInner(c)
  {
    es := [];
    if c.drawLeftInner {
      es := es + [LRLeftInner(c)];
    }
    if c.drawRightInner {
      es := es + [LRRightInner(c)];
    }
    es := es + LRTop(c);
    if c.drawBottom {
      es := es + LRBottom(c);
    }
  }

  /** Without clearance on either side the call draws at most the outer
      outline. */
  lemma LRNoClearance(c: FrontLRCall)
    requires c.clearLeft <= 0.0 && c.clearRight <= 0.0
    ensures FrontLREntities(c) == (if c.drawOuter then LROuter(c) else [])
  {
  }

  /** With a clearance, each inner vertical is drawn exactly when its flag asks
      for it (at the inner left edge going up from the left floor, and at the
      inner right edge going up from the right floor, clipped to the inner
      bottom when `vertical_clip_right` is positive). */
  lemma LRVerticals(c: FrontLRCall)
    requires c.clearLeft > 0.0 || c.clearRight > 0.0
    ensures var es := FrontLREntities(c);
            var v := LRLevels(c);
            (c.drawLeftInner ==> LRLeftInner(c) in es)
            && (c.drawRightInner ==> LRRightInner(c) in es)
            && LRLeftInner(c).points == [Point(c.origin.x + c.clearLeft, v.yBL), Point(c.origin.x + c.clearLeft, v.yTop)]
            && LRRightInner(c).points[0].x == c.origin.x + c.clearLeft + c.length
            && LRRightInner(c).points[1].y == v.yTop
  {
    var es := FrontLREntities(c);
    var pre := if c.drawOuter then LROuter(c) else [];
    assert es == pre + LRInner(c);
    if c.drawLeftInner {
      assert LRInner(c)[0] == LRLeftInner(c);
      assert es[|pre|] == LRLeftInner(c);
    }
    if c.drawRightInner {
      var k := if c.drawLeftInner then 1 else 0;
      assert LRInner(c)[k] == LRRightInner(c);
      assert es[|pre| + k] == LRRightInner(c);
    }
  }

  /** With a top gap the ceiling splits into a piece ending at or before the
      gap's start and one starting at or after its end, both within
      `[x_start_top, x_end_top]`; a piece not longer than 1e-9 is left out. */
  lemma LRTopGap(c: FrontLRCall)
    requires c.gapTopFromLeft.Some? && c.gapTopLen.Some?
    ensures var x0 := c.origin.x + c.clearLeft;
            var xR := x0 + c.length;
            var xs := x0 + c.topClipLeft;
            var xe := if c.topLenFromLeft.None? then xR else Min(xR, x0 + c.topLenFromLeft.value);
            var g0 := x0 + Max(0.0, c.gapTopFromLeft.value);
            var g1 := x0 + Min(c.length, c.gapTopFromLeft.value + c.gapTopLen.value);
            var es := LRTop(c);
            |es| <= 2
            && (forall e, k :: e in es && 0 <= k < |e.points| ==> xs <= e.points[k].x <= xe)
            && (forall e :: e in es ==> e.points[1].x <= g0 || e.points[0].x >= g1)
            && (forall e :: e in es ==> e.points[1].x - e.points[0].x > LineEps)
  {
  }

  /** Floor lines come only with `draw_bottom`: otherwise every line drawn is
      the outer outline, an inner vertical or a piece of the level ceiling. */
  lemma LRBottomOnlyWhenAsked(c: FrontLRCall)
    requires !c.drawBottom
    ensures var v := LRLevels(c);
            forall e :: e in FrontLREntities(c) ==>
              e.points[0].x == e.points[1].x || e.points[0].y == e.points[1].y == v.yTop || e.closed
  {
    var v := LRLevels(c);
    forall e | e in LRTop(c) ensures e.points[0].y == e.points[1].y == v.yTop {
    }
  }
}
