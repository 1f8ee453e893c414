/** The blocks of a merged pair of trenches, positions i and i + 1 joined
    by the connection or passage on seam i + 1 (main.py:1358-2005). */
module GenMerge {
  import opened Wrappers
  import opened Numbers
  import opened Elements
  import opened Order
  import opened Lookups
  import opened Sink
  import opened TrenchGeom
  import opened AufmassLines
  import opened GenBasics
  import opened GenCluster
  import opened GenParts

  /** The positions and flags of the pair (main.py:1371-1398). */
  datatype Layout = Layout(joinOnly: bool, pw: real, hasPassLeft: bool, hasPassRight: bool,
                           leftClear: real, rightClear: real, baseL: real, baseR: real,
                           yTopL: real, yTopR: real, xL: real, xInnerLeft: real, xSeam: real,
                           xRightStart: real, xInnerRight: real, xR: real, joinL: bool, joinR: bool)

  /** The layout of the pair placed at xStart with a passage of width pw:
      no margin toward a linked neighbour, the passage between the two
      trenches, each ceiling at the common level raised by the trench's
      ground level, a seam connection-only when it has no passage. */
  function MergeLayout(ctx: Ctx, i: nat, xStart: real, pw: real): (lay: Layout)
    requires i + 1 < N(ctx)
    ensures lay.joinOnly == JoinOnly(ctx, i + 1) && lay.pw == pw && lay.xL == xStart
    ensures lay.hasPassLeft == (i > 0 && HasLink(ctx, i)) && lay.hasPassRight == (i + 2 < N(ctx) && HasLink(ctx, i + 2))
    ensures lay.leftClear == (if lay.hasPassLeft then 0.0 else ClrLR)
    ensures lay.rightClear == (if lay.hasPassRight then 0.0 else ClrLR)
    ensures lay.joinL == (i > 0 && JoinOnly(ctx, i)) && lay.joinR == (i + 2 < N(ctx) && JoinOnly(ctx, i + 2))
    ensures lay.xInnerLeft == xStart + lay.leftClear
    ensures lay.xSeam == lay.xInnerLeft + Len(ctx, i + 1)
    ensures lay.xRightStart == lay.xSeam + pw
    ensures lay.xInnerRight == lay.xRightStart + Len(ctx, i + 2)
    ensures lay.xR - xStart == lay.leftClear + Len(ctx, i + 1) + pw + Len(ctx, i + 2) + lay.rightClear
    ensures lay.baseL == Base(ctx, i + 1) && lay.baseR == Base(ctx, i + 2)
    ensures lay.yTopL == ClrBot + ctx.maxDepth + GokAt(ctx, i + 1)
    ensures lay.yTopR == ClrBot + ctx.maxDepth + GokAt(ctx, i + 2)
  {
    var hasPassLeft := i > 0 && HasLink(ctx, i);
    var hasPassRight := i + 2 < N(ctx) && HasLink(ctx, i + 2);
    var leftClear := if hasPassLeft then 0.0 else ClrLR;
    var rightClear := if hasPassRight then 0.0 else ClrLR;
    var baseL, baseR := Base(ctx, i + 1), Base(ctx, i + 2);
    var xInnerLeft := xStart + leftClear;
    var xSeam := xInnerLeft + Len(ctx, i + 1);
    var xRightStart := xSeam + pw;
    var xInnerRight := xRightStart + Len(ctx, i + 2);
    Layout(JoinOnly(ctx, i + 1), pw, hasPassLeft, hasPassRight, leftClear, rightClear, baseL, baseR,
           baseL + Dep(ctx, i + 1).ref, baseR + Dep(ctx, i + 2).ref, xStart, xInnerLeft, xSeam,
           xRightStart, xInnerRight, xInnerRight + rightClear,
           i > 0 && JoinOnly(ctx, i), i + 2 < N(ctx) && JoinOnly(ctx, i + 2))
  }

  // ---------------------------------------------------------------------------
  // Ground-level dimensions and the seam line (main.py:1422-1437)

  /** The ground-level elevation of trench k when it is further than 1e-9
      from 0 and not dimensioned yet. */
  method GokMark(ctx: Ctx, k: nat, x: real, yTop: real, left: bool, printed: set<nat>)
    returns (events: seq<Event>, now: set<nat>)
    requires 1 <= k <= N(ctx)
    ensures Quiet(events)
    ensures now == printed + (if Abs(GokAt(ctx, k)) > LinkEps then {k} else {})
    ensures events != [] <==> Abs(GokAt(ctx, k)) > LinkEps && k !in printed
    ensures events != [] ==> events == [GokDim(k, x, yTop, GokAt(ctx, k), left)]
  {
    events, now := [], printed;
    var g := GokAt(ctx, k);
    if Abs(g) > LinkEps && k !in printed {
      events := [GokDim(k, x, yTop, g, left)];
    }
    if Abs(g) > LinkEps {
      now := printed + {k};
    }
  }

  /** The line closing the step between two plan views of different width
      at a connection-only seam, over the part where they do not overlap. */
  method SeamMark(ctx: Ctx, i: nat, lay: Layout) returns (events: seq<Event>)
    requires i + 1 < N(ctx)
    ensures Quiet(events)
    ensures events != [] <==> lay.joinOnly && Abs(Wid(ctx, i + 1) - Wid(ctx, i + 2)) > LinkEps
    ensures events != [] ==>
              events == [SeamLine(i + 1, lay.xSeam, ctx.yTop + Min(Wid(ctx, i + 1), Wid(ctx, i + 2)),
                                  ctx.yTop + Max(Wid(ctx, i + 1), Wid(ctx, i + 2)))]
  {
    events := [];
    var b1, b2 := Wid(ctx, i + 1), Wid(ctx, i + 2);
    if lay.joinOnly && Abs(b1 - b2) > LinkEps {
      var yLo := ctx.yTop + Min(b1, b2);
      var yHi := ctx.yTop + Max(b1, b2);
      if yHi - yLo > LinkEps {
        events := [SeamLine(i + 1, lay.xSeam, yLo, yHi)];
      }
    }
  }

  // ---------------------------------------------------------------------------
  // The elevations, the outer contour and the passage (main.py:1513-1847)

  /** The inner contour of trench k of the pair, at x with the given
      margins and inner walls and no outline or floor of its own. */
  function PairElevation(ctx: Ctx, k: nat, x: real, clearLeft: real, clearRight: real,
                         leftInner: bool, rightInner: bool): (c: FrontLRCall)
    requires 1 <= k <= N(ctx)
    ensures LRLevels(c).yTop == ClrBot + ctx.maxDepth + GokAt(ctx, k)
    ensures c.length == Len(ctx, k) && c.clearLeft == clearLeft && c.clearRight == clearRight
    ensures c.drawLeftInner == leftInner && c.drawRightInner == rightInner && !c.drawOuter && !c.drawBottom
  {
    var d := Dep(ctx, k);
    assert Max(Max(d.left, d.right), d.ref) == d.ref;
    DefaultLR(Point(x, Base(ctx, k) - ClrBot), Len(ctx, k), d.ref).(
      clearLeft := clearLeft, clearRight := clearRight,
      drawLeftInner := leftInner, drawRightInner := rightInner,
      drawOuter := false, drawBottom := false,
      depthLeft := Some(d.left), depthRight := Some(d.right))
  }

  /** The two elevations, with the margins of the layout and an inner wall
      only at an end without a linked neighbour; then the outer contour and,
      for a passage, its block (when wider than 1e-9) and its length
      dimension at the higher ceiling. */
  method PairFronts(ctx: Ctx, i: nat, lay: Layout) returns (fronts: seq<Event>, rest: seq<Event>)
    requires i + 1 < N(ctx)
    ensures Untopped(ctx, fronts) && Quiet(rest)
    ensures fronts == [FrontLRView(i + 1, PairElevation(ctx, i + 1, lay.xL, lay.leftClear, 0.0, !lay.hasPassLeft, false)),
                       FrontLRView(i + 2, PairElevation(ctx, i + 2, lay.xRightStart, 0.0, lay.rightClear, false, !lay.hasPassRight))]
    ensures |rest| >= 1 && rest[0] == MergeContour(i + 1, lay.xL, lay.xSeam, lay.xRightStart, lay.xR, lay.yTopL, lay.yTopR)
    ensures lay.joinOnly ==> |rest| == 1
    ensures !lay.joinOnly ==>
              rest[|rest| - 1] == PassLengthDim(i + 1, lay.xSeam, lay.xRightStart, Max(lay.yTopL, lay.yTopR))
              && (|rest| == 3 <==> lay.xRightStart - lay.xSeam > LinkEps)
              && (|rest| == 3 ==> rest[1] == PassSymbol(i + 1, lay.xSeam, lay.xRightStart, Max(lay.yTopL, lay.yTopR)))
              && 2 <= |rest| <= 3
  {
    var left := PairElevation(ctx, i + 1, lay.xL, lay.leftClear, 0.0, !lay.hasPassLeft, false);
    var right := PairElevation(ctx, i + 2, lay.xRightStart, 0.0, lay.rightClear, false, !lay.hasPassRight);
    fronts := [FrontLRView(i + 1, left), FrontLRView(i + 2, right)];
    rest := [MergeContour(i + 1, lay.xL, lay.xSeam, lay.xRightStart, lay.xR, lay.yTopL, lay.yTopR)];
    if !lay.joinOnly {
      var yRef := Max(lay.yTopL, lay.yTopR);
      if lay.xRightStart - lay.xSeam > LinkEps {
        rest := rest + [PassSymbol(i + 1, lay.xSeam, lay.xRightStart, yRef)];
      }
      rest := rest + [PassLengthDim(i + 1, lay.xSeam, lay.xRightStart, yRef)];
    }
  }

  // ---------------------------------------------------------------------------
  // Depth dimensions (main.py:1968-1988)

  /** How many depth dimensions trench k still gets: none once printed, one
      for a level floor, two for a sloped one. */
  function DepthCount(ctx: Ctx, k: nat, printed: set<nat>): (n: nat)
    requires 1 <= k <= N(ctx)
    ensures n <= 2 && (n == 0 <==> k in printed)
  {
    if k in printed then 0 else if Abs(Dep(ctx, k).left - Dep(ctx, k).right) < SameEps then 1 else 2
  }

  /** The depth dimensions of trench k of the pair, once: one at its outer
      end when its end depths agree within 1e-6, otherwise one at each end;
      every one measures the depth of its end down from the ceiling, with
      its dimension line 0.7 outward (left for the left trench, right for
      the right one). */
  method DepthMarks(ctx: Ctx, k: nat, xOuter: real, xSeam: real, yTop: real, isLeft: bool, printed: set<nat>)
    returns (events: seq<Event>, now: set<nat>)
    requires 1 <= k <= N(ctx)
    ensures Quiet(events)
    ensures now == printed + {k}
    ensures |events| == DepthCount(ctx, k, printed)
    ensures forall j :: 0 <= j < |events| ==>
              var e, d := events[j], Dep(ctx, k);
              e.DepthDim? && e.trench == k && e.yTop == yTop
              && e.baseX == (if isLeft then e.x - DimOffsetFront else e.x + DimOffsetFront)
              && ((e.x == xOuter && e.depth == (if isLeft then d.left else d.right))
                  || (e.x == xSeam && e.depth == (if isLeft then d.right else d.left)))
    ensures k !in printed ==>
              var outer := if isLeft then events[0] else events[|events| - 1];
              outer.x == xOuter && outer.depth == (if isLeft then Dep(ctx, k).left else Dep(ctx, k).right)
    ensures k !in printed && |events| == 2 ==>
              var inner := if isLeft then events[1] else events[0];
              inner.x == xSeam && inner.depth == (if isLeft then Dep(ctx, k).right else Dep(ctx, k).left)
  {
    events := [];
    if k !in printed {
      var d := Dep(ctx, k);
      var same := Abs(d.left - d.right) < SameEps;
      if isLeft {
        events := [DepthDim(k, xOuter, yTop, d.left, xOuter - DimOffsetFront)];
        if !same {
          events := events + [DepthDim(k, xSeam, yTop, d.right, xSeam - DimOffsetFront)];
        }
      } else {
        if !same {
          events := [DepthDim(k, xSeam, yTop, d.left, xSeam + DimOffsetFront)];
        }
        events := events + [DepthDim(k, xOuter, yTop, d.right, xOuter + DimOffsetFront)];
      }
    }
    now := printed + {k};
  }

  // ---------------------------------------------------------------------------
  // The pipe through a cluster (main.py:1849-1926)

  /** The trench numbers a..b. */
  function Span(a: nat, b: nat): (r: set<nat>)
    ensures forall m :: m in r <==> a <= m <= b
    decreases b + 1 - a
  {
    if a > b then {} else {a} + Span(a + 1, b)
  }

  /** What the cluster pipe of positions i..last contributes: drawn when one
      of the cluster's trenches has a full-span first pipe with a positive
      diameter, written as "Rohr a–b" and marking every trench of the
      cluster when the routine reports a positive length. */
  predicate ClusterOut(ctx: Ctx, i: nat, last: nat, span: real, xInnerLeft: real, drawnPipe: set<nat>,
                       events: seq<Event>, lines: seq<AufLine>, drawn: set<nat>)
    requires i < last < N(ctx)
  {
    var src := FullPipeFrom(ctx, i, last);
    Quiet(events) && Plain(ctx, lines)
    && (events != [] <==> src.Some? && RealOr0(src.value.diameter) > 0.0)
    && (events != [] ==>
          events == [ClusterPipeView(i + 1, last + 1,
                       ClusterCall(Point(xInnerLeft, 0.0), span, RealOr0(src.value.diameter),
                                   ProfileFrom(ctx, i, last), RealOr0(src.value.offset)))])
    && (lines != [] <==> events != [] && ctx.tools.drawCluster(events[0].cluster) > 0.0)
    && (lines != [] ==>
          lines == [ClusterPipeRow(i + 1, last + 1, ctx.tools.drawCluster(events[0].cluster),
                                   events[0].cluster.diameter, events[0].cluster.offset)])
    && drawn == drawnPipe + (if lines != [] then Span(i + 1, last + 1) else {})
  }

  /** The cluster pipe, once the chase has found the cluster's end and span. */
  method ClusterPipe(ctx: Ctx, i: nat, last: nat, span: real, xInnerLeft: real, drawnPipe: set<nat>)
    returns (events: seq<Event>, lines: seq<AufLine>, drawn: set<nat>)
    requires i < last < N(ctx)
    ensures ClusterOut(ctx, i, last, span, xInnerLeft, drawnPipe, events, lines, drawn)
  {
    events, lines, drawn := [], [], drawnPipe;
    var src := PipeSource(ctx, i, last);
    if src.Some? {
      var d := RealOr0(src.value.diameter);
      var off := RealOr0(src.value.offset);
      if d > 0.0 {
        var profile := BuildProfile(ctx, i, last);
        var call := ClusterCall(Point(xInnerLeft, 0.0), span, d, profile, off);
        var eff := ctx.tools.drawCluster(call);
        events := [ClusterPipeView(i + 1, last + 1, call)];
        if eff > 0.0 {
          lines := [ClusterPipeRow(i + 1, last + 1, eff, d, off)];
          drawn := drawnPipe + Span(i + 1, last + 1);
          assert LineOK(ctx, lines[0]);
        }
      }
    }
    assert Quiet(events) && Plain(ctx, lines);
  }

  /** At the left end of a cluster: the chase to its last trench, which
      fails on a trench or passage of the cluster without a length and
      otherwise sums the span that the cluster pipe is drawn along. */
  method ClusterPart(ctx: Ctx, i: nat, xInnerLeft: real, drawnPipe: set<nat>)
    returns (r: Result<(seq<Event>, seq<AufLine>, set<nat>), GenError>)
    requires MergeNext(ctx, i)
    ensures r.Failure? <==> ChaseFrom(ctx, i, 0.0).Failure?
    ensures r.Failure? ==> ErrorWitness(ctx, r.error) && ErrorIn(r.error, i, ClusterEnd(ctx, i))
    ensures r.Success? ==>
              ClusterEnd(ctx, i) > i
              && ClusterOut(ctx, i, ClusterEnd(ctx, i), SpanFrom(ctx, i, ClusterEnd(ctx, i)), xInnerLeft, drawnPipe,
                            r.value.0, r.value.1, r.value.2)
  {
    var chase := ChaseCluster(ctx, i);
    ChaseSpan(ctx, i, 0.0);
    ChaseFailure(ctx, i, 0.0);
    if chase.Failure? {
      return Failure(chase.error);
    }
    var last, span := chase.value.0, chase.value.1;
    assert last == ClusterEnd(ctx, i) && span == SpanFrom(ctx, i, last);
    var events, lines, drawn := ClusterPipe(ctx, i, last, span, xInnerLeft, drawnPipe);
    r := Success((events, lines, drawn));
  }
}
