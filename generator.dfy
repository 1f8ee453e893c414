/** The main loop of `_generate_dxf_intern` (main.py:1134-2036): trench by
    trench, either a single trench or a pair merged over the connection or
    passage on their seam, with the sets that keep every plan view and every
    trench and passage line from being produced twice; then the Aufmaß
    text. */
module Generator {
  import opened Wrappers
  import opened Numbers
  import opened Elements
  import opened Order
  import opened Lookups
  import opened Sink
  import opened TrenchGeom
  import opened Aufmass
  import opened AufmassLines
  import opened GenBasics
  import opened GenCluster
  import opened GenParts
  import opened GenMerge

  /** The loop variables (main.py:1134-1142, 1239), the drawing calls made
      so far and the Aufmaß lines collected so far. */
  datatype GenState = GenState(
    i: nat, cursorX: real, originX: map<nat, real>,
    drawnTop: set<nat>, drawnPipe: set<nat>, drawnSurface: set<nat>,
    printedTrench: set<nat>, printedPass: set<nat>, printedDepth: set<nat>, printedGok: set<nat>,
    skip: bool, log: seq<Event>, lines: seq<AufLine>)

  const Start: GenState := GenState(0, 0.0, map[], {}, {}, {}, {}, {}, {}, {}, false, [], [])

  /** `trench_origin_x.get(i, cursor_x)`: where the trench at position i
      starts, fixed by an earlier merge or at the cursor. */
  function XStart(s: GenState): real {
    if s.i in s.originX then s.originX[s.i] else s.cursorX
  }

  /** `p_w`: the width of the passage on a linked seam, 0 at a
      connection-only seam. */
  function PassWidth(ctx: Ctx, seam: nat): real
    requires HasLink(ctx, seam)
  {
    if JoinOnly(ctx, seam) then 0.0 else RealOr0(PassAt(ctx, seam).value.length)
  }

  // ---------------------------------------------------------------------------
  // What one pass of the loop adds

  ghost predicate TopsNew(es: seq<Event>, before: set<nat>, after: set<nat>) {
    forall m: nat :: Count(es, IsTopOf(m)) == NewIn(m, before, after)
  }

  ghost predicate TrenchNew(ls: seq<AufLine>, before: set<nat>, after: set<nat>) {
    forall m: nat :: Count(ls, WrittenFor(TrenchLine(m))) == NewIn(m, before, after)
  }

  ghost predicate PassNew(ls: seq<AufLine>, before: set<nat>, after: set<nat>) {
    forall m: nat :: Count(ls, WrittenFor(PassageLine(m))) == NewIn(m, before, after)
  }

  /** One pass moves to the next position and only appends: well-formed
      calls and lines, a plan view for exactly the trenches that become
      drawn, a trench line for exactly the trenches that become printed and
      a passage line for exactly the seams that become printed. */
  ghost predicate Advance(ctx: Ctx, s: GenState, t: GenState) {
    t.i == s.i + 1 && t.cursorX >= s.cursorX
    && |s.log| <= |t.log| && t.log[..|s.log|] == s.log
    && |s.lines| <= |t.lines| && t.lines[..|s.lines|] == s.lines
    && s.drawnTop <= t.drawnTop && s.printedTrench <= t.printedTrench && s.printedPass <= t.printedPass
    && EventsOK(ctx, t.log[|s.log|..]) && LinesOK(ctx, t.lines[|s.lines|..])
    && TopsNew(t.log[|s.log|..], s.drawnTop, t.drawnTop)
    && TrenchNew(t.lines[|s.lines|..], s.printedTrench, t.printedTrench)
    && PassNew(t.lines[|s.lines|..], s.printedPass, t.printedPass)
  }

  /** The calls and lines so far are well formed, and each trench has as
      many plan views and trench lines, and each seam as many passage
      lines, as its membership in the matching set says. */
  ghost predicate Tallied(ctx: Ctx, s: GenState) {
    EventsOK(ctx, s.log) && LinesOK(ctx, s.lines)
    && (forall m: nat :: Count(s.log, IsTopOf(m)) == (if m in s.drawnTop then 1 else 0))
    && (forall m: nat :: Count(s.lines, WrittenFor(TrenchLine(m))) == (if m in s.printedTrench then 1 else 0))
    && (forall m: nat :: Count(s.lines, WrittenFor(PassageLine(m))) == (if m in s.printedPass then 1 else 0))
  }

  /** A pass keeps the tallies exact. */
  lemma AdvanceTallied(ctx: Ctx, s: GenState, t: GenState)
    requires Tallied(ctx, s) && Advance(ctx, s, t)
    ensures Tallied(ctx, t)
  {
    var newLog, newLines := t.log[|s.log|..], t.lines[|s.lines|..];
    assert t.log == s.log + newLog;
    assert t.lines == s.lines + newLines;
    EventsOKAppend(ctx, s.log, newLog);
    LinesOKAppend(ctx, s.lines, newLines);
    forall m ensures Count(t.log, IsTopOf(m)) == (if m in t.drawnTop then 1 else 0) {
      CountAppend(s.log, newLog, IsTopOf(m));
    }
    forall m ensures Count(t.lines, WrittenFor(TrenchLine(m))) == (if m in t.printedTrench then 1 else 0)
                 && Count(t.lines, WrittenFor(PassageLine(m))) == (if m in t.printedPass then 1 else 0)
    {
      CountAppend(s.lines, newLines, WrittenFor(TrenchLine(m)));
      CountAppend(s.lines, newLines, WrittenFor(PassageLine(m)));
    }
  }

  /** Untopped calls around plan views leave the plan views the only ones. */
  lemma AroundTops(ctx: Ctx, pre: seq<Event>, tops: seq<Event>, rest: seq<Event>)
    requires Untopped(ctx, pre) && EventsOK(ctx, tops) && Untopped(ctx, rest)
    ensures EventsOK(ctx, pre + tops + rest)
    ensures forall m: nat :: Count(pre + tops + rest, IsTopOf(m)) == Count(tops, IsTopOf(m))
  {
    EventsShape(ctx, tops, rest);
    EventsOKAppend(ctx, pre, tops + rest);
    assert pre + tops + rest == pre + (tops + rest);
    forall m ensures Count(pre + tops + rest, IsTopOf(m)) == Count(tops, IsTopOf(m)) {
      CountAppend(pre, tops + rest, IsTopOf(m));
      NoTopCount(pre, m);
    }
  }

  /** Two trench tallies and a passage tally in a row. */
  lemma TallyChain(a: seq<AufLine>, b: seq<AufLine>, c: seq<AufLine>,
                   p0: set<nat>, p1: set<nat>, p2: set<nat>, q0: set<nat>, q1: set<nat>)
    requires p0 <= p1 <= p2
    requires TrenchNew(a, p0, p1) && TrenchNew(b, p1, p2) && TrenchNew(c, p2, p2)
    requires PassNew(a, q0, q0) && PassNew(b, q0, q0) && PassNew(c, q0, q1)
    ensures TrenchNew(a + b + c, p0, p2) && PassNew(a + b + c, q0, q1)
  {
    forall m ensures Count(a + b + c, WrittenFor(TrenchLine(m))) == NewIn(m, p0, p2)
                 && Count(a + b + c, WrittenFor(PassageLine(m))) == NewIn(m, q0, q1)
    {
      CountAppend(a, b, WrittenFor(TrenchLine(m)));
      CountAppend(a + b, c, WrittenFor(TrenchLine(m)));
      CountAppend(a, b, WrittenFor(PassageLine(m)));
      CountAppend(a + b, c, WrittenFor(PassageLine(m)));
    }
  }

  // ---------------------------------------------------------------------------
  // A single trench (main.py:1259-1356)

  /** The elevation of a single trench at x, with both end depths. */
  function SoloFront(ctx: Ctx, k: nat, x: real): (c: FrontCall)
    requires 1 <= k <= N(ctx)
    ensures LevelsOf(c.origin.y, c.depth, c.clearanceBottom, c.depthLeft, c.depthRight).yTop
            == ClrBot + ctx.maxDepth + GokAt(ctx, k)
    ensures c.origin.x == x && c.length == Len(ctx, k) && c.clearanceLeft == ClrLR
  {
    FrontCeiling(ctx, k, x, 0.2);
    FrontCall(FrontOrigin(ctx, k, x), Len(ctx, k), Dep(ctx, k).ref, ClrLR, 0.2,
              Some(Dep(ctx, k).left), Some(Dep(ctx, k).right))
  }

  /** The new sets and bookkeeping of a single trench k at position s.i. */
  predicate SoloSets(ctx: Ctx, s: GenState, t: GenState)
    requires s.i < N(ctx)
  {
    var k, x := s.i + 1, XStart(s);
    t.drawnTop == s.drawnTop + {k} && t.printedTrench == s.printedTrench + {k}
    && t.printedPass == s.printedPass && !t.skip
    && t.originX == s.originX[s.i := x]
    && t.cursorX == Max(s.cursorX, x + Len(ctx, k) + 2.0 * ClrLR + GapBG)
    && t.printedDepth == s.printedDepth && t.printedGok == s.printedGok
    && s.drawnPipe <= t.drawnPipe <= s.drawnPipe + {k}
    && s.drawnSurface <= t.drawnSurface <= s.drawnSurface + {k}
  }

  /** Branch A of the loop: the elevation, then the plan view, the pipe, the
      surfaces and the trench line of trench s.i + 1, each once; the trench
      line fails on a ground level `float` cannot read. */
  method SoloStep(ctx: Ctx, s: GenState) returns (r: Result<GenState, GenError>)
    requires s.i < N(ctx) && !MergeNext(ctx, s.i) && !(1 <= s.i && HasLink(ctx, s.i))
    ensures r.Failure? <==> s.i + 1 !in s.printedTrench && GokValue(Trench(ctx, s.i + 1), ctx.tools.parse).None?
    ensures r.Failure? ==> r.error == BadGok(s.i + 1) && ErrorWitness(ctx, r.error)
    ensures r.Success? ==> Advance(ctx, s, r.value) && SoloSets(ctx, s, r.value)
    ensures r.Success? ==>
              |r.value.log| > |s.log| && r.value.log[|s.log|] == FrontView(s.i + 1, SoloFront(ctx, s.i + 1, XStart(s)))
  {
    var k, x := s.i + 1, XStart(s);
    var front := FrontView(k, SoloFront(ctx, k, x));
    var tops, drawnTop := SoloTop(ctx, k, x, s.drawnTop);
    var quiet, plain, drawnPipe, drawnSurface := SoloExtras(ctx, k, x, s.drawnPipe, s.drawnSurface);
    var tally := TrenchTally(ctx, k, s.printedTrench);
    if tally.Failure? {
      return Failure(tally.error);
    }
    assert Untopped(ctx, [front]);
    AroundTops(ctx, [front], tops, quiet);
    var newLog := [front] + tops + quiet;
    LinesShape(ctx, plain, tally.value.0);
    var newLines := plain + tally.value.0;
    r := Success(s.(i := k, cursorX := Max(s.cursorX, x + Len(ctx, k) + 2.0 * ClrLR + GapBG),
                    originX := s.originX[s.i := x], drawnTop := drawnTop, drawnPipe := drawnPipe,
                    drawnSurface := drawnSurface, printedTrench := tally.value.1, skip := false,
                    log := s.log + newLog, lines := s.lines + newLines));
    assert r.value.log[|s.log|..] == newLog;
    assert r.value.lines[|s.lines|..] == newLines;
  }

  /** The plan view of a single trench k at x: unclipped, since neither of
      its seams is linked, and dimensioned on the right for the last trench. */
  method SoloTop(ctx: Ctx, k: nat, x: real, drawnTop: set<nat>) returns (tops: seq<Event>, drawn: set<nat>)
    requires 1 <= k <= N(ctx) && !(k > 1 && HasLink(ctx, k - 1)) && !(k < N(ctx) && HasLink(ctx, k))
    ensures drawn == drawnTop + {k} && TopsNew(tops, drawnTop, drawn) && EventsOK(ctx, tops)
  {
    tops, drawn := PlanView(ctx, k, Point(x + ClrLR, ctx.yTop), false, false, k == N(ctx), drawnTop);
    forall j | 0 <= j < |tops| ensures EventOK(ctx, tops[j]) {
    }
  }

  /** The pipe and the surfaces of a single trench k at x
      (main.py:1289-1345): the pipe from the trench's own floor, the
      surfaces free at both ends. */
  method SoloExtras(ctx: Ctx, k: nat, x: real, drawnPipe: set<nat>, drawnSurface: set<nat>)
    returns (quiet: seq<Event>, plain: seq<AufLine>, dp: set<nat>, ds: set<nat>)
    requires 1 <= k <= N(ctx)
    ensures Untopped(ctx, quiet) && Plain(ctx, plain)
    ensures drawnPipe <= dp <= drawnPipe + {k} && drawnSurface <= ds <= drawnSurface + {k}
  {
    var d, base := Dep(ctx, k), Base(ctx, k);
    var pipeEvents, pipeLines, drawnPipe' :=
      PipePart(ctx, k, Point(x + ClrLR, base), base + (d.ref - d.left), base + (d.ref - d.right), drawnPipe);
    var surfEvents, surfLines, drawnSurface' :=
      SurfacePart(ctx, k, Point(x + ClrLR, ctx.yTop), false, false, true, true, false, false, drawnSurface);
    QuietAppend(pipeEvents, surfEvents);
    QuietUntopped(ctx, pipeEvents + surfEvents);
    PlainAppend(ctx, pipeLines, surfLines);
    quiet, plain, dp, ds := pipeEvents + surfEvents, pipeLines + surfLines, drawnPipe', drawnSurface';
  }

  // ---------------------------------------------------------------------------
  // A merged pair (main.py:1358-2005)

  /** The plan views of the pair (main.py:1400-1420), each once, each edge
      clipped exactly at a connection-only seam, the right one dimensioned
      on the right when it is the last trench. */
  method PairTops(ctx: Ctx, i: nat, lay: Layout, drawnTop: set<nat>) returns (tops: seq<Event>, dt: set<nat>)
    requires i + 1 < N(ctx) && lay == MergeLayout(ctx, i, lay.xL, lay.pw)
    ensures dt == drawnTop + {i + 1, i + 2} && TopsNew(tops, drawnTop, dt) && EventsOK(ctx, tops)
  {
    var topsL, dt1 := PlanView(ctx, i + 1, Point(lay.xInnerLeft, ctx.yTop), lay.joinL, lay.joinOnly, false, drawnTop);
    var topsR, dt2 := PlanView(ctx, i + 2, Point(lay.xRightStart, ctx.yTop), lay.joinOnly, lay.joinR, i + 2 == N(ctx), dt1);
    tops, dt := topsL + topsR, dt2;
    forall m: nat ensures Count(tops, IsTopOf(m)) == NewIn(m, drawnTop, dt) {
      CountAppend(topsL, topsR, IsTopOf(m));
    }
    forall j | 0 <= j < |tops| ensures EventOK(ctx, tops[j]) {
      if j >= |topsL| {
        assert tops[j] == topsR[j - |topsL|];
      }
    }
  }

  /** The ground-level dimensions, the seam line and the surfaces of the
      pair (main.py:1422-1511), the surfaces clipped toward a
      connection-only seam and not free toward the other trench. */
  method PairMarks(ctx: Ctx, i: nat, lay: Layout, printedGok: set<nat>, drawnSurface: set<nat>)
    returns (quiet: seq<Event>, lines: seq<AufLine>, pg: set<nat>, ds: set<nat>)
    requires i + 1 < N(ctx)
    ensures Untopped(ctx, quiet) && Plain(ctx, lines)
    ensures printedGok <= pg <= printedGok + {i + 1, i + 2}
    ensures drawnSurface <= ds <= drawnSurface + {i + 1, i + 2}
  {
    var gok, pg1 := PairGoks(ctx, i, lay, printedGok);
    var seam := SeamMark(ctx, i, lay);
    var surf, lines1, ds1 := PairSurfaces(ctx, i, lay, drawnSurface);
    QuietAppend(gok, seam);
    QuietAppend(gok + seam, surf);
    quiet := gok + seam + surf;
    QuietUntopped(ctx, quiet);
    lines, pg, ds := lines1, pg1, ds1;
  }

  /** The ground-level dimensions of the two trenches of the pair. */
  method PairGoks(ctx: Ctx, i: nat, lay: Layout, printedGok: set<nat>) returns (events: seq<Event>, pg: set<nat>)
    requires i + 1 < N(ctx)
    ensures Quiet(events)
    ensures printedGok <= pg <= printedGok + {i + 1, i + 2}
  {
    var gokL, pg1 := GokMark(ctx, i + 1, lay.xInnerLeft, lay.yTopL, true, printedGok);
    var gokR, pg2 := GokMark(ctx, i + 2, lay.xInnerRight, lay.yTopR, false, pg1);
    QuietAppend(gokL, gokR);
    events, pg := gokL + gokR, pg2;
  }

  /** The surfaces of the two trenches of the pair, clipped toward a
      connection-only seam and not free toward the other trench. */
  method PairSurfaces(ctx: Ctx, i: nat, lay: Layout, drawnSurface: set<nat>)
    returns (events: seq<Event>, lines: seq<AufLine>, ds: set<nat>)
    requires i + 1 < N(ctx)
    ensures Quiet(events) && Plain(ctx, lines)
    ensures drawnSurface <= ds <= drawnSurface + {i + 1, i + 2}
  {
    var surfL, linesL, ds1 :=
      SurfaceSide(ctx, i + 1, Point(lay.xInnerLeft, ctx.yTop), lay.joinL, lay.joinOnly, !lay.joinL, false,
                  lay.joinL && lay.joinOnly, lay.joinOnly, drawnSurface);
    var surfR, linesR, ds2 :=
      SurfaceSide(ctx, i + 2, Point(lay.xRightStart, ctx.yTop), lay.joinOnly, lay.joinR, false, !lay.joinR,
                  lay.joinOnly, lay.joinR && lay.joinOnly, ds1);
    QuietAppend(surfL, surfR);
    PlainAppend(ctx, linesL, linesR);
    events, lines, ds := surfL + surfR, linesL + linesR, ds2;
  }

  /** The surface part of one trench of a pair, seen only as quiet calls and
      plain lines that may mark the trench's surface drawn. */
  method SurfaceSide(ctx: Ctx, k: nat, topLeft: Point, segClipLeft: bool, segClipRight: bool,
                     leftFree: bool, rightFree: bool, rectClipLeft: bool, rectClipRight: bool,
                     drawnSurface: set<nat>)
    returns (events: seq<Event>, lines: seq<AufLine>, drawn: set<nat>)
    requires 1 <= k <= N(ctx)
    ensures Quiet(events) && Plain(ctx, lines)
    ensures drawnSurface <= drawn <= drawnSurface + {k}
  {
    events, lines, drawn := SurfacePart(ctx, k, topLeft, segClipLeft, segClipRight, leftFree, rightFree,
                                        rectClipLeft, rectClipRight, drawnSurface);
  }

  /** The elevations of the pair, its outer contour and passage, the
      cluster pipe at the left end of a cluster and the single pipes
      (main.py:1513-1966); only the chase of the cluster fails, on a trench
      or passage of the cluster without a length. */
  method PairElevations(ctx: Ctx, i: nat, lay: Layout, drawnPipe: set<nat>)
    returns (r: Result<(seq<Event>, seq<AufLine>, set<nat>), GenError>)
    requires MergeNext(ctx, i) && lay == MergeLayout(ctx, i, lay.xL, lay.pw)
    ensures r.Failure? <==> !lay.hasPassLeft && ChaseFrom(ctx, i, 0.0).Failure?
    ensures r.Failure? ==> ErrorWitness(ctx, r.error)
    ensures r.Success? ==> Untopped(ctx, r.value.0) && Plain(ctx, r.value.1) && drawnPipe <= r.value.2
  {
    var fronts, rest := PairFronts(ctx, i, lay);
    var cluster, clusterLines, drawn := [], [], drawnPipe;
    if !lay.hasPassLeft {
      var c := ClusterPart(ctx, i, lay.xInnerLeft, drawnPipe);
      if c.Failure? {
        return Failure(c.error);
      }
      cluster, clusterLines, drawn := c.value.0, c.value.1, c.value.2;
    }
    var pipes, pipeLines, drawn' := PairPipes(ctx, i, lay, drawn);
    QuietAppend(rest, cluster);
    QuietAppend(rest + cluster, pipes);
    QuietUntopped(ctx, rest + cluster + pipes);
    UntoppedAppend(ctx, fronts, rest + cluster + pipes);
    PlainAppend(ctx, clusterLines, pipeLines);
    r := Success((fronts + (rest + cluster + pipes), clusterLines + pipeLines, drawn'));
  }

  /** The depth dimensions of the pair (main.py:1968-1989), at the outer
      ends and, for a sloped floor, at the seam. */
  method PairDepths(ctx: Ctx, i: nat, lay: Layout, printedDepth: set<nat>)
    returns (events: seq<Event>, pd: set<nat>)
    requires i + 1 < N(ctx)
    ensures Quiet(events) && pd == printedDepth + {i + 1, i + 2}
    ensures |events| == DepthCount(ctx, i + 1, printedDepth) + DepthCount(ctx, i + 2, printedDepth)
    ensures forall j :: 0 <= j < |events| ==>
              var e := events[j];
              e.DepthDim?
              && if j < DepthCount(ctx, i + 1, printedDepth) then
                   e.trench == i + 1 && e.yTop == lay.yTopL && e.baseX == e.x - DimOffsetFront
                   && (e.x == lay.xInnerLeft || e.x == lay.xSeam)
                 else
                   e.trench == i + 2 && e.yTop == lay.yTopR && e.baseX == e.x + DimOffsetFront
                   && (e.x == lay.xSeam || e.x == lay.xInnerRight)
    ensures i + 1 !in printedDepth ==> events[0].x == lay.xInnerLeft && events[0].depth == Dep(ctx, i + 1).left
    ensures i + 2 !in printedDepth ==>
              events[|events| - 1].x == lay.xInnerRight && events[|events| - 1].depth == Dep(ctx, i + 2).right
  {
    var depthL, pd1 := DepthMarks(ctx, i + 1, lay.xInnerLeft, lay.xSeam, lay.yTopL, true, printedDepth);
    var depthR, pd2 := DepthMarks(ctx, i + 2, lay.xInnerRight, lay.xSeam, lay.yTopR, false, pd1);
    QuietAppend(depthL, depthR);
    events, pd := depthL + depthR, pd2;
  }

  /** The single pipes of the two trenches of the pair, each at the pair's
      common bottom line and only where no pipe is drawn yet
      (main.py:1927-1966). */
  method PairPipes(ctx: Ctx, i: nat, lay: Layout, drawnPipe: set<nat>)
    returns (events: seq<Event>, lines: seq<AufLine>, drawn: set<nat>)
    requires i + 1 < N(ctx)
    ensures Quiet(events) && Plain(ctx, lines)
    ensures drawnPipe <= drawn <= drawnPipe + {i + 1, i + 2}
  {
    var evL, lnL, dr1 := PairPipe(ctx, i + 1, lay.xInnerLeft, lay.baseL, drawnPipe);
    var evR, lnR, dr2 := PairPipe(ctx, i + 2, lay.xRightStart, lay.baseR, dr1);
    GrowsByPair(drawnPipe, dr1, dr2, i + 1, lnL != [], lnR != []);
    QuietAppend(evL, evR);
    PlainAppend(ctx, lnL, lnR);
    events, lines, drawn := evL + evR, lnL + lnR, dr2;
  }

  /** The single pipe of trench k of a pair, its ends at the trench's end
      depths below the inner bottom `base`. */
  method PairPipe(ctx: Ctx, k: nat, x: real, base: real, drawnPipe: set<nat>)
    returns (events: seq<Event>, lines: seq<AufLine>, drawn: set<nat>)
    requires 1 <= k <= N(ctx)
    ensures Quiet(events) && Plain(ctx, lines)
    ensures drawn == drawnPipe + (if lines != [] then {k} else {})
  {
    var d := Dep(ctx, k);
    events, lines, drawn := PipePart(ctx, k, Point(x, ClrBot), base + (d.ref - d.left), base + (d.ref - d.right), drawnPipe);
  }

  /** Two sides of a pair that each may add their own trench to a set. */
  lemma GrowsByPair(d0: set<nat>, d1: set<nat>, d2: set<nat>, k: nat, b1: bool, b2: bool)
    requires d1 == d0 + (if b1 then {k} else {})
    requires d2 == d1 + (if b2 then {k + 1} else {})
    ensures d0 <= d2 <= d0 + {k, k + 1}
  {
  }

  /** A well-formed input has a length for every trench and passage of the
      cluster that starts at position i. */
  lemma WellFormedChase(ctx: Ctx, i: nat)
    requires WellFormed(ctx) && i < N(ctx)
    ensures ChaseFrom(ctx, i, 0.0).Success?
  {
    forall k | i <= k <= ClusterEnd(ctx, i) ensures ctx.trenches[k].length.Some? {
      assert Trench(ctx, k + 1) == ctx.trenches[k];
    }
    ChaseSucceeds(ctx, i, 0.0);
  }

  /** The new sets and bookkeeping of the pair at positions s.i and s.i + 1. */
  predicate MergeSets(ctx: Ctx, s: GenState, t: GenState)
    requires MergeNext(ctx, s.i)
  {
    var i, x := s.i, XStart(s);
    var lay := MergeLayout(ctx, i, x, PassWidth(ctx, i + 1));
    t.drawnTop == s.drawnTop + {i + 1, i + 2} && t.printedTrench == s.printedTrench + {i + 1, i + 2}
    && t.printedPass == s.printedPass + (if JoinOnly(ctx, i + 1) then {} else {i + 1})
    && t.skip
    && t.originX == s.originX[i := x][i + 1 := lay.xRightStart]
    && t.cursorX == Max(s.cursorX, lay.xInnerRight + lay.rightClear + GapBG)
    && t.printedDepth == s.printedDepth + {i + 1, i + 2}
    && s.printedGok <= t.printedGok <= s.printedGok + {i + 1, i + 2}
    && s.drawnPipe <= t.drawnPipe
    && s.drawnSurface <= t.drawnSurface <= s.drawnSurface + {i + 1, i + 2}
  }

  /** Branch B of the loop: a passage without a length fails first; then the
      views, the two elevations, the outer contour and the passage, the
      cluster pipe at the left end of a cluster (whose chase fails on a
      missing length), the single pipes, the depth dimensions and the
      trench and passage lines. */
  method MergeStep(ctx: Ctx, s: GenState) returns (r: Result<GenState, GenError>)
    requires MergeNext(ctx, s.i)
    ensures PassAt(ctx, s.i + 1).Some? && PassAt(ctx, s.i + 1).value.length.None? ==>
              r == Failure(PassWithoutLength(s.i + 1))
    ensures r.Failure? ==> ErrorWitness(ctx, r.error)
    ensures WellFormed(ctx) ==> r.Success?
    ensures r.Success? ==> Advance(ctx, s, r.value) && MergeSets(ctx, s, r.value)
  {
    var i := s.i;
    var pw := 0.0;
    if !JoinOnly(ctx, i + 1) {
      var pas := PassAt(ctx, i + 1);
      if pas.value.length.None? {
        return Failure(PassWithoutLength(i + 1));
      }
      pw := pas.value.length.value;
    }
    r := MergeBody(ctx, s, pw);
  }

  /** The pair once the passage width is known. */
  method MergeBody(ctx: Ctx, s: GenState, pw: real) returns (r: Result<GenState, GenError>)
    requires MergeNext(ctx, s.i) && pw == PassWidth(ctx, s.i + 1)
    requires !JoinOnly(ctx, s.i + 1) ==> PassAt(ctx, s.i + 1).Some? && PassAt(ctx, s.i + 1).value.length == Some(pw)
    ensures r.Failure? ==> ErrorWitness(ctx, r.error)
    ensures WellFormed(ctx) ==> r.Success?
    ensures r.Success? ==> Advance(ctx, s, r.value) && MergeSets(ctx, s, r.value)
  {
    var i := s.i;
    if WellFormed(ctx) {
      WellFormedChase(ctx, i);
    }
    var elev := PairElevations(ctx, i, MergeLayout(ctx, i, XStart(s), pw), s.drawnPipe);
    if elev.Failure? {
      return Failure(elev.error);
    }
    var t := PairTally(ctx, i, pw, s.printedTrench, s.printedPass);
    if t.Failure? {
      return Failure(t.error);
    }
    var next := MergeAssemble(ctx, s, pw, elev.value, t.value);
    r := Success(next);
  }

  /** The state after a merged pair, from its elevations and its tallies: the
      views, the surface and ground marks and the depth dimensions are added
      here. */
  method MergeAssemble(ctx: Ctx, s: GenState, pw: real, elev: (seq<Event>, seq<AufLine>, set<nat>),
                       tally: (seq<AufLine>, set<nat>, set<nat>))
    returns (next: GenState)
    requires MergeNext(ctx, s.i) && pw == PassWidth(ctx, s.i + 1)
    requires Untopped(ctx, elev.0) && Plain(ctx, elev.1) && s.drawnPipe <= elev.2
    requires LinesOK(ctx, tally.0)
             && tally.1 == s.printedTrench + {s.i + 1, s.i + 2}
             && tally.2 == s.printedPass + (if JoinOnly(ctx, s.i + 1) then {} else {s.i + 1})
             && TrenchNew(tally.0, s.printedTrench, tally.1) && PassNew(tally.0, s.printedPass, tally.2)
    ensures Advance(ctx, s, next) && MergeSets(ctx, s, next)
  {
    var i, x := s.i, XStart(s);
    var lay := MergeLayout(ctx, i, x, pw);
    var tops, drawnTop := PairTops(ctx, i, lay, s.drawnTop);
    var marks, plain, printedGok, drawnSurface := PairMarks(ctx, i, lay, s.printedGok, s.drawnSurface);
    var fronts, pipeLines, drawnPipe := elev.0, elev.1, elev.2;
    var depths, printedDepth := PairDepths(ctx, i, lay, s.printedDepth);
    // the calls: the plan views first, then nothing that is a plan view
    QuietUntopped(ctx, depths);
    UntoppedAppend(ctx, marks, fronts);
    UntoppedAppend(ctx, marks + fronts, depths);
    // the lines: first those that are neither trench nor passage lines
    PlainAppend(ctx, plain, pipeLines);
    next := s.(i := i + 1, cursorX := Max(s.cursorX, lay.xInnerRight + lay.rightClear + GapBG),
               originX := s.originX[i := x][i + 1 := lay.xRightStart],
               drawnTop := drawnTop, drawnPipe := drawnPipe, drawnSurface := drawnSurface,
               printedTrench := tally.1, printedPass := tally.2,
               printedDepth := printedDepth, printedGok := printedGok, skip := true,
               log := s.log + (tops + (marks + fronts + depths)), lines := s.lines + ((plain + pipeLines) + tally.0));
    Extend(ctx, s, next, tops, marks + fronts + depths, plain + pipeLines, tally.0);
  }

  /** A state that appends plan views, then calls that are no plan views,
      and lines that are no tallies, then tallies, advances the loop. */
  lemma Extend(ctx: Ctx, s: GenState, t: GenState, tops: seq<Event>, rest: seq<Event>,
               plain: seq<AufLine>, tally: seq<AufLine>)
    requires t.i == s.i + 1 && t.cursorX >= s.cursorX
    requires t.log == s.log + (tops + rest) && t.lines == s.lines + (plain + tally)
    requires s.drawnTop <= t.drawnTop && s.printedTrench <= t.printedTrench && s.printedPass <= t.printedPass
    requires EventsOK(ctx, tops) && Untopped(ctx, rest) && Plain(ctx, plain) && LinesOK(ctx, tally)
    requires TopsNew(tops, s.drawnTop, t.drawnTop)
    requires TrenchNew(tally, s.printedTrench, t.printedTrench) && PassNew(tally, s.printedPass, t.printedPass)
    ensures Advance(ctx, s, t)
  {
    assert t.log[|s.log|..] == tops + rest;
    assert t.lines[|s.lines|..] == plain + tally;
    EventsShape(ctx, tops, rest);
    LinesShape(ctx, plain, tally);
  }

  /** The trench lines of both trenches and the passage line of the seam
      (main.py:1991-1999); a trench line fails on a ground level `float`
      cannot read. */
  method PairTally(ctx: Ctx, i: nat, pw: real, printedTrench: set<nat>, printedPass: set<nat>)
    returns (r: Result<(seq<AufLine>, set<nat>, set<nat>), GenError>)
    requires MergeNext(ctx, i)
    requires !JoinOnly(ctx, i + 1) ==> PassAt(ctx, i + 1).Some? && PassAt(ctx, i + 1).value.length == Some(pw)
    ensures r.Failure? <==>
              (i + 1 !in printedTrench && GokValue(Trench(ctx, i + 1), ctx.tools.parse).None?)
              || (i + 2 !in printedTrench && GokValue(Trench(ctx, i + 2), ctx.tools.parse).None?)
    ensures r.Failure? ==> ErrorWitness(ctx, r.error)
    ensures r.Success? ==>
              LinesOK(ctx, r.value.0)
              && r.value.1 == printedTrench + {i + 1, i + 2}
              && r.value.2 == printedPass + (if JoinOnly(ctx, i + 1) then {} else {i + 1})
              && TrenchNew(r.value.0, printedTrench, r.value.1) && PassNew(r.value.0, printedPass, r.value.2)
  {
    var t1 := TrenchTally(ctx, i + 1, printedTrench);
    if t1.Failure? {
      return Failure(t1.error);
    }
    var t2 := TrenchTally(ctx, i + 2, t1.value.1);
    if t2.Failure? {
      return Failure(t2.error);
    }
    var passLines, now := PassTally(ctx, i + 1, pw, printedPass);
    LinesOKAppend(ctx, t1.value.0, t2.value.0);
    LinesOKAppend(ctx, t1.value.0 + t2.value.0, passLines);
    TallyChain(t1.value.0, t2.value.0, passLines, printedTrench, t1.value.1, t2.value.1, printedPass, now);
    r := Success((t1.value.0 + t2.value.0 + passLines, t2.value.1, now));
  }

  // ---------------------------------------------------------------------------
  // The loop invariant

  /** How many trenches are drawn: those before position i, and the one at
      i as well when the last merge drew it. */
  function Drawn(s: GenState): nat { s.i + if s.skip then 1 else 0 }

  /** The seams 1..n (below the last trench) that carry a passage. */
  function PassSeams(ctx: Ctx, n: nat): (r: set<nat>)
    ensures forall q :: q in r <==> 1 <= q <= n && q < N(ctx) && PassAt(ctx, q).Some?
  {
    if n == 0 then {} else PassSeams(ctx, n - 1) + (if n < N(ctx) && PassAt(ctx, n).Some? then {n} else {})
  }

  /** The skip flag is set exactly when seam i is linked, so the trench at
      position i was drawn as the right half of the last merge; the plan
      views and trench lines done are those of the trenches drawn, the
      passage lines those of the passage seams passed. */
  predicate Shape(ctx: Ctx, s: GenState) {
    s.i <= N(ctx)
    && (s.skip <==> 1 <= s.i < N(ctx) && HasLink(ctx, s.i))
    && s.drawnTop == Span(1, Drawn(s)) && s.printedTrench == Span(1, Drawn(s))
    && s.printedPass == PassSeams(ctx, s.i)
  }

  /** The loop invariant: the shape of the sets and exact tallies. */
  ghost predicate Inv(ctx: Ctx, s: GenState) {
    Shape(ctx, s) && Tallied(ctx, s)
  }

  lemma StartInv(ctx: Ctx)
    ensures Inv(ctx, Start)
  {
    assert Span(1, 0) == {};
    assert PassSeams(ctx, 0) == {};
    forall m: nat ensures Count(Start.log, IsTopOf(m)) == 0
                 && Count(Start.lines, WrittenFor(TrenchLine(m))) == 0
                 && Count(Start.lines, WrittenFor(PassageLine(m))) == 0
    {
      CountNone(Start.log, IsTopOf(m));
      CountNone(Start.lines, WrittenFor(TrenchLine(m)));
      CountNone(Start.lines, WrittenFor(PassageLine(m)));
    }
  }

  /** A single trench keeps the shape of the sets. */
  lemma SoloKeeps(ctx: Ctx, s: GenState, t: GenState)
    requires Shape(ctx, s) && s.i < N(ctx) && !MergeNext(ctx, s.i) && !s.skip
    requires t.i == s.i + 1 && SoloSets(ctx, s, t)
    ensures Shape(ctx, t)
  {
    assert Span(1, t.i) == Span(1, s.i) + {s.i + 1};
    assert PassSeams(ctx, t.i) == PassSeams(ctx, s.i);
  }

  /** A merged pair keeps the shape of the sets. */
  lemma MergeKeeps(ctx: Ctx, s: GenState, t: GenState)
    requires Shape(ctx, s) && MergeNext(ctx, s.i)
    requires t.i == s.i + 1 && MergeSets(ctx, s, t)
    ensures Shape(ctx, t)
  {
    assert Span(1, Drawn(t)) == Span(1, Drawn(s)) + {s.i + 1, s.i + 2};
    LinkKinds(ctx, s.i + 1);
    assert PassSeams(ctx, t.i) == PassSeams(ctx, s.i) + (if JoinOnly(ctx, s.i + 1) then {} else {s.i + 1});
  }

  /** Skipping the right half of the last merge keeps the invariant. */
  lemma SkipKeeps(ctx: Ctx, s: GenState)
    requires Inv(ctx, s) && s.i < N(ctx) && !MergeNext(ctx, s.i) && s.skip
    ensures Inv(ctx, s.(i := s.i + 1, skip := false))
  {
    var t := s.(i := s.i + 1, skip := false);
    TalliedSameRecords(ctx, s, t);
    SkipShape(ctx, s, t);
  }

  /** Skipping moves past an unlinked seam and keeps the shape of the sets. */
  lemma SkipShape(ctx: Ctx, s: GenState, t: GenState)
    requires Shape(ctx, s) && s.i < N(ctx) && !MergeNext(ctx, s.i) && s.skip
    requires t == s.(i := s.i + 1, skip := false)
    ensures Shape(ctx, t)
  {
    assert Drawn(t) == Drawn(s);
    PassSeamsUnlinked(ctx, s.i);
  }

  /** The tallies depend only on the calls, the lines and the sets. */
  lemma TalliedSameRecords(ctx: Ctx, s: GenState, t: GenState)
    requires Tallied(ctx, s)
    requires t.log == s.log && t.lines == s.lines
    requires t.drawnTop == s.drawnTop && t.printedTrench == s.printedTrench && t.printedPass == s.printedPass
    ensures Tallied(ctx, t)
  {
  }

  /** An unlinked seam after position i adds no passage seam. */
  lemma PassSeamsUnlinked(ctx: Ctx, i: nat)
    requires !MergeNext(ctx, i)
    ensures PassSeams(ctx, i + 1) == PassSeams(ctx, i)
  {
  }

  // ---------------------------------------------------------------------------
  // The whole run

  /** Every call well formed, one plan view and one trench line for each
      trench 1..N, one passage line for each seam between two trenches that
      carries a passage, and no others. */
  ghost predicate Complete(ctx: Ctx, log: seq<Event>, lines: seq<AufLine>) {
    EventsOK(ctx, log) && LinesOK(ctx, lines)
    && (forall m: nat :: Count(log, IsTopOf(m)) == (if 1 <= m <= N(ctx) then 1 else 0))
    && (forall m: nat :: Count(lines, WrittenFor(TrenchLine(m))) == (if 1 <= m <= N(ctx) then 1 else 0))
    && (forall m: nat :: Count(lines, WrittenFor(PassageLine(m))) ==
                      (if 1 <= m < N(ctx) && PassAt(ctx, m).Some? then 1 else 0))
  }

  /** At the end of the loop the tallies are complete. */
  lemma Finished(ctx: Ctx, s: GenState)
    requires Inv(ctx, s) && s.i >= N(ctx)
    ensures Complete(ctx, s.log, s.lines)
  {
    assert Drawn(s) == N(ctx);
  }

  datatype Output = Output(log: seq<Event>, lines: seq<AufLine>, text: seq<string>)

  /** `_generate_dxf_intern` without the document: no trench fails with
      "Kein Baugraben vorhanden"; otherwise every error names a real defect
      of the input, a well-formed input never fails, and a successful run
      has made one plan view and written one trench line per trench and one
      passage line per passage seam; its text is the sorted lines merged
      with the session's manual lines. */
  method Generate(elems: seq<Element>, tools: Tools) returns (r: Result<Output, GenError>)
    ensures |Sorted(elems).trenches| == 0 <==> r.Failure? && r.error == NoTrench
    ensures |Sorted(elems).trenches| > 0 ==>
              var ctx := MakeCtx(elems, tools);
              (r.Failure? ==> ErrorWitness(ctx, r.error))
              && (WellFormed(ctx) ==> r.Success?)
              && (r.Success? ==> Complete(ctx, r.value.log, r.value.lines)
                                 && r.value.text == FinalAufmass(RenderAll(r.value.lines, tools.fmt), elems))
  {
    if |Sorted(elems).trenches| == 0 {
      return Failure(NoTrench);
    }
    var ctx := MakeCtx(elems, tools);
    var s := Start;
    StartInv(ctx);
    while s.i < N(ctx)
      invariant Inv(ctx, s)
      decreases N(ctx) - s.i
    {
      if !MergeNext(ctx, s.i) {
        if s.skip {
          SkipKeeps(ctx, s);
          s := s.(i := s.i + 1, skip := false);
        } else {
          var step := SoloStep(ctx, s);
          if step.Failure? {
            return Failure(step.error);
          }
          AdvanceTallied(ctx, s, step.value);
          SoloKeeps(ctx, s, step.value);
          s := step.value;
        }
      } else {
        var step := MergeStep(ctx, s);
        if step.Failure? {
          return Failure(step.error);
        }
        AdvanceTallied(ctx, s, step.value);
        MergeKeeps(ctx, s, step.value);
        s := step.value;
      }
    }
    Finished(ctx, s);
    r := Success(Output(s.log, s.lines, FinalAufmass(RenderAll(s.lines, tools.fmt), elems)));
  }

  /** Without manual lines the Aufmaß text of a complete run has exactly one
      "Baugraben m" line per trench and one "Durchstich m" line per passage
      seam. */
  lemma GeneratedText(ctx: Ctx, log: seq<Event>, lines: seq<AufLine>, elems: seq<Element>, m: nat)
    requires Complete(ctx, log, lines) && ManualLines(elems).None?
    ensures var text := FinalAufmass(RenderAll(lines, ctx.tools.fmt), elems);
            Count(text, ClassIs(TrenchLine(m))) == (if 1 <= m <= N(ctx) then 1 else 0)
            && Count(text, ClassIs(PassageLine(m))) == (if 1 <= m < N(ctx) && PassAt(ctx, m).Some? then 1 else 0)
  {
    SortedCount(lines, ctx.tools.fmt, TrenchLine(m));
    SortedCount(lines, ctx.tools.fmt, PassageLine(m));
  }
}
