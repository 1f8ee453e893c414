/** The vocabulary of the drawing generator `_generate_dxf_intern`
    (main.py:973-2038): how it sorts the elements, the layout constants, the
    drawing calls it makes (recorded as events), the depth and ground-level
    helpers, the pipe classification and the errors it raises. */
module GenBasics {
  import opened Wrappers
  import opened Numbers
  import opened Text
  import opened Elements
  import opened Order
  import opened Lookups
  import opened Sink
  import opened TrenchGeom
  import opened SurfaceGeom
  import opened Aufmass
  import opened AufmassLines

  // ---------------------------------------------------------------------------
  // Layout constants (main.py:1007-1014)

  /** Free margin left and right of a trench in the elevation. */
  const ClrLR: real := 0.2
  /** Free margin below a trench. */
  const ClrBot: real := 0.2
  /** Gap between two drawn trench groups. */
  const GapBG: real := 1.5
  /** Distance of the plan views above the elevations. */
  const TopShift: real := 1.5
  /** Tolerance of the seam and ground-level comparisons. */
  const LinkEps: real := 0.000000001
  /** `_same`: depths closer than this count as equal. */
  const SameEps: real := 0.000001

  // ---------------------------------------------------------------------------
  // Sorting the elements (main.py:990-996): the first type word that matches wins

  predicate PipeBucket(e: Element) { !IsTrench(e) && IsPipe(e) }
  predicate SurfaceBucket(e: Element) { !IsTrench(e) && !IsPipe(e) && IsDrawnSurface(e) }
  predicate PassageBucket(e: Element) {
    !IsTrench(e) && !IsPipe(e) && !IsDrawnSurface(e) && IsPassage(e)
  }
  predicate ConnectionBucket(e: Element) {
    !IsTrench(e) && !IsPipe(e) && !IsDrawnSurface(e) && !IsPassage(e) && IsConnection(e)
  }

  datatype Buckets = Buckets(trenches: seq<Element>, pipes: seq<Element>, surfaces: seq<Element>,
                             passes: seq<Element>, joins: seq<Element>)

  /** The five lists in element order; every element lands in the list of
      the first of the words baugraben, rohr, oberflächenbefest, durchstich,
      verbindung its type contains, and in no list when it contains none. */
  function Sorted(elems: seq<Element>): (b: Buckets)
    ensures forall e :: e in b.trenches <==> e in elems && IsTrench(e)
    ensures forall e :: e in b.pipes <==> e in elems && PipeBucket(e)
    ensures forall e :: e in b.surfaces <==> e in elems && SurfaceBucket(e)
    ensures forall e :: e in b.passes <==> e in elems && PassageBucket(e)
    ensures forall e :: e in b.joins <==> e in elems && ConnectionBucket(e)
  {
    Buckets(Filter(elems, IsTrench), Filter(elems, PipeBucket), Filter(elems, SurfaceBucket),
            Filter(elems, PassageBucket), Filter(elems, ConnectionBucket))
  }

  /** `join_set`: the seams named by connections that have a `between`. */
  function JoinSet(joins: seq<Element>): (r: set<int>)
    ensures forall s :: s in r <==> exists j :: j in joins && j.between == Some(s)
  {
    set j | j in joins && j.between.Some? :: j.between.value
  }

  // ---------------------------------------------------------------------------
  // The routines the generator calls but whose code is not part of this model

  /** The arguments of a `draw_pipe_front` call. */
  datatype PipeCall = PipeCall(origin: Point, innerLength: real, diameter: real,
                               span: Option<real>, offset: real,
                               bottomLeft: real, bottomRight: real)

  /** One piece of the floor profile under a cluster pipe: its length and the
      floor level at its two ends. */
  datatype ProfileSeg = ProfileSeg(length: real, y0: real, y1: real)

  /** The arguments of a `draw_pipe_front_piecewise` call. */
  datatype ClusterCall = ClusterCall(origin: Point, innerLength: real, diameter: real,
                                     profile: seq<ProfileSeg>, offset: real)

  /** Python's text form of a float, `float()` applied to a text, and the
      two pipe routines, each returning the effective pipe length drawn. */
  datatype Tools = Tools(fmt: real -> string, parse: string -> Option<real>,
                         drawPipe: PipeCall -> real, drawCluster: ClusterCall -> real)

  // ---------------------------------------------------------------------------
  // Depths and ground levels

  /** The reference depth and the depths at the left and right end. */
  datatype Depth = Depth(ref: real, left: real, right: real)

  /** `_depths`: the end depths default to `depth` (0 when missing); the
      reference depth is the greatest of the three. */
  function DepthsOf(bg: Element): (d: Depth)
    ensures d.left == bg.depthLeft.GetOr(RealOr0(bg.depth))
    ensures d.right == bg.depthRight.GetOr(RealOr0(bg.depth))
    ensures d.ref >= RealOr0(bg.depth) && d.ref >= d.left && d.ref >= d.right
    ensures d.ref == RealOr0(bg.depth) || d.ref == d.left || d.ref == d.right
  {
    var d := RealOr0(bg.depth);
    var dL := bg.depthLeft.GetOr(d);
    var dR := bg.depthRight.GetOr(d);
    Depth(Max(Max(d, dL), dR), dL, dR)
  }

  /** `float(v)`; None where Python raises. */
  function ScalarValue(v: Scalar, parse: string -> Option<real>): (r: Option<real>)
    ensures v.Float? ==> r == Some(v.f)
    ensures v.Int? ==> r == Some(v.i as real)
  {
    match v
    case Int(i) => Some(i as real)
    case Float(f) => Some(f)
    case Str(s) => parse(s)
    case Bool(b) => Some(if b then 1.0 else 0.0)
  }

  /** `float(bg.get("gok") or 0.0)`: a missing or falsy ground level is 0;
      None where `float` raises. */
  function GokValue(bg: Element, parse: string -> Option<real>): (r: Option<real>)
    ensures bg.gok.None? || !Truthy(bg.gok.value) ==> r == Some(0.0)
    ensures bg.gok.Some? && Truthy(bg.gok.value) ==> r == ScalarValue(bg.gok.value, parse)
  {
    if bg.gok.None? || !Truthy(bg.gok.value) then Some(0.0) else ScalarValue(bg.gok.value, parse)
  }

  /** `_gok`: like GokValue, but a value `float` cannot read counts as 0. */
  function Gok(bg: Element, parse: string -> Option<real>): (g: real)
    ensures GokValue(bg, parse).Some? ==> g == GokValue(bg, parse).value
    ensures GokValue(bg, parse).None? ==> g == 0.0
  {
    GokValue(bg, parse).GetOr(0.0)
  }

  /** The greatest value of f over a non-empty list (Python's `max`). */
  function MaxOver(ts: seq<Element>, f: Element -> real): (m: real)
    requires |ts| > 0
    ensures forall k :: 0 <= k < |ts| ==> f(ts[k]) <= m
    ensures exists k :: 0 <= k < |ts| && f(ts[k]) == m
  {
    if |ts| == 1 then f(ts[0])
    else
      var m0 := MaxOver(ts[..|ts| - 1], f);
      assert forall k :: 0 <= k < |ts| - 1 ==> ts[..|ts| - 1][k] == ts[k];
      Max(m0, f(ts[|ts| - 1]))
  }

  function RefDepth(bg: Element): real { DepthsOf(bg).ref }

  function GokOf(parse: string -> Option<real>): Element -> real {
    (bg: Element) => Gok(bg, parse)
  }

  // ---------------------------------------------------------------------------
  // Pipes

  /** `str(pipe.get("full_span", "")).lower()` is one of true, 1, yes. */
  predicate FullSpanFlag(p: Element, fmt: real -> string) {
    var t := LowerStr(if p.fullSpan.None? then "" else ScalarText(p.fullSpan.value, fmt));
    t == "true" || t == "1" || t == "yes"
  }

  /** `_pipe_full_and_want`: a pipe runs the full span when it says so or has
      no positive length; otherwise its wanted length is its length. */
  function PipeFullAndWant(p: Element, fmt: real -> string): (r: (bool, Option<real>))
    ensures r.0 <==> FullSpanFlag(p, fmt) || RealOr0(p.length) <= 0.0
    ensures r.1.Some? <==> !r.0
    ensures r.1.Some? ==> r.1.value == RealOr0(p.length) && r.1.value > 0.0 && p.length.Some?
  {
    var full := FullSpanFlag(p, fmt) || RealOr0(p.length) <= 0.0;
    (full, if full then None else Some(RealOr0(p.length)))
  }

  // ---------------------------------------------------------------------------
  // The context of one generator run

  /** The sorted element lists, the connection seams, the deepest reference
      depth `MAX_DEPTH`, the plan-view level `Y_TOP` and the routines. */
  datatype Ctx = Ctx(trenches: seq<Element>, pipes: seq<Element>, surfaces: seq<Element>,
                     passes: seq<Element>, joinSet: set<int>,
                     maxDepth: real, yTop: real, tools: Tools)

  /** The context built from a non-empty trench list (main.py:990-1002, 1225-1229). */
  function MakeCtx(elems: seq<Element>, tools: Tools): (ctx: Ctx)
    requires |Sorted(elems).trenches| > 0
    ensures ctx.trenches == Sorted(elems).trenches
    ensures forall k :: 0 <= k < |ctx.trenches| ==> DepthsOf(ctx.trenches[k]).ref <= ctx.maxDepth
    ensures exists k :: 0 <= k < |ctx.trenches| && DepthsOf(ctx.trenches[k]).ref == ctx.maxDepth
    ensures forall k :: 0 <= k < |ctx.trenches| ==>
              ctx.yTop >= ClrBot + TopShift + ctx.maxDepth + Gok(ctx.trenches[k], tools.parse)
    ensures ctx.yTop >= ClrBot + TopShift + ctx.maxDepth
  {
    var b := Sorted(elems);
    var maxDepth := MaxOver(b.trenches, RefDepth);
    var maxGok := MaxOver(b.trenches, GokOf(tools.parse));
    Ctx(b.trenches, b.pipes, b.surfaces, b.passes, JoinSet(b.joins),
        maxDepth, ClrBot + TopShift + maxDepth + Max(0.0, maxGok), tools)
  }

  function N(ctx: Ctx): nat { |ctx.trenches| }

  /** Trench k, counted from 1. */
  function Trench(ctx: Ctx, k: nat): Element
    requires 1 <= k <= N(ctx)
  {
    ctx.trenches[k - 1]
  }

  function Len(ctx: Ctx, k: nat): real requires 1 <= k <= N(ctx) { RealOr0(Trench(ctx, k).length) }
  function Wid(ctx: Ctx, k: nat): real requires 1 <= k <= N(ctx) { RealOr0(Trench(ctx, k).width) }
  function Dep(ctx: Ctx, k: nat): Depth requires 1 <= k <= N(ctx) { DepthsOf(Trench(ctx, k)) }
  function GokAt(ctx: Ctx, k: nat): real requires 1 <= k <= N(ctx) { Gok(Trench(ctx, k), ctx.tools.parse) }

  /** `_base_y_with_gok`: the inner bottom of trench k lies as far above the
      common bottom as it is shallower than the deepest trench, raised by its
      ground level, so that its ceiling comes out at the common level plus
      its ground level. */
  function Base(ctx: Ctx, k: nat): (y: real)
    requires 1 <= k <= N(ctx)
    ensures y + Dep(ctx, k).ref == ClrBot + ctx.maxDepth + GokAt(ctx, k)
  {
    ClrBot + (ctx.maxDepth - Dep(ctx, k).ref) + GokAt(ctx, k)
  }

  /** The passage on seam s (between trench s and s + 1). */
  function PassAt(ctx: Ctx, s: int): Option<Element> { PassForBetween(ctx.passes, s) }

  /** `_has_link_between`: a passage or a connection on seam s. */
  predicate HasLink(ctx: Ctx, s: int) { PassAt(ctx, s).Some? || s in ctx.joinSet }

  /** `_is_join_only`: a connection and no passage on seam s. */
  predicate JoinOnly(ctx: Ctx, s: int) { s in ctx.joinSet && PassAt(ctx, s).None? }

  /** `merge_next`: the trench at 0-based position i is drawn together with
      the next one. */
  predicate MergeNext(ctx: Ctx, i: nat) { i + 1 < N(ctx) && HasLink(ctx, i + 1) }

  /** On a linked seam, it is connection-only exactly when no passage is found. */
  lemma LinkKinds(ctx: Ctx, s: int)
    requires HasLink(ctx, s)
    ensures JoinOnly(ctx, s) <==> PassAt(ctx, s).None?
    ensures !JoinOnly(ctx, s) <==> PassAt(ctx, s).Some?
  {
  }

  // ---------------------------------------------------------------------------
  // Errors

  datatype GenError =
    /** "Kein Baugraben vorhanden" (400). */
    | NoTrench
    /** "Durchstich ohne Länge" (400), or the KeyError of the cluster chase. */
    | PassWithoutLength(seam: nat)
    /** The KeyError of the cluster chase on a trench without `length`. */
    | TrenchWithoutLength(trench: nat)
    /** The ValueError of `_append_trench_line` on a ground level `float` cannot read. */
    | BadGok(trench: nat)

  /** The input really has the defect an error names. */
  predicate ErrorWitness(ctx: Ctx, err: GenError) {
    match err
    case NoTrench => N(ctx) == 0
    case PassWithoutLength(s) => 1 <= s < N(ctx) && PassAt(ctx, s).Some? && PassAt(ctx, s).value.length.None?
    case TrenchWithoutLength(k) => 1 <= k <= N(ctx) && Trench(ctx, k).length.None?
    case BadGok(k) => 1 <= k <= N(ctx) && GokValue(Trench(ctx, k), ctx.tools.parse).None?
  }

  /** Every trench has a length and a readable ground level, and every
      passage on an inner seam has a length. */
  predicate WellFormed(ctx: Ctx) {
    N(ctx) > 0
    && (forall k :: 1 <= k <= N(ctx) ==>
          Trench(ctx, k).length.Some? && GokValue(Trench(ctx, k), ctx.tools.parse).Some?)
    && (forall s :: 1 <= s < N(ctx) && PassAt(ctx, s).Some? ==> PassAt(ctx, s).value.length.Some?)
  }

  /** A well-formed input has none of the defects an error reports. */
  lemma WellFormedNoError(ctx: Ctx, err: GenError)
    requires WellFormed(ctx)
    ensures !ErrorWitness(ctx, err)
  {
  }

  // ---------------------------------------------------------------------------
  // The drawing calls, recorded in order

  datatype Event =
    | FrontView(trench: nat, front: FrontCall)
    | TopView(trench: nat, top: TopCall)
    | FrontLRView(trench: nat, frontLR: FrontLRCall)
    | SurfaceSegmentsView(trench: nat, segs: SegmentsCall)
    | SurfaceRectView(trench: nat, rect: SurfaceTopCall)
    | PipeView(trench: nat, pipe: PipeCall)
    | ClusterPipeView(first: nat, last: nat, cluster: ClusterCall)
    /** `_add_gok_dim`: measured from the common level up to the ceiling. */
    | GokDim(trench: nat, x: real, yTop: real, gok: real, left: bool)
    /** The seam line closing a step between two plan views of different width. */
    | SeamLine(seam: nat, x: real, yLo: real, yHi: real)
    /** The outer contour of a merged pair (main.py:1540-1834): outer
        verticals, ceiling, floors, slope trimming and hatches. */
    | MergeContour(seam: nat, xL: real, xSeam: real, xRightStart: real, xR: real, yTopL: real, yTopR: real)
    /** `_draw_pass_symbol_rect`: the passage block under the ceiling. */
    | PassSymbol(seam: nat, x0: real, x1: real, yTop: real)
    /** `_add_pass_len_dim`. */
    | PassLengthDim(seam: nat, x0: real, x1: real, yRef: real)
    /** `_add_depth_dim`. */
    | DepthDim(trench: nat, x: real, yTop: real, depth: real, baseX: real)

  function IsTopOf(k: nat): Event -> bool {
    (e: Event) => e.TopView? && e.trench == k
  }

  predicate NoTop(es: seq<Event>) {
    forall j :: 0 <= j < |es| ==> !es[j].TopView?
  }

  lemma NoTopCount(es: seq<Event>, k: nat)
    requires NoTop(es)
    ensures Count(es, IsTopOf(k)) == 0
  {
    CountNone(es, IsTopOf(k));
  }

  /** No trench line and no passage line among these lines. */
  predicate NoTally(ls: seq<AufLine>) {
    forall j :: 0 <= j < |ls| ==> !ls[j].TrenchRow? && !ls[j].PassageRow?
  }

  lemma NoTallyCount(ls: seq<AufLine>, k: nat)
    requires NoTally(ls)
    ensures Count(ls, WrittenFor(TrenchLine(k))) == 0
    ensures Count(ls, WrittenFor(PassageLine(k))) == 0
  {
    CountNone(ls, WrittenFor(TrenchLine(k)));
    CountNone(ls, WrittenFor(PassageLine(k)));
  }

  /** A plan view of trench k as the generator must draw it: on the common
      plan level, with the trench's length and width, an edge clipped
      exactly where the seam on that side is connection-only, and the width
      dimension on the right only for the last trench. */
  predicate TopOK(ctx: Ctx, e: Event)
    requires e.TopView?
  {
    var k := e.trench;
    1 <= k <= N(ctx)
    && e.top.topLeft.y == ctx.yTop && e.top.length == Len(ctx, k) && e.top.width == Wid(ctx, k)
    && e.top.clipLeft == (k > 1 && JoinOnly(ctx, k - 1))
    && e.top.clipRight == (k < N(ctx) && JoinOnly(ctx, k))
    && e.top.dimRight == (k == N(ctx))
  }

  /** Every elevation of trench k has its ceiling at the common level raised
      by the trench's ground level. */
  predicate CeilingOK(ctx: Ctx, e: Event) {
    match e
    case FrontView(k, c) =>
      1 <= k <= N(ctx) &&
      LevelsOf(c.origin.y, c.depth, c.clearanceBottom, c.depthLeft, c.depthRight).yTop
        == ClrBot + ctx.maxDepth + GokAt(ctx, k)
    case FrontLRView(k, c) =>
      1 <= k <= N(ctx) && LRLevels(c).yTop == ClrBot + ctx.maxDepth + GokAt(ctx, k)
    case _ => true
  }

  /** The elevation call of trench k at x, with both end depths given. */
  function FrontOrigin(ctx: Ctx, k: nat, x: real): (p: Point)
    requires 1 <= k <= N(ctx)
    ensures p.y + ClrBot + Dep(ctx, k).ref == ClrBot + ctx.maxDepth + GokAt(ctx, k)
  {
    Point(x, Base(ctx, k) - ClrBot)
  }

  /** The ceiling of an elevation placed by FrontOrigin is at the common
      level raised by the trench's ground level. */
  lemma FrontCeiling(ctx: Ctx, k: nat, x: real, clearBottom: real)
    requires 1 <= k <= N(ctx) && clearBottom == ClrBot
    ensures LevelsOf(FrontOrigin(ctx, k, x).y, Dep(ctx, k).ref, clearBottom,
                     Some(Dep(ctx, k).left), Some(Dep(ctx, k).right)).yTop
            == ClrBot + ctx.maxDepth + GokAt(ctx, k)
  {
    var d := Dep(ctx, k);
    assert Max(Max(d.left, d.right), d.ref) == d.ref;
  }
}
