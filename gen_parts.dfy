/** The blocks of one pass of the generator loop (main.py:1239-2007): each
    returns the drawing calls and the Aufmaß lines it adds and the updated
    set that keeps it from drawing or writing the same thing twice. */
module GenParts {
  import opened Wrappers
  import opened Numbers
  import opened Elements
  import opened Order
  import opened Lookups
  import opened Sink
  import opened TrenchGeom
  import opened SurfaceGeom
  import opened Aufmass
  import opened AufmassLines
  import opened GenBasics
  import opened GenCluster

  // ---------------------------------------------------------------------------
  // What every recorded call and every written line must satisfy

  predicate EventOK(ctx: Ctx, e: Event) {
    (e.TopView? ==> TopOK(ctx, e)) && CeilingOK(ctx, e)
  }

  predicate EventsOK(ctx: Ctx, es: seq<Event>) {
    forall j :: 0 <= j < |es| ==> EventOK(ctx, es[j])
  }

  /** Calls that are neither plan views nor elevations. */
  predicate Quiet(es: seq<Event>) {
    forall j :: 0 <= j < |es| ==> !es[j].TopView? && !es[j].FrontView? && !es[j].FrontLRView?
  }

  /** No plan view, and every elevation at its ceiling. */
  predicate Untopped(ctx: Ctx, es: seq<Event>) {
    NoTop(es) && EventsOK(ctx, es)
  }

  lemma QuietUntopped(ctx: Ctx, es: seq<Event>)
    requires Quiet(es)
    ensures Untopped(ctx, es)
  {
  }

  lemma EventsOKAppend(ctx: Ctx, a: seq<Event>, b: seq<Event>)
    requires EventsOK(ctx, a) && EventsOK(ctx, b)
    ensures EventsOK(ctx, a + b)
  {
    forall j | 0 <= j < |a + b| ensures EventOK(ctx, (a + b)[j]) {
      if j < |a| { assert (a + b)[j] == a[j]; } else { assert (a + b)[j] == b[j - |a|]; }
    }
  }

  lemma UntoppedAppend(ctx: Ctx, a: seq<Event>, b: seq<Event>)
    requires Untopped(ctx, a) && Untopped(ctx, b)
    ensures Untopped(ctx, a + b)
  {
    EventsOKAppend(ctx, a, b);
    forall j | 0 <= j < |a + b| ensures !(a + b)[j].TopView? {
      if j < |a| { assert (a + b)[j] == a[j]; } else { assert (a + b)[j] == b[j - |a|]; }
    }
  }

  lemma QuietAppend(a: seq<Event>, b: seq<Event>)
    requires Quiet(a) && Quiet(b)
    ensures Quiet(a + b)
  {
    forall j | 0 <= j < |a + b| ensures !(a + b)[j].TopView? && !(a + b)[j].FrontView? && !(a + b)[j].FrontLRView? {
      if j < |a| { assert (a + b)[j] == a[j]; } else { assert (a + b)[j] == b[j - |a|]; }
    }
  }

  /** Calls without a plan view added after others leave every plan-view
      count as it was. */
  lemma EventsShape(ctx: Ctx, tops: seq<Event>, rest: seq<Event>)
    requires EventsOK(ctx, tops) && Untopped(ctx, rest)
    ensures EventsOK(ctx, tops + rest)
    ensures forall m :: Count(tops + rest, IsTopOf(m)) == Count(tops, IsTopOf(m))
  {
    EventsOKAppend(ctx, tops, rest);
    forall m ensures Count(tops + rest, IsTopOf(m)) == Count(tops, IsTopOf(m)) {
      CountAppend(tops, rest, IsTopOf(m));
      NoTopCount(rest, m);
    }
  }

  /** A line as the generator must write it: a trench line with the
      trench's own measures and its readable ground level, a pipe line only
      for a drawn length of a pipe with a diameter, a passage line only for
      a passage with a length. */
  predicate LineOK(ctx: Ctx, l: AufLine) {
    match l
    case TrenchRow(k, len, wid, dref, dl, dr, gok) =>
      1 <= k <= N(ctx) && len == Len(ctx, k) && wid == Wid(ctx, k)
      && Dep(ctx, k) == Depth(dref, dl, dr)
      && GokValue(Trench(ctx, k), ctx.tools.parse) == Some(gok)
    case PipeRow(_, eff, d, _) => eff > 0.0 && d > 0.0
    case ClusterPipeRow(a, b, eff, d, _) => a < b && eff > 0.0 && d > 0.0
    case PassageRow(s, len) =>
      1 <= s < N(ctx) && PassAt(ctx, s).Some? && PassAt(ctx, s).value.length == Some(len)
    case _ => true
  }

  predicate LinesOK(ctx: Ctx, ls: seq<AufLine>) {
    forall j :: 0 <= j < |ls| ==> LineOK(ctx, ls[j])
  }

  /** Well-formed lines that are neither trench nor passage lines. */
  predicate Plain(ctx: Ctx, ls: seq<AufLine>) {
    NoTally(ls) && LinesOK(ctx, ls)
  }

  lemma LinesOKAppend(ctx: Ctx, a: seq<AufLine>, b: seq<AufLine>)
    requires LinesOK(ctx, a) && LinesOK(ctx, b)
    ensures LinesOK(ctx, a + b)
  {
    forall j | 0 <= j < |a + b| ensures LineOK(ctx, (a + b)[j]) {
      if j < |a| { assert (a + b)[j] == a[j]; } else { assert (a + b)[j] == b[j - |a|]; }
    }
  }

  lemma PlainAppend(ctx: Ctx, a: seq<AufLine>, b: seq<AufLine>)
    requires Plain(ctx, a) && Plain(ctx, b)
    ensures Plain(ctx, a + b)
  {
    LinesOKAppend(ctx, a, b);
    forall j | 0 <= j < |a + b| ensures !(a + b)[j].TrenchRow? && !(a + b)[j].PassageRow? {
      if j < |a| { assert (a + b)[j] == a[j]; } else { assert (a + b)[j] == b[j - |a|]; }
    }
  }

  /** Lines without trench or passage lines put before others leave every
      trench-line and passage-line count as it was. */
  lemma LinesShape(ctx: Ctx, plain: seq<AufLine>, tally: seq<AufLine>)
    requires Plain(ctx, plain) && LinesOK(ctx, tally)
    ensures LinesOK(ctx, plain + tally)
    ensures forall m :: Count(plain + tally, WrittenFor(TrenchLine(m))) == Count(tally, WrittenFor(TrenchLine(m)))
    ensures forall m :: Count(plain + tally, WrittenFor(PassageLine(m))) == Count(tally, WrittenFor(PassageLine(m)))
  {
    LinesOKAppend(ctx, plain, tally);
    forall m ensures Count(plain + tally, WrittenFor(TrenchLine(m))) == Count(tally, WrittenFor(TrenchLine(m)))
                 && Count(plain + tally, WrittenFor(PassageLine(m))) == Count(tally, WrittenFor(PassageLine(m)))
    {
      CountAppend(plain, tally, WrittenFor(TrenchLine(m)));
      CountAppend(plain, tally, WrittenFor(PassageLine(m)));
      NoTallyCount(plain, m);
    }
  }

  /** 1 for a number that `after` has and `before` has not. */
  function NewIn(m: nat, before: set<nat>, after: set<nat>): nat {
    if m in after && m !in before then 1 else 0
  }

  // ---------------------------------------------------------------------------
  // Plan views and Aufmaß tallies

  /** The plan view of trench k, drawn only when it is not drawn yet
      (main.py:1263-1270, 1403-1420). */
  method PlanView(ctx: Ctx, k: nat, topLeft: Point, clipLeft: bool, clipRight: bool, dimRight: bool,
                  drawnTop: set<nat>) returns (tops: seq<Event>, drawn: set<nat>)
    requires 1 <= k <= N(ctx)
    ensures drawn == drawnTop + {k}
    ensures forall m :: Count(tops, IsTopOf(m)) == NewIn(m, drawnTop, drawn)
    ensures forall j :: 0 <= j < |tops| ==>
              tops[j] == TopView(k, TopCall(topLeft, Len(ctx, k), Wid(ctx, k), clipLeft, clipRight, dimRight))
  {
    tops := [];
    if k !in drawnTop {
      tops := [TopView(k, TopCall(topLeft, Len(ctx, k), Wid(ctx, k), clipLeft, clipRight, dimRight))];
    }
    drawn := drawnTop + {k};
    forall m ensures Count(tops, IsTopOf(m)) == NewIn(m, drawnTop, drawn) {
      if tops != [] { CountOne(tops[0], IsTopOf(m)); }
    }
  }

  /** `_append_trench_line` for trench k unless its line is written
      (main.py:1347-1350, 1990-1993); a ground level `float` cannot read
      raises. */
  method TrenchTally(ctx: Ctx, k: nat, printed: set<nat>) returns (r: Result<(seq<AufLine>, set<nat>), GenError>)
    requires 1 <= k <= N(ctx)
    ensures r.Failure? <==> k !in printed && GokValue(Trench(ctx, k), ctx.tools.parse).None?
    ensures r.Failure? ==> r.error == BadGok(k) && ErrorWitness(ctx, r.error)
    ensures r.Success? ==> r.value.1 == printed + {k} && LinesOK(ctx, r.value.0)
    ensures r.Success? ==> forall m :: Count(r.value.0, WrittenFor(TrenchLine(m))) == NewIn(m, printed, r.value.1)
    ensures r.Success? ==> forall m :: Count(r.value.0, WrittenFor(PassageLine(m))) == 0
  {
    if k in printed {
      return Success(([], printed));
    }
    var gok := GokValue(Trench(ctx, k), ctx.tools.parse);
    if gok.None? {
      return Failure(BadGok(k));
    }
    var d := Dep(ctx, k);
    var line := TrenchRow(k, Len(ctx, k), Wid(ctx, k), d.ref, d.left, d.right, gok.value);
    forall m ensures Count([line], WrittenFor(TrenchLine(m))) == NewIn(m, printed, printed + {k})
                 && Count([line], WrittenFor(PassageLine(m))) == 0
    {
      CountOne(line, WrittenFor(TrenchLine(m)));
      CountOne(line, WrittenFor(PassageLine(m)));
    }
    r := Success(([line], printed + {k}));
  }

  /** The "Durchstich s" line of a merged seam that carries a passage, once
      (main.py:1994-1997); a connection-only seam gets none. */
  method PassTally(ctx: Ctx, s: nat, pw: real, printed: set<nat>) returns (ls: seq<AufLine>, now: set<nat>)
    requires 1 <= s < N(ctx) && HasLink(ctx, s)
    requires !JoinOnly(ctx, s) ==> PassAt(ctx, s).Some? && PassAt(ctx, s).value.length == Some(pw)
    ensures now == printed + (if JoinOnly(ctx, s) then {} else {s})
    ensures LinesOK(ctx, ls)
    ensures forall m :: Count(ls, WrittenFor(PassageLine(m))) == NewIn(m, printed, now)
    ensures forall m :: Count(ls, WrittenFor(TrenchLine(m))) == 0
  {
    ls, now := [], printed;
    if !JoinOnly(ctx, s) && s !in printed {
      ls := [PassageRow(s, pw)];
    }
    if !JoinOnly(ctx, s) {
      now := printed + {s};
    }
    forall m ensures Count(ls, WrittenFor(PassageLine(m))) == NewIn(m, printed, now)
                 && Count(ls, WrittenFor(TrenchLine(m))) == 0
    {
      if ls != [] {
        CountOne(ls[0], WrittenFor(PassageLine(m)));
        CountOne(ls[0], WrittenFor(TrenchLine(m)));
      }
    }
  }

  // ---------------------------------------------------------------------------
  // Single pipes and surfaces

  /** A single pipe on trench k (main.py:1272-1296, 1928-1966): drawn when
      the trench's first pipe has a positive diameter and the trench has no
      pipe yet, with the wanted span only for a pipe not running the full
      span; its line is written, and the trench marked, only when the
      routine reports a positive length. */
  method PipePart(ctx: Ctx, k: nat, origin: Point, yLeft: real, yRight: real, drawnPipe: set<nat>)
    returns (events: seq<Event>, lines: seq<AufLine>, drawn: set<nat>)
    requires 1 <= k <= N(ctx)
    ensures Quiet(events) && Plain(ctx, lines)
    ensures var p := FirstPipeForTrench(ctx.pipes, k);
            (events != [] <==> p.Some? && RealOr0(p.value.diameter) > 0.0 && k !in drawnPipe)
            && (events != [] ==>
                  events == [PipeView(k, PipeCall(origin, Len(ctx, k), RealOr0(p.value.diameter),
                                                  PipeFullAndWant(p.value, ctx.tools.fmt).1,
                                                  RealOr0(p.value.offset), yLeft, yRight))])
    ensures lines != [] <==> events != [] && ctx.tools.drawPipe(events[0].pipe) > 0.0
    ensures lines != [] ==>
              lines == [PipeRow(k, ctx.tools.drawPipe(events[0].pipe), events[0].pipe.diameter, events[0].pipe.offset)]
    ensures drawn == drawnPipe + (if lines != [] then {k} else {})
  {
    events, lines, drawn := [], [], drawnPipe;
    var pipe := FirstPipeForTrench(ctx.pipes, k);
    if pipe.Some? {
      var d := RealOr0(pipe.value.diameter);
      if d > 0.0 && k !in drawnPipe {
        var off := RealOr0(pipe.value.offset);
        var fw := PipeFullAndWant(pipe.value, ctx.tools.fmt);
        var call := PipeCall(origin, Len(ctx, k), d, fw.1, off, yLeft, yRight);
        var eff := ctx.tools.drawPipe(call);
        events := [PipeView(k, call)];
        if eff > 0.0 {
          lines := [PipeRow(k, eff, d, off)];
          drawn := drawnPipe + {k};
        }
      }
    }
  }

  /** `any(float(s.get("length", 0) or 0) > 0 for s in seg_list)`. */
  predicate AnyLength(segs: seq<Element>) {
    exists j :: 0 <= j < |segs| && RealOr0(segs[j].length) > 0.0
  }

  /** The segment dictionaries handed to `draw_surface_top_segments`. */
  function SegInputs(segs: seq<Element>): (r: seq<SegmentIn>)
    ensures |r| == |segs|
    ensures forall j :: 0 <= j < |segs| ==>
              r[j] == SegmentIn(Some(RealOr0(segs[j].length)), RealOr0(segs[j].offset), MaterialOf(segs[j]))
  {
    seq(|segs|, j requires 0 <= j < |segs| => SegmentIn(Some(RealOr0(segs[j].length)), RealOr0(segs[j].offset), MaterialOf(segs[j])))
  }

  /** The segment rows of trench k as generated lines. */
  function SegmentLines(k: nat, rows: seq<SegmentRow>): (r: seq<AufLine>)
    ensures |r| == |rows| && forall j :: 0 <= j < |rows| ==> r[j] == SegmentLine(k, rows[j])
  {
    seq(|rows|, j requires 0 <= j < |rows| => SegmentLine(k, rows[j]))
  }

  /** Written out, the segment lines are the lines
      `_append_surface_segments_aufmass` appends. */
  lemma SegmentLinesText(k: nat, rows: seq<SegmentRow>, fmt: real -> string)
    ensures RenderAll(SegmentLines(k, rows), fmt) == RowTexts(k, rows, fmt)
  {
  }

  lemma SegmentLinesPlain(ctx: Ctx, k: nat, rows: seq<SegmentRow>)
    ensures Plain(ctx, SegmentLines(k, rows))
  {
  }

  /** The surfaces of trench k, drawn once (main.py:1305-1345, 1439-1511):
      the stepped segments with one line per segment when some segment has
      a length, otherwise the border-zone rectangle of the first surface
      and its line when that surface has a border zone. */
  method SurfacePart(ctx: Ctx, k: nat, topLeft: Point, segClipLeft: bool, segClipRight: bool,
                     leftFree: bool, rightFree: bool, rectClipLeft: bool, rectClipRight: bool,
                     drawnSurface: set<nat>)
    returns (events: seq<Event>, lines: seq<AufLine>, drawn: set<nat>)
    requires 1 <= k <= N(ctx)
    ensures Quiet(events) && Plain(ctx, lines)
    ensures var segs := SurfacesForTrench(ctx.surfaces, k);
            drawn == drawnSurface + (if segs != [] then {k} else {})
            && (segs == [] || k in drawnSurface ==> events == [] && lines == [])
            && (segs != [] && k !in drawnSurface && AnyLength(segs) ==>
                  events == [SurfaceSegmentsView(k, SegmentsCall(topLeft, Len(ctx, k), Wid(ctx, k), SegInputs(segs),
                                                                 true, segClipLeft, segClipRight))]
                  && lines == SegmentLines(k, Rows(segs, Len(ctx, k), Wid(ctx, k), leftFree, rightFree)))
            && (segs != [] && k !in drawnSurface && !AnyLength(segs) ==>
                  var off := RealOr0(segs[0].offset);
                  (off == 0.0 ==> events == [] && lines == [])
                  && (off != 0.0 ==>
                        events == [SurfaceRectView(k, SurfaceTopCall(topLeft, Len(ctx, k), Wid(ctx, k), off,
                                                                     rectClipLeft, rectClipRight))]
                        && lines == [SurfaceRectRow(k, off, Len(ctx, k) + 2.0 * off, Wid(ctx, k) + 2.0 * off,
                                                    MaterialOf(segs[0]))]))
  {
    events, lines, drawn := [], [], drawnSurface;
    var segs := SurfacesForTrench(ctx.surfaces, k);
    if segs != [] && k !in drawnSurface {
      var lk, bk := Len(ctx, k), Wid(ctx, k);
      if AnyLength(segs) {
        events := [SurfaceSegmentsView(k, SegmentsCall(topLeft, lk, bk, SegInputs(segs), true, segClipLeft, segClipRight))];
        lines := SegmentLines(k, Rows(segs, lk, bk, leftFree, rightFree));
        SegmentLinesPlain(ctx, k, Rows(segs, lk, bk, leftFree, rightFree));
      } else {
        var off := RealOr0(segs[0].offset);
        if off != 0.0 {
          events := [SurfaceRectView(k, SurfaceTopCall(topLeft, lk, bk, off, rectClipLeft, rectClipRight))];
          lines := [SurfaceRectRow(k, off, lk + 2.0 * off, bk + 2.0 * off, MaterialOf(segs[0]))];
        }
      }
    }
    if segs != [] {
      drawn := drawnSurface + {k};
    }
  }
}
