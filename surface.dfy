/** The surface (Oberflächenbefestigung) plan drawing of app/cad/surface.py:
    the border-zone rectangle around a trench (`draw_surface_top`) and the
    stepped outline of a surface made of segments with their own border
    zones (`draw_surface_top_segments`). */
module SurfaceGeom {
  import opened Wrappers
  import opened Numbers
  import opened Sink

  const LayerSurf := "Oberflaeche"
  const LayerDim := "Bemassung_Oberfl"
  const DimOffset: real := 0.75
  /** The extra lift of the overall length dimension of a rectangle. */
  const Stack: real := 0.35
  /** The extra lift of the segment length dimensions. */
  const SegmentLift: real := 0.45
  /** Border zones not wider than this get no width dimension. */
  const OffEps: real := 0.000001

  // ---------------------------------------------------------------------------
  // draw_surface_top

  /** The arguments of a `draw_surface_top` call (its material text is not drawn). */
  datatype SurfaceTopCall = SurfaceTopCall(topLeft: Point, length: real, width: real, offset: real,
                                           clipLeft: bool, clipRight: bool)

  /** The x extent of the border zone: widened by the offset on each side that
      is not clipped. */
  function ZoneLeft(c: SurfaceTopCall): real {
    if c.clipLeft then c.topLeft.x else c.topLeft.x - c.offset
  }
  function ZoneRight(c: SurfaceTopCall): real {
    if c.clipRight then c.topLeft.x + c.length else c.topLeft.x + c.length + c.offset
  }

  function ZoneOutline(c: SurfaceTopCall): Entity {
    var l, r := ZoneLeft(c), ZoneRight(c);
    var top, bot := c.topLeft.y + c.width + c.offset, c.topLeft.y - c.offset;
    Polyline(LayerSurf, [Point(l, bot), Point(r, bot), Point(r, top), Point(l, top)], true)
  }

  function ZoneDim(c: SurfaceTopCall): Entity {
    var l := ZoneLeft(c);
    var top, bot := c.topLeft.y + c.width + c.offset, c.topLeft.y - c.offset;
    Dimension(LayerDim, Point(l - DimOffset, top), Point(l, top), Point(l, bot), 90.0)
  }

  function ZoneLengthDim(c: SurfaceTopCall): Entity {
    var l, r := ZoneLeft(c), ZoneRight(c);
    var top := c.topLeft.y + c.width + c.offset;
    Dimension(LayerDim, Point((l + r) / 2.0, top + DimOffset + Stack), Point(l, top), Point(r, top), 0.0)
  }

  function SurfaceTopEntities(c: SurfaceTopCall): seq<Entity> {
    [ZoneOutline(c)]
    + (if c.offset > OffEps && !c.clipLeft then [ZoneDim(c)] else [])
    + [ZoneLengthDim(c)]
  }

  method DrawSurfaceTop(msp: Drawing, c: SurfaceTopCall)
    modifies msp
    ensures msp.entities == old(msp.entities) + SurfaceTopEntities(c)
  {
    msp.Add(ZoneOutline(c));
    if c.offset > OffEps && !c.clipLeft {
      msp.Add(ZoneDim(c));
    }
    msp.Add(ZoneLengthDim(c));
  }

  /** The outline spans x from `tlx − offset` (or `tlx` when clipped on the
      left) to `tlx + length + offset` (or `tlx + length` when clipped on the
      right), and y from `tly − offset` to `tly + width + offset`. */
  lemma ZoneExtent(c: SurfaceTopCall)
    ensures var o := ZoneOutline(c);
            var xs := set k | 0 <= k < |o.points| :: o.points[k].x;
            var ys := set k | 0 <= k < |o.points| :: o.points[k].y;
            xs == {if c.clipLeft then c.topLeft.x else c.topLeft.x - c.offset,
                   if c.clipRight then c.topLeft.x + c.length else c.topLeft.x + c.length + c.offset}
            && ys == {c.topLeft.y - c.offset, c.topLeft.y + c.width + c.offset}
  {
    var o := ZoneOutline(c);
    var xs := set k | 0 <= k < |o.points| :: o.points[k].x;
    var ys := set k | 0 <= k < |o.points| :: o.points[k].y;
    assert o.points[0].x in xs && o.points[1].x in xs;
    assert o.points[0].y in ys && o.points[2].y in ys;
  }

  /** The vertical border-zone dimension is drawn only for a border zone wider
      than 1e-6 on a free left end, and measures the zone's full height; the
      length dimension always spans the clipped outline. */
  lemma ZoneDimensions(c: SurfaceTopCall)
    ensures var es := SurfaceTopEntities(c);
            var free := c.offset > OffEps && !c.clipLeft;
            |es| == (if free then 3 else 2)
            && (free ==> es[1].Dimension? && es[1].p1.x == ZoneLeft(c)
                         && es[1].p1.y - es[1].p2.y == c.width + 2.0 * c.offset)
            && es[|es| - 1].Dimension?
            && es[|es| - 1].p1.x == ZoneLeft(c) && es[|es| - 1].p2.x == ZoneRight(c)
  {
  }

  // ---------------------------------------------------------------------------
  // draw_surface_top_segments

  /** One entry of the `segments` list: a length (possibly `None`), a border
      zone width and a material. */
  datatype SegmentIn = SegmentIn(length: Option<real>, offset: real, material: string)

  /** A normalised segment. */
  datatype Seg = Seg(length: real, offset: real, material: string)

  datatype SegmentsCall = SegmentsCall(topLeft: Point, length: real, width: real,
                                       segments: seq<SegmentIn>, addDims: bool,
                                       clipLeft: bool, clipRight: bool)

  /** Offsets and lengths clamped to be non-negative; a missing length is 0. */
  function Clamp(s: SegmentIn): (r: Seg)
    ensures r.length >= 0.0 && r.offset >= 0.0 && r.material == s.material
    ensures s.length.None? ==> r.length == 0.0
  {
    Seg(if s.length.None? then 0.0 else Max(0.0, s.length.value), Max(0.0, s.offset), s.material)
  }

  function Clamped(segs: seq<SegmentIn>): (r: seq<Seg>)
    ensures |r| == |segs|
    ensures forall j :: 0 <= j < |r| ==> r[j] == Clamp(segs[j])
  {
    seq(|segs|, j requires 0 <= j < |segs| => Clamp(segs[j]))
  }

  /** The sum of the first k lengths. */
  function Total(norm: seq<Seg>, k: nat): real
    requires k <= |norm|
  {
    if k == 0 then 0.0 else Total(norm, k - 1) + norm[k - 1].length
  }

  /** The last segment takes up a shortfall, or gives up an overflow down to 0. */
  function Adjusted(norm: seq<Seg>, total: real, L: real): (r: seq<Seg>)
    requires |norm| > 0
    ensures |r| == |norm| && r[..|r| - 1] == norm[..|norm| - 1]
  {
    var k := |norm| - 1;
    if total < L then norm[k := norm[k].(length := norm[k].length + (L - total))]
    else if total > L then norm[k := norm[k].(length := Max(0.0, norm[k].length - (total - L)))]
    else norm
  }

  function Normalized(segs: seq<SegmentIn>, L: real): (r: seq<Seg>)
    requires |segs| > 0
    ensures |r| == |segs|
  {
    var cl := Clamped(segs);
    Adjusted(cl, Total(cl, |cl|), L)
  }

  /** The normalising loop. */
  method NormalizeSegments(segs: seq<SegmentIn>, L: real) returns (norm: seq<Seg>)
    requires |segs| > 0
    ensures norm == Normalized(segs, L)
  {
    norm := [];
    var total := 0.0;
    for i := 0 to |segs|
      invariant norm == Clamped(segs)[..i]
      invariant total == Total(Clamped(segs), i)
    {
      norm := norm + [Clamp(segs[i])];
      total := total + Clamp(segs[i]).length;
    }
    assert norm == Clamped(segs);
    var k := |norm| - 1;
    if total < L {
      norm := norm[k := norm[k].(length := norm[k].length + (L - total))];
      total := L;
    }
    if total > L {
      norm := norm[k := norm[k].(length := Max(0.0, norm[k].length - (total - L)))];
    }
  }

  /** The running sums `boundaries`: 0, then the end of each segment. */
  function Bounds(norm: seq<Seg>): (b: seq<real>)
    ensures |b| == |norm| + 1
    ensures forall j :: 0 <= j <= |norm| ==> b[j] == Total(norm, j)
  {
    seq(|norm| + 1, j requires 0 <= j <= |norm| => Total(norm, j))
  }

  method Boundaries(norm: seq<Seg>) returns (b: seq<real>)
    ensures b == Bounds(norm)
  {
    ghost var bs := Bounds(norm);
    b := [0.0];
    var acc := 0.0;
    for j := 0 to |norm|
      invariant acc == Total(norm, j) && b == bs[..j + 1]
    {
      acc := acc + norm[j].length;
      assert bs[..j + 2] == bs[..j + 1] + [bs[j + 1]];
      b := b + [acc];
    }
    assert bs[..|norm| + 1] == bs;
  }

  /** The two points of the step at inner boundary j + 1 on the near long
      side, and on the far one. */
  function NearStep(tlx: real, tly: real, norm: seq<Seg>, b: seq<real>, j: nat): seq<Point>
    requires j + 1 < |norm| && |b| == |norm| + 1
  {
    [Point(tlx + b[j + 1], tly - norm[j].offset), Point(tlx + b[j + 1], tly - norm[j + 1].offset)]
  }
  function FarStep(tlx: real, tly: real, W: real, norm: seq<Seg>, b: seq<real>, j: nat): seq<Point>
    requires j + 1 < |norm| && |b| == |norm| + 1
  {
    [Point(tlx + b[j + 1], tly + W + norm[j + 1].offset), Point(tlx + b[j + 1], tly + W + norm[j].offset)]
  }

  /** The near-side steps for boundaries 1..k, left to right. */
  function NearSteps(tlx: real, tly: real, norm: seq<Seg>, b: seq<real>, k: nat): (r: seq<Point>)
    requires k < |norm| && |b| == |norm| + 1
    ensures |r| == 2 * k
  {
    if k == 0 then [] else NearSteps(tlx, tly, norm, b, k - 1) + NearStep(tlx, tly, norm, b, k - 1)
  }

  /** The far-side steps for boundaries hi down to lo + 1, right to left. */
  function FarSteps(tlx: real, tly: real, W: real, norm: seq<Seg>, b: seq<real>, hi: nat, lo: nat): (r: seq<Point>)
    requires lo <= hi < |norm| && |b| == |norm| + 1
    ensures |r| == 2 * (hi - lo)
    decreases hi - lo
  {
    if hi == lo then [] else FarStep(tlx, tly, W, norm, b, hi - 1) + FarSteps(tlx, tly, W, norm, b, hi - 1, lo)
  }

  lemma {:induction false} FarStepsExtend(tlx: real, tly: real, W: real, norm: seq<Seg>, b: seq<real>, hi: nat, lo: nat)
    requires 0 < lo <= hi < |norm| && |b| == |norm| + 1
    ensures FarSteps(tlx, tly, W, norm, b, hi, lo - 1)
            == FarSteps(tlx, tly, W, norm, b, hi, lo) + FarStep(tlx, tly, W, norm, b, lo - 1)
    decreases hi - lo
  {
    if hi > lo {
      FarStepsExtend(tlx, tly, W, norm, b, hi - 1, lo);
    }
  }

  function OuterLeft(c: SegmentsCall, norm: seq<Seg>): real
    requires |norm| > 0
  {
    if c.clipLeft then c.topLeft.x else c.topLeft.x - norm[0].offset
  }
  function OuterRight(c: SegmentsCall, norm: seq<Seg>): real
    requires |norm| > 0
  {
    var off := norm[|norm| - 1].offset;
    if c.clipRight then c.topLeft.x + c.length else c.topLeft.x + c.length + off
  }

  /** The closed stepped outline, clockwise: the near side left to right with
      a step at every inner boundary, the right end, the far side right to left,
      and back up the left end. */
  function Outline(c: SegmentsCall, norm: seq<Seg>, b: seq<real>): (pts: seq<Point>)
    requires |norm| > 0 && |b| == |norm| + 1
    ensures |pts| == 4 * |norm|
  {
    var n := |norm|;
    var tlx, tly, W := c.topLeft.x, c.topLeft.y, c.width;
    var xl, xr := OuterLeft(c, norm), OuterRight(c, norm);
    var off0, offLast := norm[0].offset, norm[n - 1].offset;
    [Point(xl, tly - off0)] + NearSteps(tlx, tly, norm, b, n - 1)
    + [Point(xr, tly - offLast), Point(xr, tly + W + offLast)]
    + FarSteps(tlx, tly, W, norm, b, n - 1, 0) + [Point(xl, tly + W + off0)]
  }

  method OutlinePoints(c: SegmentsCall, norm: seq<Seg>, b: seq<real>) returns (pts: seq<Point>)
    requires |norm| > 0 && |b| == |norm| + 1
    ensures pts == Outline(c, norm, b)
  {
    var n := |norm|;
    var tlx, tly, W := c.topLeft.x, c.topLeft.y, c.width;
    var xl := if c.clipLeft then tlx else tlx - norm[0].offset;
    pts := [Point(xl, tly - norm[0].offset)];
    for j := 0 to n - 1
      invariant pts == [Point(xl, tly - norm[0].offset)] + NearSteps(tlx, tly, norm, b, j)
    {
      pts := pts + NearStep(tlx, tly, norm, b, j);
    }
    var offLast := norm[n - 1].offset;
    var xr := if c.clipRight then tlx + c.length else tlx + c.length + offLast;
    pts := pts + [Point(xr, tly - offLast), Point(xr, tly + W + offLast)];
    ghost var mid := pts;
    var j := n - 1;
    while j > 0
      invariant 0 <= j <= n - 1
      invariant pts == mid + FarSteps(tlx, tly, W, norm, b, n - 1, j)
    {
      j := j - 1;
      FarStepsExtend(tlx, tly, W, norm, b, n - 1, j + 1);
      pts := pts + FarStep(tlx, tly, W, norm, b, j);
    }
    pts := pts + [Point(xl, tly + W + norm[0].offset)];
    assert xl == OuterLeft(c, norm) && xr == OuterRight(c, norm);
  }

  function MaxOffset(norm: seq<Seg>, k: nat): (m: real)
    requires 0 < k <= |norm|
    ensures forall j :: 0 <= j < k ==> norm[j].offset <= m
    ensures exists j :: 0 <= j < k && norm[j].offset == m
  {
    if k == 1 then norm[0].offset else Max(MaxOffset(norm, k - 1), norm[k - 1].offset)
  }

  /** The length dimension of segment j, lifted above the widest border zone;
      at an unclipped outer end it is extended by that end's border zone. */
  function SegmentLengthDim(c: SegmentsCall, norm: seq<Seg>, b: seq<real>, j: nat): Entity
    requires j < |norm| && |b| == |norm| + 1
  {
    var tlx, tly, W := c.topLeft.x, c.topLeft.y, c.width;
    var off := norm[j].offset;
    var extL, extR := (if c.clipLeft then 0.0 else 1.0), (if c.clipRight then 0.0 else 1.0);
    var x1 := tlx + b[j] - (if j == 0 then off * extL else 0.0);
    var x2 := tlx + b[j + 1] + (if j == |norm| - 1 then off * extR else 0.0);
    var yRef := tly + W + off;
    var yTopClear := tly + W + MaxOffset(norm, |norm|) + DimOffset + SegmentLift;
    Dimension(LayerDim, Point((x1 + x2) / 2.0, yTopClear), Point(x1, yRef), Point(x2, yRef), 0.0)
  }

  /** The width dimension of segment j, across the trench and both border zones. */
  function SegmentWidthDim(c: SegmentsCall, norm: seq<Seg>, b: seq<real>, j: nat): Entity
    requires j < |norm| && |b| == |norm| + 1
  {
    var tlx, tly, W := c.topLeft.x, c.topLeft.y, c.width;
    var off := norm[j].offset;
    var cx := (tlx + b[j] + (tlx + b[j + 1])) / 2.0;
    var topY, botY := tly - off, tly + W + off;
    Dimension(LayerDim, Point(cx, (topY + botY) / 2.0), Point(cx, botY), Point(cx, topY), 90.0)
  }

  function LengthDims(c: SegmentsCall, norm: seq<Seg>, b: seq<real>, k: nat): (r: seq<Entity>)
    requires k <= |norm| && |b| == |norm| + 1
    ensures |r| == k
  {
    if k == 0 then [] else LengthDims(c, norm, b, k - 1) + [SegmentLengthDim(c, norm, b, k - 1)]
  }

  /** The width dimensions of the first k segments, skipping those without a
      border zone wider than 1e-6. */
  function WidthDims(c: SegmentsCall, norm: seq<Seg>, b: seq<real>, k: nat): seq<Entity>
    requires k <= |norm| && |b| == |norm| + 1
  {
    if k == 0 then []
    else WidthDims(c, norm, b, k - 1)
         + (if norm[k - 1].offset <= OffEps then [] else [SegmentWidthDim(c, norm, b, k - 1)])
  }

  /** Everything `draw_surface_top_segments` adds. */
  function SegmentsEntities(c: SegmentsCall): seq<Entity> {
    if |c.segments| == 0 then []
    else
      var norm := Normalized(c.segments, c.length);
      var b := Bounds(norm);
      [Polyline(LayerSurf, Outline(c, norm, b), true)]
      + (if c.addDims then LengthDims(c, norm, b, |norm|) + WidthDims(c, norm, b, |norm|) else [])
  }

  /** The dimension loops: a length dimension per segment, then a width
      dimension per segment with a border zone. */
  method SegmentDims(c: SegmentsCall, norm: seq<Seg>, b: seq<real>) returns (es: seq<Entity>)
    requires |norm| > 0 && |b| == |norm| + 1
    ensures es == LengthDims(c, norm, b, |norm|) + WidthDims(c, norm, b, |norm|)
  {
    es := [];
    for j := 0 to |norm|
      invariant es == LengthDims(c, norm, b, j)
    {
      es := es + [SegmentLengthDim(c, norm, b, j)];
    }
    ghost var lengths := es;
    for j := 0 to |norm|
      invariant es == lengths + WidthDims(c, norm, b, j)
    {
      if norm[j].offset <= OffEps {
        continue;
      }
      es := es + [SegmentWidthDim(c, norm, b, j)];
    }
  }

  method DrawSurfaceTopSegments(msp: Drawing, c: SegmentsCall)
    modifies msp
    ensures msp.entities == old(msp.entities) + SegmentsEntities(c)
  {
    if |c.segments| == 0 {
      return;
    }
    var norm := NormalizeSegments(c.segments, c.length);
    var b := Boundaries(norm);
    var pts := OutlinePoints(c, norm, b);
    var dims: seq<Entity> := [];
    if c.addDims {
      dims := SegmentDims(c, norm, b);
    }
    assert SegmentsEntities(c) == [Polyline(LayerSurf, pts, true)] + dims;
    msp.AddAll([Polyline(LayerSurf, pts, true)] + dims);
  }

  /** An empty segment list draws nothing. */
  lemma NoSegmentsNothing(c: SegmentsCall)
    requires c.segments == []
    ensures SegmentsEntities(c) == []
  {
  }

  /** Normalisation keeps the materials and the clamped offsets, and all
      lengths but the last; offsets and lengths are never negative. */
  lemma NormalizedClamps(segs: seq<SegmentIn>, L: real)
    requires |segs| > 0
    ensures var norm := Normalized(segs, L);
            forall j :: 0 <= j < |norm| ==>
              norm[j].offset == Max(0.0, segs[j].offset) && norm[j].material == segs[j].material
              && norm[j].length >= 0.0
              && (j < |norm| - 1 ==> norm[j] == Clamp(segs[j]))
  {
    var cl := Clamped(segs);
    var norm := Normalized(segs, L);
    forall j | 0 <= j < |norm| - 1 ensures norm[j] == Clamp(segs[j]) {
      assert norm[j] == norm[..|norm| - 1][j];
    }
  }

  lemma {:induction false} TotalPrefix(norm: seq<Seg>, other: seq<Seg>, k: nat)
    requires k <= |norm| && k <= |other| && norm[..k] == other[..k]
    ensures Total(norm, k) == Total(other, k)
  {
    if k > 0 {
      assert norm[..k - 1] == norm[..k][..k - 1] && other[..k - 1] == other[..k][..k - 1];
      assert norm[k - 1] == norm[..k][k - 1] && other[k - 1] == other[..k][k - 1];
      TotalPrefix(norm, other, k - 1);
    }
  }

  /** A shortfall against the trench length L is added to the last segment, so
      the lengths then sum to L; an overflow is taken from the last segment but
      not below 0, so they sum to L exactly when the last segment was at least
      as long as the overflow (and to more than L otherwise). */
  lemma NormalizedLength(segs: seq<SegmentIn>, L: real)
    requires |segs| > 0
    ensures var cl, norm := Clamped(segs), Normalized(segs, L);
            var total, n := Total(cl, |cl|), |segs|;
            var last := cl[n - 1].length;
            (total < L ==> norm[n - 1].length == last + (L - total) && Total(norm, n) == L)
            && (total > L ==> norm[n - 1].length == Max(0.0, last - (total - L))
                              && (Total(norm, n) == L <==> last >= total - L)
                              && (last < total - L ==> Total(norm, n) > L))
            && (total == L ==> norm == cl)
  {
    var cl, norm := Clamped(segs), Normalized(segs, L);
    var n := |segs|;
    TotalPrefix(norm, cl, n - 1);
  }

  /** `boundaries` starts at 0, has one entry more than there are segments,
      never decreases and ends at the total length. */
  lemma BoundariesGrow(segs: seq<SegmentIn>, L: real)
    requires |segs| > 0
    ensures var norm := Normalized(segs, L);
            var b := Bounds(norm);
            |b| == |norm| + 1 && b[0] == 0.0 && b[|norm|] == Total(norm, |norm|)
            && forall i, j :: 0 <= i <= j <= |norm| ==> b[i] <= b[j]
  {
    var norm := Normalized(segs, L);
    NormalizedClamps(segs, L);
    forall i, j | 0 <= i <= j <= |norm| ensures Total(norm, i) <= Total(norm, j) {
      TotalGrows(norm, i, j);
    }
  }

  lemma {:induction false} TotalGrows(norm: seq<Seg>, i: nat, j: nat)
    requires i <= j <= |norm|
    requires forall t :: 0 <= t < |norm| ==> norm[t].length >= 0.0
    ensures Total(norm, i) <= Total(norm, j)
    decreases j
  {
    if i < j {
      TotalGrows(norm, i, j - 1);
    }
  }

  lemma {:induction false} NearStepsAt(tlx: real, tly: real, norm: seq<Seg>, b: seq<real>, k: nat, j: nat)
    requires j < k < |norm| && |b| == |norm| + 1
    ensures var r := NearSteps(tlx, tly, norm, b, k);
            r[2 * j] == Point(tlx + b[j + 1], tly - norm[j].offset)
            && r[2 * j + 1] == Point(tlx + b[j + 1], tly - norm[j + 1].offset)
  {
    if j < k - 1 {
      NearStepsAt(tlx, tly, norm, b, k - 1, j);
    }
  }

  lemma {:induction false} FarStepsAt(tlx: real, tly: real, W: real, norm: seq<Seg>, b: seq<real>, hi: nat, j: nat)
    requires j < hi < |norm| && |b| == |norm| + 1
    ensures var r := FarSteps(tlx, tly, W, norm, b, hi, 0);
            r[2 * (hi - 1 - j)] == Point(tlx + b[j + 1], tly + W + norm[j + 1].offset)
            && r[2 * (hi - 1 - j) + 1] == Point(tlx + b[j + 1], tly + W + norm[j].offset)
  {
    if j < hi - 1 {
      FarStepsAt(tlx, tly, W, norm, b, hi - 1, j);
      var r := FarSteps(tlx, tly, W, norm, b, hi, 0);
      assert r == FarStep(tlx, tly, W, norm, b, hi - 1) + FarSteps(tlx, tly, W, norm, b, hi - 1, 0);
    }
  }

  /** The near-side steps sit right after the outline's first point. */
  lemma OutlineNear(c: SegmentsCall, norm: seq<Seg>, b: seq<real>, i: nat)
    requires |norm| > 0 && |b| == |norm| + 1 && i < 2 * (|norm| - 1)
    ensures Outline(c, norm, b)[1 + i] == NearSteps(c.topLeft.x, c.topLeft.y, norm, b, |norm| - 1)[i]
  {
  }

  /** The far-side steps sit after the two right-hand corners. */
  lemma OutlineFar(c: SegmentsCall, norm: seq<Seg>, b: seq<real>, i: nat)
    requires |norm| > 0 && |b| == |norm| + 1 && i < 2 * (|norm| - 1)
    ensures Outline(c, norm, b)[2 * |norm| + 1 + i]
            == FarSteps(c.topLeft.x, c.topLeft.y, c.width, norm, b, |norm| - 1, 0)[i]
  {
  }

  /** The four step points of one inner boundary j. */
  lemma OutlineStepAt(c: SegmentsCall, norm: seq<Seg>, b: seq<real>, j: nat)
    requires |norm| > 0 && |b| == |norm| + 1 && j < |norm| - 1
    ensures var pts, n := Outline(c, norm, b), |norm|;
            pts[1 + 2 * j] == Point(c.topLeft.x + b[j + 1], c.topLeft.y - norm[j].offset)
            && pts[2 + 2 * j] == Point(c.topLeft.x + b[j + 1], c.topLeft.y - norm[j + 1].offset)
            && pts[4 * n - 3 - 2 * j] == Point(c.topLeft.x + b[j + 1], c.topLeft.y + c.width + norm[j + 1].offset)
            && pts[4 * n - 2 - 2 * j] == Point(c.topLeft.x + b[j + 1], c.topLeft.y + c.width + norm[j].offset)
  {
    NearStepAt(c, norm, b, j);
    FarStepAt(c, norm, b, j);
  }

  /** The two near-side step points of inner boundary j. */
  lemma NearStepAt(c: SegmentsCall, norm: seq<Seg>, b: seq<real>, j: nat)
    requires |norm| > 0 && |b| == |norm| + 1 && j < |norm| - 1
    ensures var pts := Outline(c, norm, b);
            pts[1 + 2 * j] == Point(c.topLeft.x + b[j + 1], c.topLeft.y - norm[j].offset)
            && pts[2 + 2 * j] == Point(c.topLeft.x + b[j + 1], c.topLeft.y - norm[j + 1].offset)
  {
    NearStepsAt(c.topLeft.x, c.topLeft.y, norm, b, |norm| - 1, j);
    OutlineNear(c, norm, b, 2 * j);
    OutlineNear(c, norm, b, 2 * j + 1);
  }

  /** The two far-side step points of inner boundary j. */
  lemma FarStepAt(c: SegmentsCall, norm: seq<Seg>, b: seq<real>, j: nat)
    requires |norm| > 0 && |b| == |norm| + 1 && j < |norm| - 1
    ensures var pts, n := Outline(c, norm, b), |norm|;
            pts[4 * n - 3 - 2 * j] == Point(c.topLeft.x + b[j + 1], c.topLeft.y + c.width + norm[j + 1].offset)
            && pts[4 * n - 2 - 2 * j] == Point(c.topLeft.x + b[j + 1], c.topLeft.y + c.width + norm[j].offset)
  {
    var n := |norm|;
    FarStepsAt(c.topLeft.x, c.topLeft.y, c.width, norm, b, n - 1, j);
    OutlineFar(c, norm, b, 2 * (n - 2 - j));
    OutlineFar(c, norm, b, 2 * (n - 2 - j) + 1);
  }

  /** The stepped outline has 4·n points; every inner boundary j gives a
      vertical step at `tlx + boundaries[j]` on both long sides, between the
      border zones of the segments on either side of it. */
  lemma OutlineSteps(c: SegmentsCall, norm: seq<Seg>, b: seq<real>)
    requires |norm| > 0 && |b| == |norm| + 1
    ensures var pts, n := Outline(c, norm, b), |norm|;
            |pts| == 4 * n
            && forall j :: 0 <= j < n - 1 ==>
                 pts[1 + 2 * j] == Point(c.topLeft.x + b[j + 1], c.topLeft.y - norm[j].offset)
                 && pts[2 + 2 * j] == Point(c.topLeft.x + b[j + 1], c.topLeft.y - norm[j + 1].offset)
                 && pts[4 * n - 3 - 2 * j] == Point(c.topLeft.x + b[j + 1], c.topLeft.y + c.width + norm[j + 1].offset)
                 && pts[4 * n - 2 - 2 * j] == Point(c.topLeft.x + b[j + 1], c.topLeft.y + c.width + norm[j].offset)
  {
    forall j | 0 <= j < |norm| - 1 {
      OutlineStepAt(c, norm, b, j);
    }
  }

  lemma {:induction false} WidthDimsCount(c: SegmentsCall, norm: seq<Seg>, b: seq<real>, k: nat)
    requires k <= |norm| && |b| == |norm| + 1
    ensures |WidthDims(c, norm, b, k)| == |set j | 0 <= j < k && norm[j].offset > OffEps|
  {
    if k > 0 {
      WidthDimsCount(c, norm, b, k - 1);
      var s := set j | 0 <= j < k - 1 && norm[j].offset > OffEps;
      if norm[k - 1].offset > OffEps {
        assert (set j | 0 <= j < k && norm[j].offset > OffEps) == s + {k - 1};
      } else {
        assert (set j | 0 <= j < k && norm[j].offset > OffEps) == s;
      }
    }
  }

  lemma {:induction false} WidthDimsFrom(c: SegmentsCall, norm: seq<Seg>, b: seq<real>, k: nat)
    requires k <= |norm| && |b| == |norm| + 1
    ensures forall e :: e in WidthDims(c, norm, b, k) ==>
              exists j :: 0 <= j < k && norm[j].offset > OffEps && e == SegmentWidthDim(c, norm, b, j)
  {
    if k > 0 {
      WidthDimsFrom(c, norm, b, k - 1);
    }
  }

  lemma {:induction false} LengthDimsAt(c: SegmentsCall, norm: seq<Seg>, b: seq<real>, k: nat, j: nat)
    requires j < k <= |norm| && |b| == |norm| + 1
    ensures LengthDims(c, norm, b, k)[j] == SegmentLengthDim(c, norm, b, j)
  {
    if j < k - 1 {
      LengthDimsAt(c, norm, b, k - 1, j);
    }
  }

  /** Without `add_dims` only the outline is drawn.  Otherwise the outline is
      followed by one length dimension per segment, in order, and then by one
      width dimension per segment with a border zone wider than 1e-6. */
  lemma SegmentDimensions(c: SegmentsCall)
    requires |c.segments| > 0
    ensures var norm := Normalized(c.segments, c.length);
            var b := Bounds(norm);
            var n := |norm|;
            var es := SegmentsEntities(c);
            es[0] == Polyline(LayerSurf, Outline(c, norm, b), true)
            && (!c.addDims ==> |es| == 1)
            && (c.addDims ==>
                  |es| == 1 + n + |set j | 0 <= j < n && norm[j].offset > OffEps|
                  && (forall j :: 0 <= j < n ==> es[1 + j] == SegmentLengthDim(c, norm, b, j))
                  && es[1 + n..] == WidthDims(c, norm, b, n))
  {
    var norm := Normalized(c.segments, c.length);
    var b := Bounds(norm);
    var n := |norm|;
    var es := SegmentsEntities(c);
    var head := [Polyline(LayerSurf, Outline(c, norm, b), true)];
    if c.addDims {
      WidthDimsCount(c, norm, b, n);
      DimsAfter(c, norm, b, head, es);
    } else {
      assert es == head + [];
    }
  }

  /** After the outline come the length dimensions, in segment order, and then
      the width dimensions. */
  lemma DimsAfter(c: SegmentsCall, norm: seq<Seg>, b: seq<real>, head: seq<Entity>, es: seq<Entity>)
    requires |b| == |norm| + 1 && |head| == 1
    requires es == head + (LengthDims(c, norm, b, |norm|) + WidthDims(c, norm, b, |norm|))
    ensures |es| == 1 + |norm| + |WidthDims(c, norm, b, |norm|)|
    ensures forall j :: 0 <= j < |norm| ==> es[1 + j] == SegmentLengthDim(c, norm, b, j)
    ensures es[1 + |norm|..] == WidthDims(c, norm, b, |norm|)
  {
    var n := |norm|;
    var ld := LengthDims(c, norm, b, n);
    forall j | 0 <= j < n
      ensures es[1 + j] == SegmentLengthDim(c, norm, b, j)
    {
      assert es[1 + j] == ld[j];
      LengthDimsAt(c, norm, b, n, j);
    }
  }

  /** The length dimension of segment j runs from its start boundary to its
      end boundary, extended by the border zone only at an unclipped outer end. */
  lemma LengthDimSpan(c: SegmentsCall, norm: seq<Seg>, b: seq<real>, j: nat)
    requires j < |norm| && |b| == |norm| + 1
    ensures var d := SegmentLengthDim(c, norm, b, j);
            d.Dimension? && d.angle == 0.0 && d.layer == LayerDim
            && d.p1.x == c.topLeft.x + b[j] - (if j == 0 && !c.clipLeft then norm[j].offset else 0.0)
            && d.p2.x == c.topLeft.x + b[j + 1] + (if j == |norm| - 1 && !c.clipRight then norm[j].offset else 0.0)
            && d.p1.y == d.p2.y == c.topLeft.y + c.width + norm[j].offset
            && forall t :: 0 <= t < |norm| ==> d.base.y > c.topLeft.y + c.width + norm[t].offset
  {
  }

  /** Every width dimension is vertical and measures the trench width plus
      both border zones of a segment whose zone is wider than 1e-6. */
  lemma {:induction false} WidthDimsShape(c: SegmentsCall, norm: seq<Seg>, b: seq<real>, k: nat)
    requires k <= |norm| && |b| == |norm| + 1
    ensures forall e :: e in WidthDims(c, norm, b, k) ==>
              exists j :: 0 <= j < |norm| && norm[j].offset > OffEps
                && e.Dimension? && e.angle == 90.0 && e.p1.x == e.p2.x
                && e.p1.y - e.p2.y == c.width + 2.0 * norm[j].offset
  {
    if k > 0 {
      WidthDimsShape(c, norm, b, k - 1);
      if norm[k - 1].offset > OffEps {
        WidthDimShape(c, norm, b, k - 1);
      }
    }
  }

  lemma WidthDimShape(c: SegmentsCall, norm: seq<Seg>, b: seq<real>, j: nat)
    requires j < |norm| && |b| == |norm| + 1
    ensures var e := SegmentWidthDim(c, norm, b, j);
            e.Dimension? && e.angle == 90.0 && e.p1.x == e.p2.x
            && e.p1.y - e.p2.y == c.width + 2.0 * norm[j].offset
  {
  }
}
