/** The full-span pipe of a cluster of linked trenches (main.py:1850-1926):
    the chase to the cluster's last trench summing the span, the choice of
    the pipe and the floor profile under it. Trench positions here are
    0-based, as in the source's loops; trench numbers are position + 1. */
module GenCluster {
  import opened Wrappers
  import opened Numbers
  import opened Elements
  import opened Lookups
  import opened GenBasics

  // ---------------------------------------------------------------------------
  // The chase (main.py:1852-1868)

  /** The loop of the chase from position idx with `span` summed so far:
      the trench's length is added; a connection seam to the right extends
      the cluster as it is, a passage seam adds the passage length; any
      other seam ends it. A trench or passage without `length` raises. */
  function ChaseFrom(ctx: Ctx, idx: nat, span: real): (r: Result<(nat, real), GenError>)
    requires idx < N(ctx)
    decreases N(ctx) - idx
  {
    var len := ctx.trenches[idx].length;
    if len.None? then Failure(TrenchWithoutLength(idx + 1))
    else if idx + 1 < N(ctx) && idx + 1 in ctx.joinSet then ChaseFrom(ctx, idx + 1, span + len.value)
    else if idx + 1 < N(ctx) && PassAt(ctx, idx + 1).Some? then
      var p := PassAt(ctx, idx + 1).value;
      if p.length.None? then Failure(PassWithoutLength(idx + 1))
      else ChaseFrom(ctx, idx + 1, span + len.value + p.length.value)
    else Success((idx, span + len.value))
  }

  method ChaseCluster(ctx: Ctx, i: nat) returns (r: Result<(nat, real), GenError>)
    requires i < N(ctx)
    ensures r == ChaseFrom(ctx, i, 0.0)
  {
    var span := 0.0;
    var idx := i;
    while true
      invariant i <= idx < N(ctx)
      invariant ChaseFrom(ctx, idx, span) == ChaseFrom(ctx, i, 0.0)
      decreases N(ctx) - idx
    {
      var len := ctx.trenches[idx].length;
      if len.None? {
        return Failure(TrenchWithoutLength(idx + 1));
      }
      span := span + len.value;
      if idx + 1 < N(ctx) {
        var seam := idx + 1;
        if seam in ctx.joinSet {
          idx := seam;
          continue;
        }
        var p := PassForBetween(ctx.passes, seam);
        if p.Some? {
          if p.value.length.None? {
            return Failure(PassWithoutLength(seam));
          }
          span := span + p.value.length.value;
          idx := seam;
          continue;
        }
      }
      return Success((idx, span));
    }
  }

  /** The last position of the cluster starting at idx: the run of seams with
      a link to the right. */
  function ClusterEnd(ctx: Ctx, idx: nat): (last: nat)
    requires idx < N(ctx)
    ensures idx <= last < N(ctx)
    ensures !MergeNext(ctx, last)
    decreases N(ctx) - idx
  {
    if MergeNext(ctx, idx) then ClusterEnd(ctx, idx + 1) else idx
  }

  /** What seam s adds to a span: nothing for a connection, the passage's
      length otherwise. */
  function Gap(ctx: Ctx, s: nat): real {
    if s in ctx.joinSet then 0.0
    else if PassAt(ctx, s).Some? then RealOr0(PassAt(ctx, s).value.length)
    else 0.0
  }

  /** The length of positions k..last with the gaps of the seams between them. */
  function SpanFrom(ctx: Ctx, k: nat, last: nat): real
    requires k <= last < N(ctx)
    decreases last - k
  {
    RealOr0(ctx.trenches[k].length) + (if k < last then Gap(ctx, k + 1) + SpanFrom(ctx, k + 1, last) else 0.0)
  }

  /** The chase ends at the cluster's last trench with the sum of the trench
      lengths and passage lengths of the cluster. */
  lemma {:induction false} ChaseSpan(ctx: Ctx, idx: nat, span: real)
    requires idx < N(ctx)
    ensures var r := ChaseFrom(ctx, idx, span);
            r.Success? ==> r.value.0 == ClusterEnd(ctx, idx) && r.value.1 == span + SpanFrom(ctx, idx, ClusterEnd(ctx, idx))
    decreases N(ctx) - idx
  {
    var len := ctx.trenches[idx].length;
    if len.Some? && MergeNext(ctx, idx) {
      if idx + 1 in ctx.joinSet {
        ChaseSpan(ctx, idx + 1, span + len.value);
      } else if PassAt(ctx, idx + 1).value.length.Some? {
        ChaseSpan(ctx, idx + 1, span + len.value + PassAt(ctx, idx + 1).value.length.value);
      }
    }
  }

  /** When the chase fails, the trench or passage it names lies in the
      cluster and lacks its length. */
  lemma {:induction false} ChaseFailure(ctx: Ctx, idx: nat, span: real)
    requires idx < N(ctx)
    ensures var r := ChaseFrom(ctx, idx, span);
            r.Failure? ==> ErrorWitness(ctx, r.error) && ErrorIn(r.error, idx, ClusterEnd(ctx, idx))
    decreases N(ctx) - idx
  {
    var len := ctx.trenches[idx].length;
    if len.Some? && MergeNext(ctx, idx) {
      if idx + 1 in ctx.joinSet {
        ChaseFailure(ctx, idx + 1, span + len.value);
      } else if PassAt(ctx, idx + 1).value.length.Some? {
        ChaseFailure(ctx, idx + 1, span + len.value + PassAt(ctx, idx + 1).value.length.value);
      }
    }
  }

  /** The error names a trench among positions idx..last, or a seam between them. */
  predicate ErrorIn(err: GenError, idx: nat, last: nat) {
    match err
    case TrenchWithoutLength(k) => idx + 1 <= k <= last + 1
    case PassWithoutLength(s) => idx + 1 <= s <= last
    case _ => false
  }

  /** The chase never fails on a cluster whose trenches and passages all
      have a length. */
  lemma {:induction false} ChaseSucceeds(ctx: Ctx, idx: nat, span: real)
    requires idx < N(ctx)
    requires forall k :: idx <= k <= ClusterEnd(ctx, idx) ==> ctx.trenches[k].length.Some?
    requires forall s :: idx < s <= ClusterEnd(ctx, idx) && PassAt(ctx, s).Some? ==> PassAt(ctx, s).value.length.Some?
    ensures ChaseFrom(ctx, idx, span).Success?
    decreases N(ctx) - idx
  {
    if MergeNext(ctx, idx) {
      var len := ctx.trenches[idx].length.value;
      if idx + 1 in ctx.joinSet {
        ChaseSucceeds(ctx, idx + 1, span + len);
      } else {
        ChaseSucceeds(ctx, idx + 1, span + len + PassAt(ctx, idx + 1).value.length.value);
      }
    }
  }

  // ---------------------------------------------------------------------------
  // The pipe of the cluster (main.py:1870-1879)

  /** The first position among k..last that satisfies p. */
  function FirstFrom(p: nat -> bool, k: nat, last: nat): Option<nat>
    decreases last + 1 - k
  {
    if k > last then None else if p(k) then Some(k) else FirstFrom(p, k + 1, last)
  }

  /** The position found is the first that satisfies p; there is none
      exactly when no position does. */
  lemma {:induction false} FirstFromFirst(p: nat -> bool, k: nat, last: nat)
    ensures var r := FirstFrom(p, k, last);
            (r.None? <==> forall j :: k <= j <= last ==> !p(j))
            && (r.Some? ==> k <= r.value <= last && p(r.value) && forall j :: k <= j < r.value ==> !p(j))
    decreases last + 1 - k
  {
    if k <= last && !p(k) {
      FirstFromFirst(p, k + 1, last);
    }
  }

  /** The first pipe of trench position k (trench number k + 1) runs the
      full span. */
  predicate FullFirstPipe(ctx: Ctx, k: nat) {
    var cand := FirstPipeForTrench(ctx.pipes, k + 1);
    cand.Some? && PipeFullAndWant(cand.value, ctx.tools.fmt).0
  }

  function FullAt(ctx: Ctx): nat -> bool {
    (k: nat) => FullFirstPipe(ctx, k)
  }

  /** The search of main.py:1870-1879 over positions k..last. */
  function FirstFull(ctx: Ctx, k: nat, last: nat): Option<nat>
    decreases last + 1 - k
  {
    if k > last then None else if FullFirstPipe(ctx, k) then Some(k) else FirstFull(ctx, k + 1, last)
  }

  /** The search is the first-position search for FullFirstPipe. */
  lemma {:induction false} FirstFullIs(ctx: Ctx, k: nat, last: nat)
    ensures FirstFull(ctx, k, last) == FirstFrom(FullAt(ctx), k, last)
    decreases last + 1 - k
  {
    if k <= last {
      assert FullAt(ctx)(k) == FullFirstPipe(ctx, k);
      FirstFullIs(ctx, k + 1, last);
    }
  }

  /** The pipe of trench position `at`, when there is one. */
  function PipeOfPosition(ctx: Ctx, at: Option<nat>): Option<Element> {
    if at.Some? then FirstPipeForTrench(ctx.pipes, at.value + 1) else None
  }

  /** The first pipe of the first trench among positions k..last whose first
      pipe runs the full span. */
  function FullPipeFrom(ctx: Ctx, k: nat, last: nat): Option<Element> {
    PipeOfPosition(ctx, FirstFull(ctx, k, last))
  }

  /** The loop over positions i..last: the first position whose first pipe
      runs the full span. */
  method FullPipePosition(ctx: Ctx, i: nat, last: nat) returns (at: Option<nat>)
    ensures at == FirstFull(ctx, i, last)
  {
    var k := i;
    while k <= last
      invariant k >= i
      invariant FirstFull(ctx, k, last) == FirstFull(ctx, i, last)
      decreases last + 1 - k
    {
      var cand := FirstPipeForTrench(ctx.pipes, k + 1);
      if cand.Some? {
        var fw := PipeFullAndWant(cand.value, ctx.tools.fmt);
        if fw.0 {
          return Some(k);
        }
      }
      k := k + 1;
    }
    return None;
  }

  /** The pipe the cluster is drawn with: the first pipe at the position the
      search stops at. */
  method PipeSource(ctx: Ctx, i: nat, last: nat) returns (src: Option<Element>)
    ensures src == FullPipeFrom(ctx, i, last)
  {
    var at := FullPipePosition(ctx, i, last);
    src := PipeOfPosition(ctx, at);
  }

  /** The search stops at the first position in the range whose first pipe
      runs the full span, and finds nothing exactly when no position has
      one. */
  lemma FullPositionFirst(ctx: Ctx, k: nat, last: nat)
    ensures var at := FirstFull(ctx, k, last);
            (at.None? <==> forall j :: k <= j <= last ==> !FullFirstPipe(ctx, j))
            && (at.Some? ==>
                  k <= at.value <= last && FullFirstPipe(ctx, at.value)
                  && forall j :: k <= j < at.value ==> !FullFirstPipe(ctx, j))
  {
    var p := FullAt(ctx);
    FirstFullIs(ctx, k, last);
    FirstFromFirst(p, k, last);
    var at := FirstFrom(p, k, last);
    if at.Some? {
      assert FullFirstPipe(ctx, at.value) by { assert p(at.value); }
      forall j | k <= j < at.value ensures !FullFirstPipe(ctx, j) { assert !p(j); }
    } else {
      forall j | k <= j <= last ensures !FullFirstPipe(ctx, j) { assert !p(j); }
    }
  }

  /** A position found has a full-span first pipe. */
  lemma FirstFullHit(ctx: Ctx, k: nat, last: nat)
    ensures var at := FirstFull(ctx, k, last);
            at.Some? ==> FullFirstPipe(ctx, at.value)
  {
    FullPositionFirst(ctx, k, last);
  }

  /** A position whose first pipe runs the full span gives that pipe. */
  lemma PositionPipe(ctx: Ctx, at: Option<nat>)
    requires at.Some? ==> FullFirstPipe(ctx, at.value)
    ensures var src := PipeOfPosition(ctx, at);
            (src.Some? <==> at.Some?)
            && (src.Some? ==> src == FirstPipeForTrench(ctx.pipes, at.value + 1)
                              && PipeFullAndWant(src.value, ctx.tools.fmt).0)
  {
  }

  /** The pipe chosen is the first pipe of the trench at the position the
      search stops at, and it runs the full span; there is a pipe exactly
      when the search stops. */
  lemma FullPipeFirst(ctx: Ctx, k: nat, last: nat)
    ensures var src, at := FullPipeFrom(ctx, k, last), FirstFull(ctx, k, last);
            (src.Some? <==> at.Some?)
            && (src.Some? ==> src == FirstPipeForTrench(ctx.pipes, at.value + 1)
                              && PipeFullAndWant(src.value, ctx.tools.fmt).0)
  {
    var at := FirstFull(ctx, k, last);
    FirstFullHit(ctx, k, last);
    PositionPipe(ctx, at);
  }

  // ---------------------------------------------------------------------------
  // The floor profile (main.py:1886-1908)

  /** The floor of trench position k from its left to its right end, when
      the trench is longer than 1e-9. */
  function TrenchPiece(ctx: Ctx, k: nat): (r: seq<ProfileSeg>)
    requires k < N(ctx)
  {
    var t := k + 1;
    var d := Dep(ctx, t);
    var base := Base(ctx, t);
    var lk := Len(ctx, t);
    if lk > LinkEps then [ProfileSeg(lk, base + (d.ref - d.left), base + (d.ref - d.right))] else []
  }

  /** The passage on the seam right of position k inside the cluster, at the
      level of the trench's right floor, when it is longer than 1e-9. */
  function PassPiece(ctx: Ctx, k: nat, last: nat): (r: seq<ProfileSeg>)
    requires k < N(ctx)
  {
    var t := k + 1;
    var d := Dep(ctx, t);
    var y1 := Base(ctx, t) + (d.ref - d.right);
    if k < last && t !in ctx.joinSet && PassAt(ctx, t).Some? then
      var pw := RealOr0(PassAt(ctx, t).value.length);
      if pw > LinkEps then [ProfileSeg(pw, y1, y1)] else []
    else []
  }

  /** A trench piece is there exactly when the trench is longer than 1e-9,
      and then has the trench's length; a passage piece is there exactly when
      the seam inside the cluster has a gap longer than 1e-9, with its length. */
  lemma PieceFacts(ctx: Ctx, k: nat, last: nat)
    requires k < N(ctx)
    ensures var r := TrenchPiece(ctx, k);
            |r| <= 1
            && (forall j :: 0 <= j < |r| ==>
                  r[j].length == RealOr0(ctx.trenches[k].length) && r[j].length > LinkEps)
            && (RealOr0(ctx.trenches[k].length) > LinkEps <==> |r| == 1)
    ensures var r := PassPiece(ctx, k, last);
            |r| <= 1
            && (forall j :: 0 <= j < |r| ==>
                  k < last && Gap(ctx, k + 1) == r[j].length && r[j].length > LinkEps)
            && ((k < last && Gap(ctx, k + 1) > LinkEps) <==> |r| == 1)
  {
  }

  /** A trench piece runs from the trench's left floor to its right floor,
      each its own depth below the ceiling; a passage piece lies level with
      the right floor of the trench left of it. */
  lemma PieceLevels(ctx: Ctx, k: nat, last: nat)
    requires k < N(ctx)
    ensures var ceiling := ClrBot + ctx.maxDepth + GokAt(ctx, k + 1);
            (forall j :: 0 <= j < |TrenchPiece(ctx, k)| ==>
               TrenchPiece(ctx, k)[j].y0 == ceiling - Dep(ctx, k + 1).left
               && TrenchPiece(ctx, k)[j].y1 == ceiling - Dep(ctx, k + 1).right)
            && (forall j :: 0 <= j < |PassPiece(ctx, k, last)| ==>
                  PassPiece(ctx, k, last)[j].y0 == PassPiece(ctx, k, last)[j].y1 == ceiling - Dep(ctx, k + 1).right)
  {
  }

  /** The profile of positions k..last. */
  function ProfileFrom(ctx: Ctx, k: nat, last: nat): seq<ProfileSeg>
    requires last < N(ctx)
    decreases last + 1 - k
  {
    if k > last then [] else TrenchPiece(ctx, k) + PassPiece(ctx, k, last) + ProfileFrom(ctx, k + 1, last)
  }

  /** One pass of the profile loop: the piece of trench position k and of the
      passage right of it. */
  method ProfileStep(ctx: Ctx, k: nat, last: nat) returns (piece: seq<ProfileSeg>)
    requires k <= last < N(ctx)
    ensures piece == TrenchPiece(ctx, k) + PassPiece(ctx, k, last)
  {
    var t := k + 1;
    var d := Dep(ctx, t);
    var base := Base(ctx, t);
    var lk := RealOr0(ctx.trenches[k].length);
    var y0 := base + (d.ref - d.left);
    var y1 := base + (d.ref - d.right);
    var tp: seq<ProfileSeg> := [];
    if lk > LinkEps {
      tp := [ProfileSeg(lk, y0, y1)];
    }
    assert tp == TrenchPiece(ctx, k);
    var pp: seq<ProfileSeg> := [];
    if k < last {
      var seam := k + 1;
      if seam !in ctx.joinSet {
        var p := PassForBetween(ctx.passes, seam);
        if p.Some? {
          var pw := RealOr0(p.value.length);
          if pw > LinkEps {
            pp := [ProfileSeg(pw, y1, y1)];
          }
        }
      }
    }
    assert pp == PassPiece(ctx, k, last);
    piece := tp + pp;
  }

  /** The profile of k..last is the pieces of k followed by the profile of
      k+1..last. */
  lemma ProfileFromStep(ctx: Ctx, k: nat, last: nat)
    requires k <= last < N(ctx)
    ensures ProfileFrom(ctx, k, last) == TrenchPiece(ctx, k) + PassPiece(ctx, k, last) + ProfileFrom(ctx, k + 1, last)
  {
  }

  method BuildProfile(ctx: Ctx, i: nat, last: nat) returns (segs: seq<ProfileSeg>)
    requires i <= last < N(ctx)
    ensures segs == ProfileFrom(ctx, i, last)
  {
    segs := [];
    var k := i;
    while k <= last
      invariant i <= k <= last + 1
      invariant segs + ProfileFrom(ctx, k, last) == ProfileFrom(ctx, i, last)
      decreases last + 1 - k
    {
      var piece := ProfileStep(ctx, k, last);
      ProfileGrows(ctx, segs, piece, i, k, last);
      segs := segs + piece;
      k := k + 1;
    }
    ProfileDone(ctx, segs, i, last);
  }

  /** One more piece moves from the profile still to build to the one built. */
  lemma ProfileGrows(ctx: Ctx, segs: seq<ProfileSeg>, piece: seq<ProfileSeg>, i: nat, k: nat, last: nat)
    requires k <= last < N(ctx)
    requires segs + ProfileFrom(ctx, k, last) == ProfileFrom(ctx, i, last)
    requires piece == TrenchPiece(ctx, k) + PassPiece(ctx, k, last)
    ensures (segs + piece) + ProfileFrom(ctx, k + 1, last) == ProfileFrom(ctx, i, last)
  {
    ProfileFromStep(ctx, k, last);
    assert segs + piece + ProfileFrom(ctx, k + 1, last) == segs + (piece + ProfileFrom(ctx, k + 1, last));
  }

  /** Once every position is taken, the profile built is the whole profile. */
  lemma ProfileDone(ctx: Ctx, segs: seq<ProfileSeg>, i: nat, last: nat)
    requires last < N(ctx)
    requires segs + ProfileFrom(ctx, last + 1, last) == ProfileFrom(ctx, i, last)
    ensures segs == ProfileFrom(ctx, i, last)
  {
    assert segs + [] == segs;
  }

  function TotalLength(segs: seq<ProfileSeg>): real {
    if segs == [] then 0.0 else segs[0].length + TotalLength(segs[1..])
  }

  lemma {:induction false} TotalLengthAppend(a: seq<ProfileSeg>, b: seq<ProfileSeg>)
    ensures TotalLength(a + b) == TotalLength(a) + TotalLength(b)
    decreases |a|
  {
    if a != [] {
      assert (a + b)[1..] == a[1..] + b;
      TotalLengthAppend(a[1..], b);
    } else {
      assert a + b == b;
    }
  }

  predicate Positive(segs: seq<ProfileSeg>) {
    forall j :: 0 <= j < |segs| ==> segs[j].length > LinkEps
  }

  lemma PositiveJoin(a: seq<ProfileSeg>, b: seq<ProfileSeg>, c: seq<ProfileSeg>)
    requires Positive(a) && Positive(b) && Positive(c)
    ensures Positive(a + b + c)
  {
    var ab := a + b;
    forall j | 0 <= j < |ab| ensures ab[j].length > LinkEps {
      if j >= |a| { assert ab[j] == b[j - |a|]; }
    }
    forall j | 0 <= j < |ab + c| ensures (ab + c)[j].length > LinkEps {
      if j >= |ab| { assert (ab + c)[j] == c[j - |ab|]; }
    }
  }

  lemma PiecesPositive(ctx: Ctx, k: nat, last: nat)
    requires k < N(ctx)
    ensures Positive(TrenchPiece(ctx, k)) && Positive(PassPiece(ctx, k, last))
  {
    PieceFacts(ctx, k, last);
  }

  /** Every piece of the profile is longer than 1e-9. */
  lemma {:induction false} ProfilePositive(ctx: Ctx, k: nat, last: nat)
    requires last < N(ctx)
    ensures Positive(ProfileFrom(ctx, k, last))
    decreases last + 1 - k
  {
    if k <= last {
      ProfilePositive(ctx, k + 1, last);
      PositiveStep(ctx, k, last);
    }
  }

  lemma PositiveStep(ctx: Ctx, k: nat, last: nat)
    requires k <= last < N(ctx) && Positive(ProfileFrom(ctx, k + 1, last))
    ensures Positive(ProfileFrom(ctx, k, last))
  {
    ProfileFromStep(ctx, k, last);
    PiecesPositive(ctx, k, last);
    PositiveJoin(TrenchPiece(ctx, k), PassPiece(ctx, k, last), ProfileFrom(ctx, k + 1, last));
  }

  /** The two pieces of position k have the length of the trench and of the
      seam's gap when both are longer than 1e-9. */
  lemma PiecesLength(ctx: Ctx, k: nat, last: nat)
    requires k <= last < N(ctx)
    requires RealOr0(ctx.trenches[k].length) > LinkEps
    requires k < last && k + 1 !in ctx.joinSet && PassAt(ctx, k + 1).Some? ==> Gap(ctx, k + 1) > LinkEps
    ensures TotalLength(TrenchPiece(ctx, k) + PassPiece(ctx, k, last))
            == RealOr0(ctx.trenches[k].length) + (if k < last then Gap(ctx, k + 1) else 0.0)
  {
    var tp, pp := TrenchPiece(ctx, k), PassPiece(ctx, k, last);
    PieceFacts(ctx, k, last);
    TotalLengthAppend(tp, pp);
    assert |tp| == 1 && tp[1..] == [];
    if k < last && Gap(ctx, k + 1) > LinkEps {
      assert |pp| == 1 && pp[1..] == [];
    } else {
      assert pp == [];
    }
  }

  /** When every trench and every passage of the range is longer than 1e-9,
      the profile has the length of the span: one piece per trench and one
      per passage. */
  lemma {:induction false} ProfileCoversSpan(ctx: Ctx, k: nat, last: nat)
    requires k <= last < N(ctx)
    requires forall t :: k <= t <= last ==> RealOr0(ctx.trenches[t].length) > LinkEps
    requires forall s :: k < s <= last && s !in ctx.joinSet && PassAt(ctx, s).Some? ==> Gap(ctx, s) > LinkEps
    ensures TotalLength(ProfileFrom(ctx, k, last)) == SpanFrom(ctx, k, last)
    decreases last - k
  {
    var tp, pp := TrenchPiece(ctx, k), PassPiece(ctx, k, last);
    var rest := ProfileFrom(ctx, k + 1, last);
    assert ProfileFrom(ctx, k, last) == (tp + pp) + rest;
    TotalLengthAppend(tp + pp, rest);
    PiecesLength(ctx, k, last);
    if k < last {
      ProfileCoversSpan(ctx, k + 1, last);
    } else {
      assert rest == [];
    }
  }
}
