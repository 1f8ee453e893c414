/** `_normalize_and_reindex` (main.py:86-209): trenches are renumbered 1..N,
    pipes and surfaces re-pointed at their trench, passages and connections
    checked against the seams 1..N-1, surface `seq` values renumbered, and
    duplicate seams dropped.  Each pass of the source is a function here, and
    `NormalizeElements` runs the passes with the source's loops. */
module Normalize {
  import opened Wrappers
  import opened Text
  import opened Elements
  import opened Units
  import opened Order

  // ---------------------------------------------------------------------------
  // Trench numbering (main.py:91-97)

  /** Number of trenches in s. */
  function TrenchCount(s: seq<Element>): (n: nat)
    ensures n <= |s|
    decreases |s|
  {
    if s == [] then 0 else TrenchCount(s[..|s| - 1]) + (if IsTrench(s[|s| - 1]) then 1 else 0)
  }

  /** `idx_map`: the trench numbered n in list order had old number
      `trench_index` (n when absent) and now has number n; a later trench with
      the same old number overwrites an earlier one. */
  function IdxMap(s: seq<Element>): (m: map<int, nat>)
    ensures forall k :: k in m ==> 1 <= m[k] <= TrenchCount(s)
    decreases |s|
  {
    if s == [] then map[]
    else
      var front := s[..|s| - 1];
      var e := s[|s| - 1];
      if IsTrench(e) then
        var n := TrenchCount(front) + 1;
        IdxMap(front)[IntOr(e.trenchIndex, n) := n]
      else IdxMap(front)
  }

  /** The element at j after the trenches have been given their new number. */
  function Reindexed(s: seq<Element>, j: nat): (e: Element)
    requires j < |s|
    ensures e.kind == s[j].kind
  {
    if IsTrench(s[j]) then s[j].(trenchIndex := Some(TrenchCount(s[..j]) + 1)) else s[j]
  }

  /** The list after the trenches have been given their new numbers. */
  function Reindexing(s: seq<Element>): (r: seq<Element>)
    ensures |r| == |s| && forall j :: 0 <= j < |s| ==> r[j] == Reindexed(s, j)
  {
    seq(|s|, j requires 0 <= j < |s| => Reindexed(s, j))
  }

  // ---------------------------------------------------------------------------
  // The pass over all elements (main.py:103-160)

  /** The ground level of a trench: 0 when missing or empty, else as parsed
      (0 when it does not parse). */
  function GokOf(v: Option<Scalar>): (g: real)
    ensures v.None? || v == Some(Str("")) ==> g == 0.0
    ensures v.Some? && v.value != Str("") && NumToMeters(v.value).Some? ==> g == NumToMeters(v.value).value
  {
    match v
    case None => 0.0
    case Some(x) => if x == Str("") then 0.0 else NumToMeters(x).GetOr(0.0)
  }

  /** The fresh record `{"type": "Verbindung", "between": b}`. */
  function Connection(b: int): (e: Element)
    ensures e.between == Some(b) && e.forTrench.None? && e.trenchIndex.None?
  {
    OfKind("Verbindung").(between := Some(b))
  }

  /** The fresh record is a connection and nothing else. */
  lemma ConnectionKind(b: int)
    ensures IsConnection(Connection(b)) && !IsTrench(Connection(b)) && !IsPassage(Connection(b))
            && !IsPipe(Connection(b)) && !IsSurface(Connection(b))
  {
    ConnectionType(b);
    VerbindungWords();
    VerbindungSurface();
  }

  lemma ConnectionType(b: int)
    ensures TypeOf(Connection(b)) == "verbindung"
  {
    VerbindungLower(Connection(b).kind, "verbindung");
  }

  lemma VerbindungLower(s: string, t: string)
    requires s == "Verbindung" && t == "verbindung"
    ensures LowerStr(s) == t
  {
    assert s[1..] == t[1..];
    CapitalLower(s, t);
  }

  /** A capitalised word of lower-case letters lower-cases to itself with the capital lowered. */
  lemma CapitalLower(s: string, t: string)
    requires |s| == |t| >= 1 && t[0] == Lower(s[0]) && s[1..] == t[1..]
    requires forall i :: 1 <= i < |t| ==> 'a' <= t[i] <= 'z'
    ensures LowerStr(s) == t
  {
    var r := LowerStr(s);
    forall i | 1 <= i < |s| ensures r[i] == t[i] {
      assert s[i] == s[1..][i - 1] == t[1..][i - 1] == t[i];
    }
  }

  lemma VerbindungWords()
    ensures Contains("verbindung", "verbindung") && !Contains("verbindung", "baugraben")
            && !Contains("verbindung", "durchstich") && !Contains("verbindung", "rohr")
  {
    ContainsSurrounded("", "verbindung", "");
    assert "" + "verbindung" + "" == "verbindung";
    NotContains("verbindung", "baugraben", 'a');
    NotContains("verbindung", "durchstich", 'h');
    NotContains("verbindung", "rohr", 'h');
  }

  lemma VerbindungSurface()
    ensures !Contains("verbindung", "oberflächenbefest") && !Contains("verbindung", "oberflaechenbefest")
  {
    NotContains("verbindung", "oberflächenbefest", 'f');
    NotContains("verbindung", "oberflaechenbefest", 'f');
  }

  /** What one element contributes: records to append to `keep`, or a passage
      without `between` for `pass_buffer`. */
  datatype Outcome = Keep(items: seq<Element>) | Buffer(item: Element)

  /** `[int(x) for x in group]` when every member converts, None when one
      raises. */
  function GroupInts(g: seq<Option<Scalar>>): (r: Option<seq<int>>)
    ensures r.Some? <==> forall i :: 0 <= i < |g| ==> IntOf(g[i]).Some?
    ensures r.Some? ==> |r.value| == |g| && forall i :: 0 <= i < |g| ==> r.value[i] == IntOf(g[i]).value
    decreases |g|
  {
    if g == [] then Some([])
    else
      var n := |g| - 1;
      match GroupInts(g[..n])
      case None => None
      case Some(xs) =>
        match IntOf(g[n])
        case None => None
        case Some(x) => Some(xs + [x])
  }

  /** The members of a `group` that name a trench 1..N: the positive `int`
      values, kept in range; the whole group reads as empty when one member
      makes `int` raise, as the `try`/`except` does. */
  function GroupMembers(g: seq<Option<Scalar>>, n: nat): (r: seq<int>)
  {
    match GroupInts(g)
    case None => []
    case Some(xs) => Filter(Filter(xs, x => x > 0), x => 1 <= x <= n)
  }

  /** One member on which `int` raises (a `null`, or text that is no integer)
      empties the whole group. */
  lemma GroupRaisesEmpty(g: seq<Option<Scalar>>, n: nat, i: nat)
    requires i < |g| && IntOf(g[i]).None?
    ensures GroupMembers(g, n) == []
  {
    assert GroupInts(g).None?;
  }

  /** A group of JSON integers reads as those integers, positive and in range. */
  lemma GroupOfInts(xs: seq<int>, n: nat)
    ensures GroupMembers(seq(|xs|, i requires 0 <= i < |xs| => Some(Int(xs[i]))), n)
            == Filter(Filter(xs, x => x > 0), x => 1 <= x <= n)
  {
    var g := seq(|xs|, i requires 0 <= i < |xs| => Some(Int(xs[i])));
    assert forall i :: 0 <= i < |g| ==> IntOf(g[i]) == Some(xs[i]);
    assert GroupInts(g).value == xs;
  }

  /** `int` reads text "2" as 2, the float 3.7 as 3 and `true` as 1. */
  lemma IntOfConverts()
    ensures IntOf(Some(Str("2"))) == Some(2)
    ensures IntOf(Some(Float(3.7))) == Some(3)
    ensures IntOf(Some(Bool(true))) == Some(1)
  {
    ParseIntOfNat(2);
    assert NatToString(2) == "2";
  }

  /** A group whose every member reads as a trench number 1..N names exactly
      those trenches, in order. */
  lemma GroupInRange(g: seq<Option<Scalar>>, xs: seq<int>, n: nat)
    requires |xs| == |g|
    requires forall i :: 0 <= i < |g| ==> IntOf(g[i]) == Some(xs[i]) && 1 <= xs[i] <= n
    ensures GroupMembers(g, n) == xs
  {
    assert GroupInts(g).value == xs;
    FilterAll(xs, x => x > 0);
    FilterAll(xs, x => 1 <= x <= n);
  }

  /** Members are read as `int` reads them, so text, floats and booleans
      name trenches too. */
  lemma GroupConverts()
    ensures GroupMembers([Some(Str("2")), Some(Float(3.7)), Some(Bool(true))], 3) == [2, 3, 1]
  {
    IntOfConverts();
    GroupInRange([Some(Str("2")), Some(Float(3.7)), Some(Bool(true))], [2, 3, 1], 3);
  }

  /** One connection per neighbouring pair of `g` whose numbers differ by one,
      on the seam of the smaller, when that seam is 1..N-1. */
  function PairJoins(g: seq<int>, n: nat): (r: seq<Element>)
    decreases |g|
  {
    if |g| < 2 then []
    else
      var a, b := g[|g| - 2], g[|g| - 1];
      var seam := if a < b then a else b;
      PairJoins(g[..|g| - 1], n)
      + (if (a - b == 1 || b - a == 1) && 1 <= seam < n then [Connection(seam)] else [])
  }

  /** The element as the pass leaves it: a trench gets its ground level
      normalised, any other element loses its `trench_index`. */
  function Cleaned(e: Element): (c: Element)
  {
    if IsTrench(e) then e.(gok := Some(Float(GokOf(e.gok)))) else e.(trenchIndex := None)
  }

  function Classify(e: Element, idx: map<int, nat>, n: nat): (o: Outcome)
  {
    var c := Cleaned(e);
    if IsPipe(e) || IsSurface(e) then
      var ref := IntOr(e.forTrench, 0);
      if ref in idx then Keep([c.(forTrench := Some(idx[ref]))])
      else if ref == 0 && n > 0 then Keep([c.(forTrench := Some(n))])
      else Keep([])
    else if IsPassage(e) then
      match e.between
      case Some(b) => if 1 <= b < n then Keep([c]) else Keep([])
      case None => Buffer(c)
    else if IsConnection(e) then
      match e.between
      case Some(b) => if 1 <= b < n then Keep([Connection(b)]) else Keep([])
      case None =>
        match e.group
        case Some(g) => Keep(PairJoins(GroupMembers(g, n), n))
        case None => Keep([])
    else Keep([c])
  }

  /** `keep` after the pass over the reindexed elements r. */
  function Kept(r: seq<Element>, idx: map<int, nat>, n: nat): (k: seq<Element>)
    decreases |r|
  {
    if r == [] then []
    else
      var o := Classify(r[|r| - 1], idx, n);
      Kept(r[..|r| - 1], idx, n) + (if o.Keep? then o.items else [])
  }

  /** `pass_buffer` after the pass over the reindexed elements r. */
  function Buffered(r: seq<Element>, idx: map<int, nat>, n: nat): (b: seq<Element>)
    decreases |r|
  {
    if r == [] then []
    else
      var o := Classify(r[|r| - 1], idx, n);
      Buffered(r[..|r| - 1], idx, n) + (if o.Buffer? then [o.item] else [])
  }

  // ---------------------------------------------------------------------------
  // Numbering the buffered passages (main.py:162-167)

  /** The k-th buffered passage (from 1) takes seam k while k <= max(0, N-1);
      the rest are dropped. */
  function PassNumbered(buf: seq<Element>, n: nat): (r: seq<Element>)
    ensures |r| == if |buf| < n then |buf| else if n >= 1 then n - 1 else 0
  {
    var m := if |buf| < n then |buf| else if n >= 1 then n - 1 else 0;
    seq(m, k requires 0 <= k < m => buf[k].(between := Some(k + 1)))
  }

  // ---------------------------------------------------------------------------
  // Surface renumbering (main.py:169-178)

  /** The bucket of a surface: `int(for_trench)`, 0 when absent. */
  function BucketOf(e: Element): int { IntOr(e.forTrench, 0) }

  /** The sort key of a surface: `int(seq)`, 10**9 when absent. */
  function SeqKey(e: Element): int { IntOr(e.seqNo, 1000000000) }

  /** The positions of the surfaces of bucket b in s, in list order. */
  function BucketPositions(s: seq<Element>, b: int): (r: seq<nat>)
    ensures forall a :: 0 <= a < |r| ==> r[a] < |s| && IsSurface(s[r[a]]) && BucketOf(s[r[a]]) == b
    ensures forall a, c :: 0 <= a < c < |r| ==> r[a] < r[c]
    ensures forall i :: 0 <= i < |s| && IsSurface(s[i]) && BucketOf(s[i]) == b ==> i in r
  {
    Positions(s, e => IsSurface(e) && BucketOf(e) == b)
  }

  /** The sort key of the element at position i. */
  function KeyAt(s: seq<Element>, i: nat): seq<int>
  {
    if i < |s| then [SeqKey(s[i])] else []
  }

  /** The sort key as a function of the position. */
  function KeyFn(s: seq<Element>): nat -> seq<int>
  {
    (i: nat) => KeyAt(s, i)
  }

  /** The positions of bucket b after the stable sort by `seq`. */
  function SortedBucket(s: seq<Element>, b: int): (r: seq<nat>)
  {
    SortBy(BucketPositions(s, b), KeyFn(s))
  }

  /** The sorted bucket holds each position of the bucket exactly once. */
  lemma SortedBucketFacts(s: seq<Element>, b: int)
    ensures var o := SortedBucket(s, b);
            (forall a :: 0 <= a < |o| ==> o[a] < |s| && IsSurface(s[o[a]]) && BucketOf(s[o[a]]) == b)
            && (forall a, c :: 0 <= a < c < |o| ==> o[a] != o[c])
            && (forall j :: 0 <= j < |s| && IsSurface(s[j]) && BucketOf(s[j]) == b ==> j in o)
  {
    var p := BucketPositions(s, b);
    var o := SortedBucket(s, b);
    forall a | 0 <= a < |o| ensures o[a] < |s| && IsSurface(s[o[a]]) && BucketOf(s[o[a]]) == b {
      assert o[a] in multiset(p);
    }
    SortByDistinct(p, KeyFn(s));
    forall j | 0 <= j < |s| && IsSurface(s[j]) && BucketOf(s[j]) == b ensures j in o {
      assert j in multiset(p);
    }
  }

  /** Index of x in xs. */
  function IndexOf(xs: seq<nat>, x: nat): (k: nat)
    requires x in xs
    ensures k < |xs| && xs[k] == x
    ensures forall a :: 0 <= a < k ==> xs[a] != x
  {
    if xs[0] == x then 0 else 1 + IndexOf(xs[1..], x)
  }

  /** The element at i after renumbering: a surface takes one more than its
      place in its sorted bucket. */
  function Renumbered(s: seq<Element>, i: nat): (e: Element)
    requires i < |s|
  {
    if IsSurface(s[i]) then
      var order := SortedBucket(s, BucketOf(s[i]));
      SortedBucketHas(s, i);
      s[i].(seqNo := Some(IndexOf(order, i) + 1))
    else s[i]
  }

  lemma SortedBucketHas(s: seq<Element>, i: nat)
    requires i < |s| && IsSurface(s[i])
    ensures i in SortedBucket(s, BucketOf(s[i]))
  {
    var p := BucketPositions(s, BucketOf(s[i]));
    assert i in multiset(p);
  }

  function RenumberAll(s: seq<Element>): (r: seq<Element>)
    ensures |r| == |s|
    ensures forall i :: 0 <= i < |s| ==> r[i] == Renumbered(s, i)
  {
    seq(|s|, i requires 0 <= i < |s| => Renumbered(s, i))
  }

  // ---------------------------------------------------------------------------
  // Dropping duplicate seams (main.py:180-207)

  /** `int(e.get("between", 0) or 0)`. */
  function SeamOf(e: Element): int { IntOr(e.between, 0) }

  /** The deletion pass over s from the back: an element of the kind is kept
      when its seam is 1..N-1, not blocked and not taken by a later kept one. */
  function Dedup(s: seq<Element>, kind: Element -> bool, n: nat, blocked: set<int>, seen: set<int>): (r: seq<Element>)
    decreases |s|
  {
    if s == [] then []
    else
      var e := s[|s| - 1];
      var front := s[..|s| - 1];
      if !kind(e) then Dedup(front, kind, n, blocked, seen) + [e]
      else
        var b := SeamOf(e);
        if !(1 <= b < n) || b in blocked || b in seen then Dedup(front, kind, n, blocked, seen)
        else Dedup(front, kind, n, blocked, seen + {b}) + [e]
  }

  /** `pass_seams`: the seams of the passages in s. */
  function PassSeams(s: seq<Element>): (r: set<int>)
    ensures forall e :: e in s && IsPassage(e) ==> SeamOf(e) in r
  {
    set e | e in s && IsPassage(e) :: SeamOf(e)
  }

  // ---------------------------------------------------------------------------
  // The whole normaliser

  /** The list `keep` before surfaces are renumbered. */
  function Collected(elems: seq<Element>): (k: seq<Element>)
  {
    var r := Reindexing(elems);
    var idx := IdxMap(elems);
    var n := TrenchCount(elems);
    Kept(r, idx, n) + PassNumbered(Buffered(r, idx, n), n)
  }

  /** `session["elements"]` after `_normalize_and_reindex`. */
  function Normalized(elems: seq<Element>): (out: seq<Element>)
  {
    var n := TrenchCount(elems);
    var k2 := RenumberAll(Collected(elems));
    var k3 := Dedup(k2, IsPassage, n, {}, {});
    Dedup(k3, IsConnection, n, PassSeams(k3), {})
  }

  // ---------------------------------------------------------------------------
  // The passes as the source runs them

  /** `_normalize_and_reindex`: the passes in the source's order. */
  method NormalizeElements(elems0: seq<Element>) returns (keep: seq<Element>)
    ensures keep == Normalized(elems0)
  {
    var elems, idx, n := ReindexTrenches(elems0);
    assert elems == Reindexing(elems0);
    var buf;
    keep, buf := CollectElements(elems, idx, n);
    keep := AppendBuffered(keep, buf, n);
    keep := RenumberSurfaces(keep);
    keep := DropDuplicateSeams(keep, IsPassage, n, {});
    keep := DropDuplicateSeams(keep, IsConnection, n, PassSeams(keep));
  }

  /** Numbers the trenches 1..N in list order and builds `idx_map`. */
  method ReindexTrenches(elems0: seq<Element>) returns (elems: seq<Element>, idx: map<int, nat>, n: nat)
    ensures n == TrenchCount(elems0) && idx == IdxMap(elems0)
    ensures |elems| == |elems0| && forall j :: 0 <= j < |elems0| ==> elems[j] == Reindexed(elems0, j)
  {
    elems, idx, n := elems0, map[], 0;
    var i := 0;
    while i < |elems0|
      invariant 0 <= i <= |elems0| && |elems| == |elems0|
      invariant n == TrenchCount(elems0[..i]) && idx == IdxMap(elems0[..i])
      invariant forall j :: 0 <= j < |elems0| ==> elems[j] == if j < i then Reindexed(elems0, j) else elems0[j]
    {
      ReindexStep(elems0, i);
      if IsTrench(elems0[i]) {
        n := n + 1;
        idx := idx[IntOr(elems0[i].trenchIndex, n) := n];
        elems := elems[i := elems[i].(trenchIndex := Some(n))];
      }
      i := i + 1;
    }
    assert elems0[..i] == elems0;
  }

  /** The counters and the record at i after one more step of the loop. */
  lemma ReindexStep(s: seq<Element>, i: nat)
    requires i < |s|
    ensures var e, c := s[i], TrenchCount(s[..i]);
            && TrenchCount(s[..i + 1]) == c + (if IsTrench(e) then 1 else 0)
            && IdxMap(s[..i + 1]) == (if IsTrench(e) then IdxMap(s[..i])[IntOr(e.trenchIndex, c + 1) := c + 1]
                                      else IdxMap(s[..i]))
            && Reindexed(s, i) == (if IsTrench(e) then e.(trenchIndex := Some(c + 1)) else e)
  {
    assert s[..i + 1][..i] == s[..i];
  }

  /** Appends the connections of the neighbouring pairs of g. */
  method AppendPairJoins(keep0: seq<Element>, g: seq<int>, n: nat) returns (keep: seq<Element>)
    ensures keep == keep0 + PairJoins(g, n)
  {
    keep := keep0;
    if |g| < 2 {
      return;
    }
    var i := 1;
    while i < |g|
      invariant 1 <= i <= |g|
      invariant keep == keep0 + PairJoins(g[..i], n)
    {
      var a, b := g[i - 1], g[i];
      var h := g[..i + 1];
      assert h[..i] == g[..i] && h[i - 1] == a && h[i] == b && |h| == i + 1;
      if a - b == 1 || b - a == 1 {
        var seam := if a < b then a else b;
        if 1 <= seam < n {
          keep := keep + [Connection(seam)];
        }
      }
      i := i + 1;
    }
    assert g[..i] == g;
  }

  /** The pass over the reindexed elements, filling `keep` and `pass_buffer`. */
  method CollectElements(r: seq<Element>, idx: map<int, nat>, n: nat) returns (keep: seq<Element>, buf: seq<Element>)
    ensures keep == Kept(r, idx, n) && buf == Buffered(r, idx, n)
  {
    keep, buf := [], [];
    var i := 0;
    while i < |r|
      invariant 0 <= i <= |r|
      invariant keep == Kept(r[..i], idx, n) && buf == Buffered(r[..i], idx, n)
    {
      CollectStep(r, idx, n, i);
      var e := r[i];
      ghost var o, keep0, buf0 := Classify(e, idx, n), keep, buf;
      var c := if IsTrench(e) then e.(gok := Some(Float(GokOf(e.gok)))) else e.(trenchIndex := None);
      if IsPipe(e) || IsSurface(e) {
        var ref := IntOr(e.forTrench, 0);
        if ref in idx {
          keep := keep + [c.(forTrench := Some(idx[ref]))];
        } else if ref == 0 && n > 0 {
          keep := keep + [c.(forTrench := Some(n))];
        }
      } else if IsPassage(e) {
        if e.between.Some? {
          var b := e.between.value;
          if 1 <= b < n {
            keep := keep + [c];
          }
        } else {
          buf := buf + [c];
        }
      } else if IsConnection(e) {
        if e.between.Some? {
          var b := e.between.value;
          if 1 <= b < n {
            keep := keep + [Connection(b)];
          }
        } else if e.group.Some? {
          keep := AppendPairJoins(keep, GroupMembers(e.group.value, n), n);
        }
      } else {
        keep := keep + [c];
      }
      assert keep == keep0 + (if o.Keep? then o.items else [])
             && buf == buf0 + (if o.Buffer? then [o.item] else []);
      i := i + 1;
    }
    assert r[..i] == r;
  }

  /** `keep` and `pass_buffer` after one more element. */
  lemma CollectStep(r: seq<Element>, idx: map<int, nat>, n: nat, i: nat)
    requires i < |r|
    ensures var o := Classify(r[i], idx, n);
            && Kept(r[..i + 1], idx, n) == Kept(r[..i], idx, n) + (if o.Keep? then o.items else [])
            && Buffered(r[..i + 1], idx, n) == Buffered(r[..i], idx, n) + (if o.Buffer? then [o.item] else [])
  {
    assert r[..i + 1][..i] == r[..i];
  }

  /** Gives the buffered passages the seams 1, 2, ... and appends them. */
  method AppendBuffered(keep0: seq<Element>, buf: seq<Element>, n: nat) returns (keep: seq<Element>)
    ensures keep == keep0 + PassNumbered(buf, n)
  {
    keep := keep0;
    var limit := if n >= 1 then n - 1 else 0;
    for k := 1 to |buf| + 1
      invariant keep == keep0 + PassNumbered(buf[..k - 1], n)
    {
      if k <= limit {
        keep := keep + [buf[k - 1].(between := Some(k))];
      }
      assert PassNumbered(buf[..k], n) == PassNumbered(buf[..k - 1], n)
                                         + (if k <= limit then [buf[k - 1].(between := Some(k))] else []);
    }
    assert buf[..|buf|] == buf;
  }

  /** Deletes, from the back, each element of the kind whose seam is out of
      range, blocked or already taken. */
  method DropDuplicateSeams(keep0: seq<Element>, kind: Element -> bool, n: nat, blocked: set<int>)
    returns (keep: seq<Element>)
    ensures keep == Dedup(keep0, kind, n, blocked, {})
  {
    var idxs := Positions(keep0, kind);
    keep := keep0;
    var seen: set<int> := {};
    var p := |keep0|;
    var j := |idxs|;
    ghost var tail: seq<Element> := [];
    assert keep0[..p] == keep0;
    assert DedupLoop(keep0, kind, n, blocked, p, keep, tail, seen);
    while j > 0
      invariant 0 <= j <= |idxs|
      invariant j < |idxs| ==> p == idxs[j]
      invariant j == |idxs| ==> p == |keep0|
      invariant forall a :: 0 <= a < j ==> idxs[a] < p
      invariant DedupLoop(keep0, kind, n, blocked, p, keep, tail, seen)
    {
      j := j - 1;
      var i := idxs[j];
      assert forall q :: i + 1 <= q < p ==> !kind(keep0[q]) by {
        NoKindBetween(keep0, kind, idxs, j, p);
      }
      keep, seen, tail := DropOrKeep(keep0, kind, n, blocked, seen, i, p, keep, tail);
      p := i;
    }
    DedupDone(keep0, kind, n, blocked, idxs, p, keep, tail, seen);
  }

  /** Once the loop has passed the first element of the kind, what is left in
      front is untouched, so the list is the deduplicated one. */
  lemma DedupDone(s: seq<Element>, kind: Element -> bool, n: nat, blocked: set<int>, idxs: seq<nat>,
                  p: nat, keep: seq<Element>, tail: seq<Element>, seen: set<int>)
    requires idxs == Positions(s, kind)
    requires |idxs| > 0 ==> p == idxs[0]
    requires |idxs| == 0 ==> p == |s|
    requires DedupLoop(s, kind, n, blocked, p, keep, tail, seen)
    ensures keep == Dedup(s, kind, n, blocked, {})
  {
    NoKindBetween(s, kind, idxs, -1, p);
    DedupSkip(s, kind, n, blocked, seen, 0, p);
    assert s[..0] == [] && s[0..p] == s[..p];
  }

  /** The state of the deletion loop at position p: the list is the original
      up to p followed by the processed tail, and deduplicating the original
      is deduplicating its first p elements, given the seams taken, followed
      by that tail. */
  ghost predicate DedupLoop(s: seq<Element>, kind: Element -> bool, n: nat, blocked: set<int>,
                            p: nat, keep: seq<Element>, tail: seq<Element>, seen: set<int>)
  {
    p <= |s| && keep == s[..p] + tail
    && Dedup(s, kind, n, blocked, {}) == Dedup(s[..p], kind, n, blocked, seen) + tail
  }

  /** One pass of the deletion loop: the element of the kind at position i
      is deleted when its seam is out of range, blocked or already taken,
      and otherwise kept and its seam taken. */
  method DropOrKeep(keep0: seq<Element>, kind: Element -> bool, n: nat, blocked: set<int>, seen: set<int>,
                    i: nat, p: nat, keep: seq<Element>, ghost tail: seq<Element>)
    returns (keep': seq<Element>, seen': set<int>, ghost tail': seq<Element>)
    requires DedupLoop(keep0, kind, n, blocked, p, keep, tail, seen)
    requires i < p && kind(keep0[i])
    requires forall q :: i + 1 <= q < p ==> !kind(keep0[q])
    ensures DedupLoop(keep0, kind, n, blocked, i, keep', tail', seen')
  {
    assert keep[i] == keep0[i];
    var b := SeamOf(keep[i]);
    if !(1 <= b < n) || b in blocked || b in seen {
      DropStepped(keep0, kind, n, blocked, seen, i, p, keep, tail);
      keep', seen', tail' := keep[..i] + keep[i + 1..], seen, keep0[i + 1..p] + tail;
    } else {
      KeepStepped(keep0, kind, n, blocked, seen, i, p, keep, tail);
      keep', seen', tail' := keep, seen + {b}, keep0[i..p] + tail;
    }
  }

  /** An element of the kind whose seam is out of range, blocked or taken is
      dropped. */
  lemma DropStepped(s: seq<Element>, kind: Element -> bool, n: nat, blocked: set<int>, seen: set<int>,
                    i: nat, p: nat, keep: seq<Element>, tail: seq<Element>)
    requires DedupLoop(s, kind, n, blocked, p, keep, tail, seen)
    requires i < p && kind(s[i])
    requires forall q :: i + 1 <= q < p ==> !kind(s[q])
    requires var b := SeamOf(s[i]); !(1 <= b < n) || b in blocked || b in seen
    ensures i < |keep| && DedupLoop(s, kind, n, blocked, i, keep[..i] + keep[i + 1..], s[i + 1..p] + tail, seen)
  {
    DedupBack(s, kind, n, blocked, seen, i, p, tail);
    SplitAt(s, i, p, tail);
  }

  /** An element of the kind with a fresh seam in range is kept and its seam
      taken. */
  lemma KeepStepped(s: seq<Element>, kind: Element -> bool, n: nat, blocked: set<int>, seen: set<int>,
                    i: nat, p: nat, keep: seq<Element>, tail: seq<Element>)
    requires DedupLoop(s, kind, n, blocked, p, keep, tail, seen)
    requires i < p && kind(s[i])
    requires forall q :: i + 1 <= q < p ==> !kind(s[q])
    requires var b := SeamOf(s[i]); 1 <= b < n && b !in blocked && b !in seen
    ensures DedupLoop(s, kind, n, blocked, i, keep, s[i..p] + tail, seen + {SeamOf(s[i])})
  {
    DedupBack(s, kind, n, blocked, seen, i, p, tail);
    SplitAt(s, i, p, tail);
  }

  /** The deletion pass over s[..p] followed by tail, split at the last element
      of the kind before p. */
  lemma DedupBack(s: seq<Element>, kind: Element -> bool, n: nat, blocked: set<int>, seen: set<int>,
                  i: nat, p: nat, tail: seq<Element>)
    requires i < p <= |s| && kind(s[i])
    requires forall q :: i + 1 <= q < p ==> !kind(s[q])
    ensures var b := SeamOf(s[i]);
            Dedup(s[..p], kind, n, blocked, seen) + tail
            == if !(1 <= b < n) || b in blocked || b in seen
               then Dedup(s[..i], kind, n, blocked, seen) + (s[i + 1..p] + tail)
               else Dedup(s[..i], kind, n, blocked, seen + {SeamOf(s[i])}) + (s[i..p] + tail)
  {
    var b := SeamOf(s[i]);
    var rest := s[i + 1..p] + tail;
    var d := Dedup(s[..i + 1], kind, n, blocked, seen);
    assert Dedup(s[..p], kind, n, blocked, seen) + tail == d + rest by {
      DedupSkip(s, kind, n, blocked, seen, i + 1, p);
    }
    assert d == if !(1 <= b < n) || b in blocked || b in seen then Dedup(s[..i], kind, n, blocked, seen)
                else Dedup(s[..i], kind, n, blocked, seen + {b}) + [s[i]] by {
      DedupStep(s, kind, n, blocked, seen, i);
    }
    assert s[i..p] + tail == [s[i]] + rest;
  }

  /** One element of the kind, seen from the back. */
  lemma DedupStep(s: seq<Element>, kind: Element -> bool, n: nat, blocked: set<int>, seen: set<int>, i: nat)
    requires i < |s| && kind(s[i])
    ensures var b := SeamOf(s[i]);
            Dedup(s[..i + 1], kind, n, blocked, seen)
            == if !(1 <= b < n) || b in blocked || b in seen then Dedup(s[..i], kind, n, blocked, seen)
               else Dedup(s[..i], kind, n, blocked, seen + {b}) + [s[i]]
  {
    assert s[..i + 1][..i] == s[..i];
  }

  /** The list seen as the part before i, the element at i, and the rest. */
  lemma SplitAt(s: seq<Element>, i: nat, p: nat, tail: seq<Element>)
    requires i < p <= |s|
    ensures var k := s[..p] + tail;
            k[i] == s[i] && k[..i] + k[i + 1..] == s[..i] + (s[i + 1..p] + tail)
            && k == s[..i] + (s[i..p] + tail)
  {
    var k := s[..p] + tail;
    assert k[..i] == s[..i];
    assert k[i + 1..] == s[i + 1..p] + tail;
    assert s[..p] == s[..i] + s[i..p];
  }

  /** No element of the kind lies strictly between two neighbouring positions. */
  lemma NoKindBetween(s: seq<Element>, kind: Element -> bool, idxs: seq<nat>, j: int, p: nat)
    requires idxs == Positions(s, kind) && -1 <= j < |idxs| && p <= |s|
    requires j + 1 < |idxs| ==> p == idxs[j + 1]
    requires j + 1 == |idxs| ==> p == |s|
    ensures forall q :: (if j >= 0 then idxs[j] + 1 else 0) <= q < p ==> !kind(s[q])
  {
    forall q | (if j >= 0 then idxs[j] + 1 else 0) <= q < p ensures !kind(s[q]) {
      NotAPosition(idxs, j, p, q);
    }
  }

  /** A position strictly between two neighbours of an ascending list is not in it. */
  lemma NotAPosition(idxs: seq<nat>, j: int, p: nat, q: nat)
    requires -1 <= j < |idxs| && forall a, b :: 0 <= a < b < |idxs| ==> idxs[a] < idxs[b]
    requires j + 1 < |idxs| ==> p == idxs[j + 1]
    requires j >= 0 ==> idxs[j] < q
    requires q < p
    ensures q !in idxs
  {
    forall a | 0 <= a < |idxs| ensures idxs[a] != q {
      if a < j {
        assert idxs[a] < idxs[j];
      } else if j + 1 < a {
        assert idxs[j + 1] < idxs[a];
      }
    }
  }

  /** Elements not of the kind pass through the deletion pass unchanged. */
  lemma {:induction false} DedupSkip(s: seq<Element>, kind: Element -> bool, n: nat, blocked: set<int>,
                                     seen: set<int>, q: nat, p: nat)
    requires q <= p <= |s|
    requires forall k :: q <= k < p ==> !kind(s[k])
    ensures Dedup(s[..p], kind, n, blocked, seen) == Dedup(s[..q], kind, n, blocked, seen) + s[q..p]
    decreases p - q
  {
    if q < p {
      assert s[..p][..p - 1] == s[..p - 1];
      DedupSkip(s, kind, n, blocked, seen, q, p - 1);
      assert s[q..p] == s[q..p - 1] + [s[p - 1]];
    }
  }

  /** Collects the surfaces into buckets by trench, sorts each bucket stably by
      `seq` and numbers it 1, 2, ...; nothing moves in the list. */
  method RenumberSurfaces(s0: seq<Element>) returns (s: seq<Element>)
    ensures s == RenumberAll(s0)
  {
    var buckets, keys := CollectBuckets(s0);
    s := s0;
    ghost var done: set<int> := {};
    for t := 0 to |keys|
      invariant forall u :: u in done <==> u in keys[..t]
      invariant PartlyRenumbered(s, s0, done)
    {
      var b := keys[t];
      assert b !in done by {
        assert b !in keys[..t];
      }
      assert b in buckets;
      s := NumberBucket(s, s0, done, b, buckets[b]);
      assert keys[..t + 1] == keys[..t] + [b];
      done := done + {b};
    }
    assert forall j :: 0 <= j < |s0| && IsSurface(s0[j]) ==> BucketOf(s0[j]) in done by {
      assert keys[..|keys|] == keys;
    }
    RenumberedAllBuckets(s, s0, done);
  }

  /** Once every bucket is done, the list is renumbered throughout. */
  lemma RenumberedAllBuckets(s: seq<Element>, s0: seq<Element>, done: set<int>)
    requires PartlyRenumbered(s, s0, done)
    requires forall j :: 0 <= j < |s0| && IsSurface(s0[j]) ==> BucketOf(s0[j]) in done
    ensures s == RenumberAll(s0)
  {
    forall j | 0 <= j < |s0| ensures s[j] == RenumberAll(s0)[j] {
    }
  }

  /** The surfaces whose bucket is done carry their new number; everything else
      is as it was. */
  predicate PartlyRenumbered(s: seq<Element>, s0: seq<Element>, done: set<int>) {
    |s| == |s0|
    && forall j :: 0 <= j < |s0| ==>
         s[j] == if IsSurface(s0[j]) && BucketOf(s0[j]) in done then Renumbered(s0, j) else s0[j]
  }

  /** `lst.sort(key=...)` and `s["seq"] = k` for one bucket. */
  method NumberBucket(s1: seq<Element>, s0: seq<Element>, ghost done: set<int>, b: int, lst: seq<nat>)
    returns (s: seq<Element>)
    requires PartlyRenumbered(s1, s0, done) && b !in done && lst == BucketPositions(s0, b)
    ensures PartlyRenumbered(s, s0, done + {b})
  {
    var order := SortBy(lst, KeyFn(s0));
    assert order == SortedBucket(s0, b);
    s := s1;
    assert order[..0] == [];
    for k := 0 to |order|
      invariant NumberedUpTo(s, s0, done, order, k)
    {
      NumberStep(s, s0, done, b, order, k);
      s := s[order[k] := s[order[k]].(seqNo := Some(k + 1))];
    }
    NumberedAll(s, s0, done, b, order);
  }

  /** Inside one bucket: its first k sorted positions are numbered. */
  predicate NumberedUpTo(s: seq<Element>, s0: seq<Element>, done: set<int>, order: seq<nat>, k: nat)
    requires k <= |order|
  {
    |s| == |s0|
    && forall j :: 0 <= j < |s0| ==>
         s[j] == if (IsSurface(s0[j]) && BucketOf(s0[j]) in done) || j in order[..k]
                 then Renumbered(s0, j) else s0[j]
  }

  lemma NumberStep(s: seq<Element>, s0: seq<Element>, done: set<int>, b: int, order: seq<nat>, k: nat)
    requires b !in done && order == SortedBucket(s0, b) && k < |order|
    requires NumberedUpTo(s, s0, done, order, k)
    ensures order[k] < |s| && NumberedUpTo(s[order[k] := s[order[k]].(seqNo := Some(k + 1))], s0, done, order, k + 1)
  {
    SortedBucketAt(s0, b, k);
    var j := order[k];
    var t := s[j := s[j].(seqNo := Some(k + 1))];
    RenumberedAt(s0, b, k);
    assert s[j] == s0[j];
    forall i | 0 <= i < |s0|
      ensures t[i] == if (IsSurface(s0[i]) && BucketOf(s0[i]) in done) || i in order[..k + 1]
                      then Renumbered(s0, i) else s0[i]
    {
      NumberStepAt(s, s0, done, order, k, i);
    }
  }

  /** One position after numbering order[k]: only that position changes. */
  lemma NumberStepAt(s: seq<Element>, s0: seq<Element>, done: set<int>, order: seq<nat>, k: nat, i: nat)
    requires |s| == |s0| && i < |s0| && k < |order| && order[k] < |s0| && order[k] !in order[..k]
    requires s[i] == if (IsSurface(s0[i]) && BucketOf(s0[i]) in done) || i in order[..k]
                     then Renumbered(s0, i) else s0[i]
    requires s[order[k]] == s0[order[k]]
    requires Renumbered(s0, order[k]) == s0[order[k]].(seqNo := Some(k + 1))
    ensures var t := s[order[k] := s[order[k]].(seqNo := Some(k + 1))];
            t[i] == if (IsSurface(s0[i]) && BucketOf(s0[i]) in done) || i in order[..k + 1]
                    then Renumbered(s0, i) else s0[i]
  {
    assert order[..k + 1] == order[..k] + [order[k]];
  }

  /** The k-th sorted position of a bucket is a surface of that bucket seen
      for the first time. */
  lemma SortedBucketAt(s0: seq<Element>, b: int, k: nat)
    requires k < |SortedBucket(s0, b)|
    ensures var order := SortedBucket(s0, b);
            order[k] < |s0| && IsSurface(s0[order[k]]) && BucketOf(s0[order[k]]) == b
            && order[k] !in order[..k]
  {
    SortedBucketFacts(s0, b);
    var order := SortedBucket(s0, b);
    forall a | 0 <= a < k ensures order[..k][a] != order[k] { }
  }

  /** The k-th sorted position of a bucket is numbered k + 1. */
  lemma RenumberedAt(s0: seq<Element>, b: int, k: nat)
    requires k < |SortedBucket(s0, b)|
    ensures var j := SortedBucket(s0, b)[k];
            j < |s0| && Renumbered(s0, j) == s0[j].(seqNo := Some(k + 1))
  {
    SortedBucketFacts(s0, b);
    var order := SortedBucket(s0, b);
    assert IndexOf(order, order[k]) == k;
  }

  lemma NumberedAll(s: seq<Element>, s0: seq<Element>, done: set<int>, b: int, order: seq<nat>)
    requires b !in done && order == SortedBucket(s0, b)
    requires NumberedUpTo(s, s0, done, order, |order|)
    ensures PartlyRenumbered(s, s0, done + {b})
  {
    SortedBucketFacts(s0, b);
    assert order[..|order|] == order;
  }

  /** `buckets[int(s.get("for_trench", 0))].append(s)` over the surfaces; keys
      lists the buckets in the order the dictionary first saw them. */
  method CollectBuckets(s0: seq<Element>) returns (buckets: map<int, seq<nat>>, keys: seq<int>)
    ensures forall b :: b in buckets ==> buckets[b] == BucketPositions(s0, b)
    ensures forall b :: b in keys <==> b in buckets
    ensures forall a, c :: 0 <= a < c < |keys| ==> keys[a] != keys[c]
    ensures forall j :: 0 <= j < |s0| && IsSurface(s0[j]) ==> BucketOf(s0[j]) in buckets
  {
    buckets, keys := map[], [];
    for i := 0 to |s0|
      invariant BucketsUpTo(s0, i, buckets)
      invariant forall b :: b in keys <==> b in buckets
      invariant forall a, c :: 0 <= a < c < |keys| ==> keys[a] != keys[c]
    {
      BucketsAdvance(s0, i, buckets);
      if IsSurface(s0[i]) {
        var b := BucketOf(s0[i]);
        if b in buckets {
          buckets := buckets[b := buckets[b] + [i]];
        } else {
          buckets := buckets[b := [i]];
          keys := keys + [b];
        }
      }
    }
    assert s0[..|s0|] == s0;
    forall j | 0 <= j < |s0| && IsSurface(s0[j]) ensures BucketOf(s0[j]) in buckets {
      assert j in BucketPositions(s0, BucketOf(s0[j]));
    }
  }

  /** The buckets hold exactly the surfaces of the first i elements. */
  ghost predicate BucketsUpTo(s0: seq<Element>, i: nat, buckets: map<int, seq<nat>>)
    requires i <= |s0|
  {
    forall b :: (b in buckets ==> buckets[b] == BucketPositions(s0[..i], b))
                && (b !in buckets ==> BucketPositions(s0[..i], b) == [])
  }

  lemma BucketsAdvance(s0: seq<Element>, i: nat, buckets: map<int, seq<nat>>)
    requires i < |s0| && BucketsUpTo(s0, i, buckets)
    ensures var b := BucketOf(s0[i]);
            BucketsUpTo(s0, i + 1, if !IsSurface(s0[i]) then buckets
                                   else if b in buckets then buckets[b := buckets[b] + [i]]
                                   else buckets[b := [i]])
  {
    forall b ensures BucketPositions(s0[..i + 1], b)
                     == BucketPositions(s0[..i], b) + (if IsSurface(s0[i]) && BucketOf(s0[i]) == b then [i] else []) {
      BucketStep(s0, i, b);
    }
  }

  lemma BucketStep(s: seq<Element>, i: nat, b: int)
    requires i < |s|
    ensures BucketPositions(s[..i + 1], b)
            == BucketPositions(s[..i], b) + (if IsSurface(s[i]) && BucketOf(s[i]) == b then [i] else [])
  {
    assert s[..i + 1][..i] == s[..i];
  }
}
