/** What `_normalize_and_reindex` (main.py:86-209) guarantees about the list it
    leaves: the shape of every element, one passage and one connection per
    seam, surfaces numbered by their old `seq`, and trenches numbered in list
    order. */
module NormalizeFacts {
  import opened Wrappers
  import opened Elements
  import opened Order
  import opened Normalize

  // ---------------------------------------------------------------------------
  // The deletion passes (main.py:180-207)

  /** Everything the deletion pass keeps was in its input. */
  lemma {:induction false} DedupSubset(s: seq<Element>, kind: Element -> bool, n: nat, blocked: set<int>, seen: set<int>)
    ensures forall x :: x in Dedup(s, kind, n, blocked, seen) ==> x in s
    decreases |s|
  {
    if s != [] {
      var front := s[..|s| - 1];
      assert s == front + [s[|s| - 1]];
      DedupSubset(front, kind, n, blocked, seen);
      DedupSubset(front, kind, n, blocked, seen + {SeamOf(s[|s| - 1])});
    }
  }

  /** A kept element of the kind sits on a seam 1..N-1 that is neither blocked
      nor already taken further back. */
  lemma {:induction false} DedupValid(s: seq<Element>, kind: Element -> bool, n: nat, blocked: set<int>, seen: set<int>)
    ensures forall x :: x in Dedup(s, kind, n, blocked, seen) && kind(x) ==>
              1 <= SeamOf(x) < n && SeamOf(x) !in blocked && SeamOf(x) !in seen
    decreases |s|
  {
    if s != [] {
      var front := s[..|s| - 1];
      DedupValid(front, kind, n, blocked, seen);
      DedupValid(front, kind, n, blocked, seen + {SeamOf(s[|s| - 1])});
    }
  }

  /** No two elements of the kind in s share a seam. */
  predicate SeamsDistinct(s: seq<Element>, kind: Element -> bool) {
    forall a, c :: 0 <= a < c < |s| && kind(s[a]) && kind(s[c]) ==> SeamOf(s[a]) != SeamOf(s[c])
  }

  /** No two kept elements of the kind share a seam. */
  lemma {:induction false} DedupUnique(s: seq<Element>, kind: Element -> bool, n: nat, blocked: set<int>, seen: set<int>)
    ensures SeamsDistinct(Dedup(s, kind, n, blocked, seen), kind)
    decreases |s|
  {
    if s != [] {
      var e := s[|s| - 1];
      var front := s[..|s| - 1];
      var b := SeamOf(e);
      var r := Dedup(s, kind, n, blocked, seen);
      if kind(e) && 1 <= b < n && b !in blocked && b !in seen {
        var r' := Dedup(front, kind, n, blocked, seen + {b});
        DedupUnique(front, kind, n, blocked, seen + {b});
        DedupValid(front, kind, n, blocked, seen + {b});
        assert r == r' + [e];
        forall a, c | 0 <= a < c < |r| && kind(r[a]) && kind(r[c]) ensures SeamOf(r[a]) != SeamOf(r[c]) {
          assert r[a] == r'[a] && r'[a] in r';
          if c < |r'| {
            assert r[c] == r'[c];
          }
        }
      } else {
        DedupUnique(front, kind, n, blocked, seen);
        var r' := Dedup(front, kind, n, blocked, seen);
        assert r == r' || (r == r' + [e] && !kind(e));
        forall a, c | 0 <= a < c < |r| && kind(r[a]) && kind(r[c]) ensures SeamOf(r[a]) != SeamOf(r[c]) {
          assert c < |r'| && r[a] == r'[a] && r[c] == r'[c];
        }
      }
    }
  }

  /** The last element of the kind on a seam that is valid, not blocked and not
      taken is kept: of duplicates, the latest survives. */
  lemma {:induction false} DedupKeepsLast(s: seq<Element>, kind: Element -> bool, n: nat, blocked: set<int>,
                                          seen: set<int>, i: nat)
    requires i < |s| && kind(s[i]) && 1 <= SeamOf(s[i]) < n
    requires SeamOf(s[i]) !in blocked && SeamOf(s[i]) !in seen
    requires forall j :: i < j < |s| && kind(s[j]) ==> SeamOf(s[j]) != SeamOf(s[i])
    ensures s[i] in Dedup(s, kind, n, blocked, seen)
    decreases |s|
  {
    var e := s[|s| - 1];
    var front := s[..|s| - 1];
    if i < |s| - 1 {
      var b := SeamOf(e);
      assert front[i] == s[i];
      if kind(e) && 1 <= b < n && b !in blocked && b !in seen {
        DedupKeepsLast(front, kind, n, blocked, seen + {b}, i);
      } else {
        DedupKeepsLast(front, kind, n, blocked, seen, i);
      }
    }
  }

  /** Elements that are not of the kind pass through in order. */
  lemma {:induction false} DedupKeepsOthers(s: seq<Element>, kind: Element -> bool, p: Element -> bool, n: nat,
                                            blocked: set<int>, seen: set<int>)
    requires forall x :: x in s && p(x) ==> !kind(x)
    ensures Filter(Dedup(s, kind, n, blocked, seen), p) == Filter(s, p)
    decreases |s|
  {
    if s != [] {
      var e := s[|s| - 1];
      var front := s[..|s| - 1];
      assert s == front + [e];
      FilterAppend(front, [e], p);
      var b := SeamOf(e);
      if !kind(e) {
        DedupKeepsOthers(front, kind, p, n, blocked, seen);
        FilterAppend(Dedup(front, kind, n, blocked, seen), [e], p);
      } else if !(1 <= b < n) || b in blocked || b in seen {
        DedupKeepsOthers(front, kind, p, n, blocked, seen);
        assert Filter([e], p) == [];
      } else {
        DedupKeepsOthers(front, kind, p, n, blocked, seen + {b});
        FilterAppend(Dedup(front, kind, n, blocked, seen + {b}), [e], p);
      }
    }
  }

  /** A later deletion pass of another kind keeps seams distinct. */
  lemma {:induction false} DedupKeepsDistinct(s: seq<Element>, kind: Element -> bool, p: Element -> bool, n: nat,
                                              blocked: set<int>, seen: set<int>)
    requires SeamsDistinct(s, p)
    ensures SeamsDistinct(Dedup(s, kind, n, blocked, seen), p)
    decreases |s|
  {
    if s != [] {
      var e := s[|s| - 1];
      var front := s[..|s| - 1];
      var b := SeamOf(e);
      var seen' := if kind(e) && 1 <= b < n && b !in blocked && b !in seen then seen + {b} else seen;
      var r' := Dedup(front, kind, n, blocked, seen');
      var r := Dedup(s, kind, n, blocked, seen);
      assert r == r' || r == r' + [e];
      assert SeamsDistinct(front, p) by {
        forall a, c | 0 <= a < c < |front| ensures front[a] == s[a] && front[c] == s[c] { }
      }
      DedupKeepsDistinct(front, kind, p, n, blocked, seen');
      DedupSubset(front, kind, n, blocked, seen');
      forall a, c | 0 <= a < c < |r| && p(r[a]) && p(r[c]) ensures SeamOf(r[a]) != SeamOf(r[c]) {
        assert r[a] == r'[a] && r'[a] in front;
        if c < |r'| {
          assert r[c] == r'[c];
        } else {
          var j :| 0 <= j < |front| && front[j] == r'[a];
          assert s[j] == r[a] && s[|s| - 1] == r[c];
        }
      }
    }
  }

  // ---------------------------------------------------------------------------
  // Surface numbering (main.py:169-178)

  /** Renumbering changes only `seq`, only on surfaces, and gives each surface
      a number 1..k, k being the size of its bucket. */
  lemma SurfaceSeqRange(s: seq<Element>, i: nat)
    requires i < |s|
    ensures var r := RenumberAll(s);
            r[i] == s[i].(seqNo := r[i].seqNo)
            && (!IsSurface(s[i]) ==> r[i] == s[i])
            && (IsSurface(s[i]) ==> r[i].seqNo.Some? && 1 <= r[i].seqNo.value <= |BucketPositions(s, BucketOf(s[i]))|)
  {
    if IsSurface(s[i]) {
      SortedBucketHas(s, i);
    }
  }

  /** A one-element key compares as its element. */
  lemma LessSingle(x: int, y: int)
    ensures Less([x], [y]) <==> x < y
  {
    assert [x][1..] == [] && [y][1..] == [];
  }

  /** In a sorted bucket, an earlier surface has a smaller `seq`, or the same
      and an earlier place in the list. */
  lemma SortedBucketBefore(s: seq<Element>, b: int, a: nat, c: nat)
    requires a < c < |SortedBucket(s, b)|
    ensures var o := SortedBucket(s, b);
            o[a] < |s| && o[c] < |s|
            && (SeqKey(s[o[a]]) < SeqKey(s[o[c]]) || (SeqKey(s[o[a]]) == SeqKey(s[o[c]]) && o[a] < o[c]))
  {
    var p := BucketPositions(s, b);
    var keys := KeysOf(p, KeyFn(s));
    var ord := StableOrder(keys);
    var o := SortedBucket(s, b);
    SortByStable(p, KeyFn(s));
    assert o == Arrange(p, ord);
    assert Before(keys, ord[a], ord[c]);
    assert keys[ord[a]] == [SeqKey(s[o[a]])] && keys[ord[c]] == [SeqKey(s[o[c]])];
    LessSingle(SeqKey(s[o[a]]), SeqKey(s[o[c]]));
  }

  /** Within a bucket the new numbers follow the old `seq` (a missing one
      counting as 10**9), ties broken by list order. */
  lemma SurfaceSeqOrder(s: seq<Element>, i: nat, j: nat)
    requires i < |s| && j < |s| && i != j
    requires IsSurface(s[i]) && IsSurface(s[j]) && BucketOf(s[i]) == BucketOf(s[j])
    ensures var r := RenumberAll(s);
            r[i].seqNo.Some? && r[j].seqNo.Some?
            && (r[i].seqNo.value < r[j].seqNo.value
                <==> SeqKey(s[i]) < SeqKey(s[j]) || (SeqKey(s[i]) == SeqKey(s[j]) && i < j))
  {
    var b := BucketOf(s[i]);
    var o := SortedBucket(s, b);
    SortedBucketHas(s, i);
    SortedBucketHas(s, j);
    var ai := IndexOf(o, i);
    var aj := IndexOf(o, j);
    if ai < aj {
      SortedBucketBefore(s, b, ai, aj);
    } else {
      SortedBucketBefore(s, b, aj, ai);
    }
  }

  /** Every number 1..k is given to some surface of the bucket. */
  lemma SurfaceSeqCovers(s: seq<Element>, b: int, k: nat)
    requires 1 <= k <= |BucketPositions(s, b)|
    ensures exists j :: 0 <= j < |s| && IsSurface(s[j]) && BucketOf(s[j]) == b && RenumberAll(s)[j].seqNo == Some(k)
  {
    SortedBucketFacts(s, b);
    RenumberedAt(s, b, k - 1);
    var j := SortedBucket(s, b)[k - 1];
    assert RenumberAll(s)[j] == Renumbered(s, j);
  }

  // ---------------------------------------------------------------------------
  // The shape of every kept element (main.py:91-167)

  /** Records of the same type are classified alike. */
  lemma SameKind(a: Element, b: Element)
    requires a.kind == b.kind
    ensures IsTrench(a) == IsTrench(b) && IsPipe(a) == IsPipe(b) && IsSurface(a) == IsSurface(b)
            && IsPassage(a) == IsPassage(b) && IsConnection(a) == IsConnection(b)
  {
    assert TypeOf(a) == TypeOf(b);
  }

  /** A trench carries a number 1..N, any other element none, and a pipe or
      surface points at a trench 1..N. */
  predicate Shaped(e: Element, n: nat) {
    (IsTrench(e) ==> e.trenchIndex.Some? && 1 <= e.trenchIndex.value <= n)
    && (!IsTrench(e) ==> e.trenchIndex.None?)
    && (IsPipe(e) || IsSurface(e) ==> e.forTrench.Some? && 1 <= e.forTrench.value <= n)
  }

  /** A trench of the reindexed list carries a number 1..N. */
  predicate Numbered(e: Element, n: nat) {
    IsTrench(e) ==> e.trenchIndex.Some? && 1 <= e.trenchIndex.value <= n
  }

  /** `old_idx` of the trench at j: its `trench_index`, or its number when absent. */
  function OldNumber(s: seq<Element>, j: nat): int
    requires j < |s|
  {
    IntOr(s[j].trenchIndex, TrenchCount(s[..j]) + 1)
  }

  /** The last trench with a given old number decides where `idx_map` sends it. */
  lemma {:induction false} IdxMapLast(s: seq<Element>, j: nat)
    requires j < |s| && IsTrench(s[j])
    requires forall i :: j < i < |s| && IsTrench(s[i]) ==> OldNumber(s, i) != OldNumber(s, j)
    ensures OldNumber(s, j) in IdxMap(s) && IdxMap(s)[OldNumber(s, j)] == TrenchCount(s[..j]) + 1
    decreases |s|
  {
    var m := |s| - 1;
    var front := s[..m];
    if j < m {
      forall i | j <= i < m ensures front[i] == s[i] && front[..i] == s[..i] && OldNumber(front, i) == OldNumber(s, i) { }
      IdxMapLast(front, j);
    }
  }

  /** `idx_map` has a key only for an old number some trench had. */
  lemma {:induction false} IdxMapFrom(s: seq<Element>, k: int)
    requires k in IdxMap(s)
    ensures exists j :: 0 <= j < |s| && IsTrench(s[j]) && OldNumber(s, j) == k
    decreases |s|
  {
    var m := |s| - 1;
    var front := s[..m];
    if !(IsTrench(s[m]) && OldNumber(s, m) == k) {
      IdxMapFrom(front, k);
      var j :| 0 <= j < |front| && IsTrench(front[j]) && OldNumber(front, j) == k;
      assert front[j] == s[j] && front[..j] == s[..j];
      assert OldNumber(s, j) == k;
    }
  }

  /** A trench has fewer trenches in front of it than the whole list holds. */
  lemma {:induction false} TrenchCountPrefix(s: seq<Element>, j: nat)
    requires j < |s| && IsTrench(s[j])
    ensures TrenchCount(s[..j]) < TrenchCount(s)
    decreases |s|
  {
    var front := s[..|s| - 1];
    if j < |s| - 1 {
      assert front[..j] == s[..j] && front[j] == s[j];
      TrenchCountPrefix(front, j);
    } else {
      assert front == s[..j];
    }
  }

  /** The trench at j is numbered one more than the trenches in front of it. */
  lemma ReindexedNumbered(elems: seq<Element>, j: nat)
    requires j < |elems|
    ensures Reindexed(elems, j).kind == elems[j].kind
    ensures Numbered(Reindexed(elems, j), TrenchCount(elems))
  {
    var e := Reindexed(elems, j);
    SameKind(e, elems[j]);
    if IsTrench(elems[j]) {
      TrenchCountPrefix(elems, j);
    }
  }

  /** The joins a group expands to are connections on seams 1..N-1. */
  lemma {:induction false} PairJoinsConnections(g: seq<int>, n: nat)
    ensures forall x :: x in PairJoins(g, n) ==>
              x.between.Some? && 1 <= x.between.value < n && x == Connection(x.between.value)
    decreases |g|
  {
    if |g| >= 2 {
      PairJoinsConnections(g[..|g| - 1], n);
    }
  }

  /** A fresh connection record has the shape. */
  lemma ConnectionShaped(b: int, n: nat)
    ensures Shaped(Connection(b), n)
  {
    ConnectionKind(b);
  }

  /** What one element contributes has the shape. */
  lemma ClassifyShaped(e: Element, idx: map<int, nat>, n: nat)
    requires Numbered(e, n)
    requires forall k :: k in idx ==> 1 <= idx[k] <= n
    ensures var o := Classify(e, idx, n);
            (o.Keep? ==> forall x :: x in o.items ==> Shaped(x, n))
            && (o.Buffer? ==> Shaped(o.item, n))
  {
    if IsPipe(e) || IsSurface(e) {
      ClassifyPipeShaped(e, idx, n);
    } else if IsConnection(e) && !IsPassage(e) {
      ClassifyConnectionShaped(e, idx, n);
    } else {
      ClassifyOtherShaped(e, idx, n);
    }
  }

  lemma ClassifyPipeShaped(e: Element, idx: map<int, nat>, n: nat)
    requires Numbered(e, n) && (IsPipe(e) || IsSurface(e))
    requires forall k :: k in idx ==> 1 <= idx[k] <= n
    ensures forall x :: x in Classify(e, idx, n).items ==> Shaped(x, n)
  {
    var c := Cleaned(e);
    SameKind(c, e);
    var ref := IntOr(e.forTrench, 0);
    SameKind(c.(forTrench := Some(n)), e);
    if ref in idx {
      SameKind(c.(forTrench := Some(idx[ref])), e);
    }
  }

  lemma ClassifyConnectionShaped(e: Element, idx: map<int, nat>, n: nat)
    requires !IsPipe(e) && !IsSurface(e) && !IsPassage(e) && IsConnection(e)
    ensures forall x :: x in Classify(e, idx, n).items ==> Shaped(x, n)
  {
    var items := Classify(e, idx, n).items;
    if e.between.Some? {
      var b := e.between.value;
      assert items == if 1 <= b < n then [Connection(b)] else [];
      ConnectionShaped(b, n);
    } else if e.group.Some? {
      var g := GroupMembers(e.group.value, n);
      assert items == PairJoins(g, n);
      PairJoinsShaped(g, n);
    } else {
      assert items == [];
    }
  }

  lemma PairJoinsShaped(g: seq<int>, n: nat)
    ensures forall x :: x in PairJoins(g, n) ==> Shaped(x, n)
  {
    PairJoinsConnections(g, n);
    forall x | x in PairJoins(g, n) ensures Shaped(x, n) {
      ConnectionShaped(x.between.value, n);
    }
  }

  lemma ClassifyOtherShaped(e: Element, idx: map<int, nat>, n: nat)
    requires Numbered(e, n) && !IsPipe(e) && !IsSurface(e) && (IsPassage(e) || !IsConnection(e))
    ensures var o := Classify(e, idx, n);
            (o.Keep? ==> forall x :: x in o.items ==> Shaped(x, n))
            && (o.Buffer? ==> Shaped(o.item, n))
  {
    SameKind(Cleaned(e), e);
  }

  /** Everything the pass collects has the shape. */
  lemma {:induction false} KeptShaped(r: seq<Element>, idx: map<int, nat>, n: nat)
    requires forall j :: 0 <= j < |r| ==> Numbered(r[j], n)
    requires forall k :: k in idx ==> 1 <= idx[k] <= n
    ensures forall x :: x in Kept(r, idx, n) ==> Shaped(x, n)
    ensures forall x :: x in Buffered(r, idx, n) ==> Shaped(x, n)
    decreases |r|
  {
    if r != [] {
      var front := r[..|r| - 1];
      assert forall j :: 0 <= j < |front| ==> front[j] == r[j];
      KeptShaped(front, idx, n);
      ClassifyShaped(r[|r| - 1], idx, n);
    }
  }

  /** `keep` before the surfaces are renumbered: every element has the shape. */
  lemma CollectedShaped(elems: seq<Element>)
    ensures forall x :: x in Collected(elems) ==> Shaped(x, TrenchCount(elems))
  {
    var n := TrenchCount(elems);
    var r := Reindexing(elems);
    var idx := IdxMap(elems);
    forall j | 0 <= j < |r| ensures Numbered(r[j], n) {
      ReindexedNumbered(elems, j);
    }
    KeptShaped(r, idx, n);
    var buf := Buffered(r, idx, n);
    var passes := PassNumbered(buf, n);
    forall x | x in passes ensures Shaped(x, n) {
      var k :| 0 <= k < |passes| && passes[k] == x;
      assert buf[k] in buf;
      SameKind(x, buf[k]);
    }
  }

  /** Renumbering keeps the shape. */
  lemma RenumberShaped(s: seq<Element>, n: nat)
    requires forall x :: x in s ==> Shaped(x, n)
    ensures forall x :: x in RenumberAll(s) ==> Shaped(x, n)
  {
    var r := RenumberAll(s);
    forall i | 0 <= i < |r| ensures Shaped(r[i], n) {
      SurfaceSeqRange(s, i);
      assert s[i] in s;
      SameKind(r[i], s[i]);
    }
  }

  /** After `_normalize_and_reindex`: trenches are numbered 1..N and nothing
      else carries a trench number, pipes and surfaces point at a trench 1..N,
      and every passage and connection sits on a seam 1..N-1. */
  lemma NormalizedShape(elems: seq<Element>)
    ensures var out := Normalized(elems);
            var n := TrenchCount(elems);
            (forall x :: x in out ==> Shaped(x, n))
            && (forall x :: x in out && (IsPassage(x) || IsConnection(x)) ==>
                  x.between.Some? && 1 <= x.between.value < n)
  {
    var n := TrenchCount(elems);
    var k2 := RenumberAll(Collected(elems));
    var k3 := Dedup(k2, IsPassage, n, {}, {});
    var out := Dedup(k3, IsConnection, n, PassSeams(k3), {});
    CollectedShaped(elems);
    RenumberShaped(Collected(elems), n);
    DedupSubset(k2, IsPassage, n, {}, {});
    DedupSubset(k3, IsConnection, n, PassSeams(k3), {});
    DedupValid(k2, IsPassage, n, {}, {});
    DedupValid(k3, IsConnection, n, PassSeams(k3), {});
  }

  /** After `_normalize_and_reindex`: at most one passage and at most one
      connection per seam, and no connection on a seam that has a passage. */
  lemma NormalizedSeams(elems: seq<Element>)
    ensures var out := Normalized(elems);
            SeamsDistinct(out, IsPassage) && SeamsDistinct(out, IsConnection)
            && forall a, c :: 0 <= a < |out| && 0 <= c < |out| && IsPassage(out[a]) && IsConnection(out[c]) ==>
                 SeamOf(out[a]) != SeamOf(out[c])
  {
    var n := TrenchCount(elems);
    var k2 := RenumberAll(Collected(elems));
    var k3 := Dedup(k2, IsPassage, n, {}, {});
    var out := Dedup(k3, IsConnection, n, PassSeams(k3), {});
    DedupUnique(k2, IsPassage, n, {}, {});
    DedupKeepsDistinct(k3, IsConnection, IsPassage, n, PassSeams(k3), {});
    DedupUnique(k3, IsConnection, n, PassSeams(k3), {});
    DedupSubset(k3, IsConnection, n, PassSeams(k3), {});
    DedupValid(k3, IsConnection, n, PassSeams(k3), {});
    forall a, c | 0 <= a < |out| && 0 <= c < |out| && IsPassage(out[a]) && IsConnection(out[c])
      ensures SeamOf(out[a]) != SeamOf(out[c])
    {
      assert out[a] in out && out[c] in out;
    }
  }

  // ---------------------------------------------------------------------------
  // Trenches in list order (main.py:91-97)

  /** A trench whose type names no other class of element (a type such as
      "Baugraben Rohr" is handled by the pipe branch first). */
  predicate PlainTrench(e: Element) {
    IsTrench(e) ==> !IsPipe(e) && !IsSurface(e) && !IsPassage(e) && !IsConnection(e)
  }

  /** The records of t carry the trench numbers 1, 2, ... in order. */
  predicate CountedTrenches(t: seq<Element>) {
    forall k :: 0 <= k < |t| ==> t[k].trenchIndex == Some(k + 1)
  }

  /** The record at j, when a trench, is numbered one more than the trenches
      in front of it. */
  predicate NumberedAt(r: seq<Element>, j: nat)
    requires j < |r|
  {
    IsTrench(r[j]) ==> r[j].trenchIndex == Some(TrenchCount(r[..j]) + 1)
  }

  /** Lists whose types agree position by position hold as many trenches. */
  lemma {:induction false} TrenchCountSameKinds(a: seq<Element>, b: seq<Element>)
    requires |a| == |b| && forall i :: 0 <= i < |a| ==> a[i].kind == b[i].kind
    ensures TrenchCount(a) == TrenchCount(b)
    decreases |a|
  {
    if a != [] {
      var m := |a| - 1;
      SameKind(a[m], b[m]);
      TrenchCountSameKinds(a[..m], b[..m]);
    }
  }

  /** What a non-trench contributes carries no trench number. */
  lemma ClassifyNoIndex(e: Element, idx: map<int, nat>, n: nat)
    requires !IsTrench(e)
    ensures var o := Classify(e, idx, n);
            (o.Keep? ==> forall x :: x in o.items ==> x.trenchIndex.None?)
            && (o.Buffer? ==> o.item.trenchIndex.None?)
  {
    var o := Classify(e, idx, n);
    if o.Keep? && !(IsPipe(e) || IsSurface(e)) && !IsPassage(e) && IsConnection(e)
       && e.between.None? && e.group.Some? {
      PairJoinsConnections(GroupMembers(e.group.value, n), n);
    }
  }

  /** The trenches `keep` collects are numbered 1, 2, ... in order, one per
      trench of the list, and none is buffered. */
  lemma {:induction false} KeptTrenches(r: seq<Element>, idx: map<int, nat>, n: nat)
    requires forall j :: 0 <= j < |r| ==> PlainTrench(r[j]) && Numbered(r[j], n)
    requires forall j :: 0 <= j < |r| ==> NumberedAt(r, j)
    requires forall k :: k in idx ==> 1 <= idx[k] <= n
    ensures var t := Filter(Kept(r, idx, n), IsTrench);
            |t| == TrenchCount(r) && CountedTrenches(t)
    ensures forall x :: x in Kept(r, idx, n) ==> PlainTrench(x)
    ensures forall x :: x in Buffered(r, idx, n) ==> !IsTrench(x)
    decreases |r|
  {
    if r != [] {
      var m := |r| - 1;
      var front := r[..m];
      forall j | 0 <= j < |front| ensures front[j] == r[j] && NumberedAt(front, j) {
        assert front[..j] == r[..j] && NumberedAt(r, j);
      }
      KeptTrenches(front, idx, n);
      assert NumberedAt(r, m);
      KeptPlainStep(r, idx, n);
      KeptCountStep(r, idx, n);
    }
  }

  /** One more element keeps every kept record a plain one and every buffered
      record a non-trench. */
  lemma KeptPlainStep(r: seq<Element>, idx: map<int, nat>, n: nat)
    requires r != []
    requires PlainTrench(r[|r| - 1]) && Numbered(r[|r| - 1], n)
    requires forall k :: k in idx ==> 1 <= idx[k] <= n
    requires forall x :: x in Kept(r[..|r| - 1], idx, n) ==> PlainTrench(x)
    requires forall x :: x in Buffered(r[..|r| - 1], idx, n) ==> !IsTrench(x)
    ensures forall x :: x in Kept(r, idx, n) ==> PlainTrench(x)
    ensures forall x :: x in Buffered(r, idx, n) ==> !IsTrench(x)
  {
    var e := r[|r| - 1];
    if IsTrench(e) {
      ClassifyTrench(e, idx, n);
    } else {
      ClassifyNonTrench(e, idx, n);
    }
  }

  /** One more element keeps the trenches kept counted 1, 2, ... */
  lemma KeptCountStep(r: seq<Element>, idx: map<int, nat>, n: nat)
    requires r != []
    requires var e := r[|r| - 1];
             PlainTrench(e) && Numbered(e, n)
             && (IsTrench(e) ==> e.trenchIndex == Some(TrenchCount(r[..|r| - 1]) + 1))
    requires forall k :: k in idx ==> 1 <= idx[k] <= n
    requires var t := Filter(Kept(r[..|r| - 1], idx, n), IsTrench);
             |t| == TrenchCount(r[..|r| - 1]) && CountedTrenches(t)
    ensures var t := Filter(Kept(r, idx, n), IsTrench);
            |t| == TrenchCount(r) && CountedTrenches(t)
  {
    var front, e := r[..|r| - 1], r[|r| - 1];
    var o := Classify(e, idx, n);
    var items := if o.Keep? then o.items else [];
    assert Kept(r, idx, n) == Kept(front, idx, n) + items;
    if IsTrench(e) {
      ClassifyTrench(e, idx, n);
      CountedAppendTrench(Kept(front, idx, n), Cleaned(e));
    } else {
      ClassifyNonTrench(e, idx, n);
      FilterAppendNone(Kept(front, idx, n), items, IsTrench);
    }
  }

  /** Appending a trench numbered one past the trenches of s keeps them counted. */
  lemma CountedAppendTrench(s: seq<Element>, c: Element)
    requires CountedTrenches(Filter(s, IsTrench))
    requires IsTrench(c) && c.trenchIndex == Some(|Filter(s, IsTrench)| + 1)
    ensures var t := Filter(s + [c], IsTrench);
            t == Filter(s, IsTrench) + [c] && CountedTrenches(t)
  {
    FilterAppend(s, [c], IsTrench);
    assert Filter([c], IsTrench) == [c] by { assert [c][1..] == []; }
    CountedSnoc(Filter(s, IsTrench), c);
  }

  /** Appending records none of which satisfies p filters to the same list. */
  lemma FilterAppendNone<T(!new)>(s: seq<T>, t: seq<T>, p: T -> bool)
    requires forall x :: x in t ==> !p(x)
    ensures Filter(s + t, p) == Filter(s, p)
  {
    FilterAppend(s, t, p);
    FilterNone(t, p);
    assert Filter(s, p) + [] == Filter(s, p);
  }

  /** A plain trench is kept alone, cleaned, with its number. */
  lemma ClassifyTrench(e: Element, idx: map<int, nat>, n: nat)
    requires IsTrench(e) && PlainTrench(e)
    ensures var c := Cleaned(e);
            && Classify(e, idx, n) == Keep([c])
            && IsTrench(c) && PlainTrench(c) && c.trenchIndex == e.trenchIndex
  {
    SameKind(Cleaned(e), e);
  }

  /** What a non-trench contributes holds no trench. */
  lemma ClassifyNonTrench(e: Element, idx: map<int, nat>, n: nat)
    requires !IsTrench(e) && Numbered(e, n)
    requires forall k :: k in idx ==> 1 <= idx[k] <= n
    ensures var o := Classify(e, idx, n);
            (o.Keep? ==> forall x :: x in o.items ==> !IsTrench(x))
            && (o.Buffer? ==> !IsTrench(o.item))
  {
    ClassifyNoIndex(e, idx, n);
    ClassifyShaped(e, idx, n);
  }

  /** A trench numbered one past a counted list extends it. */
  lemma CountedSnoc(t: seq<Element>, c: Element)
    requires CountedTrenches(t) && c.trenchIndex == Some(|t| + 1)
    ensures CountedTrenches(t + [c])
  {
  }

  /** The reindexed list numbers each trench one more than the trenches in
      front of it. */
  lemma ReindexedTrenches(elems: seq<Element>)
    requires forall j :: 0 <= j < |elems| ==> PlainTrench(elems[j])
    ensures var r := Reindexing(elems);
            TrenchCount(r) == TrenchCount(elems)
            && (forall j :: 0 <= j < |r| ==> PlainTrench(r[j]) && Numbered(r[j], TrenchCount(elems)))
            && (forall j :: 0 <= j < |r| ==> NumberedAt(r, j))
  {
    var r := Reindexing(elems);
    forall j | 0 <= j < |r|
      ensures PlainTrench(r[j]) && Numbered(r[j], TrenchCount(elems))
      ensures NumberedAt(r, j)
    {
      ReindexedTrenchAt(elems, j);
      ReindexedNumberAt(elems, j);
      ReindexedNumbered(elems, j);
    }
    TrenchCountSameKinds(r, elems);
  }

  lemma ReindexedTrenchAt(elems: seq<Element>, j: nat)
    requires j < |elems| && PlainTrench(elems[j])
    ensures PlainTrench(Reindexing(elems)[j])
  {
    SameKind(Reindexing(elems)[j], elems[j]);
  }

  lemma ReindexedNumberAt(elems: seq<Element>, j: nat)
    requires j < |elems|
    ensures var r := Reindexing(elems);
            NumberedAt(r, j)
  {
    SameKind(Reindexing(elems)[j], elems[j]);
    ReindexingPrefix(elems, j);
  }

  lemma ReindexingPrefix(elems: seq<Element>, j: nat)
    requires j <= |elems|
    ensures TrenchCount(Reindexing(elems)[..j]) == TrenchCount(elems[..j])
  {
    var r := Reindexing(elems);
    assert forall i :: 0 <= i < j ==> r[..j][i].kind == elems[..j][i].kind;
    TrenchCountSameKinds(r[..j], elems[..j]);
  }

  /** Numbering buffered passages adds no trench. */
  lemma PassNumberedNoTrench(buf: seq<Element>, n: nat)
    requires forall x :: x in buf ==> !IsTrench(x)
    ensures forall x :: x in PassNumbered(buf, n) ==> !IsTrench(x)
    ensures Filter(PassNumbered(buf, n), IsTrench) == []
  {
    var passes := PassNumbered(buf, n);
    forall x | x in passes ensures !IsTrench(x) {
      var k :| 0 <= k < |passes| && passes[k] == x;
      assert buf[k] in buf;
      SameKind(x, buf[k]);
    }
    FilterNone(passes, IsTrench);
  }

  /** `keep` before the surfaces are renumbered holds every trench, numbered
      1..N in order. */
  lemma CollectedTrenches(elems: seq<Element>)
    requires forall j :: 0 <= j < |elems| ==> PlainTrench(elems[j])
    ensures var t := Filter(Collected(elems), IsTrench);
            |t| == TrenchCount(elems) && CountedTrenches(t)
    ensures forall x :: x in Collected(elems) ==> PlainTrench(x)
  {
    var n := TrenchCount(elems);
    var r := Reindexing(elems);
    var idx := IdxMap(elems);
    var kept := Kept(r, idx, n);
    var passes := PassNumbered(Buffered(r, idx, n), n);
    ReindexedKept(elems);
    PassNumberedNoTrench(Buffered(r, idx, n), n);
    assert Collected(elems) == kept + passes;
    FilterAppend(kept, passes, IsTrench);
  }

  /** The pass over the reindexed list keeps every trench, numbered 1..N in
      order, and buffers no trench. */
  lemma ReindexedKept(elems: seq<Element>)
    requires forall j :: 0 <= j < |elems| ==> PlainTrench(elems[j])
    ensures var r, idx, n := Reindexing(elems), IdxMap(elems), TrenchCount(elems);
            && (var t := Filter(Kept(r, idx, n), IsTrench); |t| == n && CountedTrenches(t))
            && (forall x :: x in Kept(r, idx, n) ==> PlainTrench(x))
            && (forall x :: x in Buffered(r, idx, n) ==> !IsTrench(x))
  {
    var n := TrenchCount(elems);
    var idx := IdxMap(elems);
    assert forall k :: k in idx ==> 1 <= idx[k] <= n;
    ReindexedTrenches(elems);
    KeptTrenches(Reindexing(elems), idx, n);
  }

  /** Renumbering the surfaces leaves the trenches as they are. */
  lemma RenumberKeepsTrenches(c: seq<Element>)
    requires forall x :: x in c ==> PlainTrench(x)
    ensures Filter(RenumberAll(c), IsTrench) == Filter(c, IsTrench)
    ensures forall x :: x in RenumberAll(c) ==> PlainTrench(x)
  {
    var k2 := RenumberAll(c);
    forall i | 0 <= i < |c| ensures (IsTrench(c[i]) <==> IsTrench(k2[i])) && PlainTrench(k2[i])
                                    && (IsTrench(c[i]) ==> c[i] == k2[i]) {
      SurfaceSeqRange(c, i);
      SameKind(c[i], k2[i]);
      assert c[i] in c;
    }
    FilterPointwise(c, k2, IsTrench);
  }

  /** When no trench's type also names another class, the trenches of the
      normalised list are all the trenches, numbered 1..N in list order. */
  lemma TrenchesInOrder(elems: seq<Element>)
    requires forall j :: 0 <= j < |elems| ==> PlainTrench(elems[j])
    ensures var t := Filter(Normalized(elems), IsTrench);
            |t| == TrenchCount(elems) && CountedTrenches(t)
  {
    var n := TrenchCount(elems);
    var c := Collected(elems);
    CollectedTrenches(elems);
    RenumberKeepsTrenches(c);
    var k2 := RenumberAll(c);
    var k3 := Dedup(k2, IsPassage, n, {}, {});
    DedupKeepsOthers(k2, IsPassage, IsTrench, n, {}, {});
    DedupSubset(k2, IsPassage, n, {}, {});
    DedupKeepsOthers(k3, IsConnection, IsTrench, n, PassSeams(k3), {});
  }
}
