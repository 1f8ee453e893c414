/** Finding elements in the list (main.py:79-84, 211-297, 498-546): the
    surfaces, pipes and passage of a trench or seam, and the index an edit or
    remove instruction's selection refers to. */
module Lookups {
  import opened Wrappers
  import opened Text
  import opened Elements
  import opened Units
  import opened Order
  import opened Normalize
  import opened NormalizeFacts

  /** The first element of a filtered list is the first element satisfying the filter. */
  lemma {:induction false} FilterFirst(s: seq<Element>, p: Element -> bool)
    ensures var f := Filter(s, p);
            var i := FirstWhere(s, p);
            (f == [] <==> i.None?) && (i.Some? ==> f[0] == s[i.value])
    decreases |s|
  {
    if s != [] {
      var rest := Filter(s[1..], p);
      assert Filter(s, p) == (if p(s[0]) then [s[0]] else []) + rest;
      if !p(s[0]) {
        FilterFirst(s[1..], p);
        var i := FirstWhere(s[1..], p);
        assert FirstWhere(s, p) == if i.Some? then Some(i.value + 1) else None;
      }
    }
  }

  // ---------------------------------------------------------------------------
  // The lookups of the drawing generator (main.py:79-84, 211-227)

  /** `int(x.get("for_trench", 0)) == t`. */
  function OnTrench(t: int): Element -> bool {
    (e: Element) => BucketOf(e) == t
  }

  /** The sort key of `_surfaces_for_trench`: `int(s.get("seq", 1))`. */
  function SeqOr1(e: Element): seq<int> {
    [IntOr(e.seqNo, 1)]
  }

  /** `_surfaces_for_trench`: the surfaces of trench t in list order, sorted
      stably by `seq` (missing counting as 1) as soon as one of them has one. */
  function SurfacesForTrench(all: seq<Element>, t: int): (r: seq<Element>)
    ensures multiset(r) == multiset(Filter(all, OnTrench(t)))
  {
    var lst := Filter(all, OnTrench(t));
    if exists x :: x in lst && x.seqNo.Some? then SortBy(lst, SeqOr1) else lst
  }

  /** The surfaces found all belong to trench t and are each surface of trench
      t once; with a `seq` among them they are in ascending `seq` order, and
      surfaces with equal `seq` keep their list order (`order` says where in
      the trench's list each comes from); without one they are in list order. */
  lemma SurfacesForTrenchSorted(all: seq<Element>, t: int)
    ensures var r := SurfacesForTrench(all, t);
            var lst := Filter(all, OnTrench(t));
            var order := StableOrder(KeysOf(lst, SeqOr1));
            (forall x :: x in r ==> x in all && BucketOf(x) == t)
            && ((exists x :: x in lst && x.seqNo.Some?) ==>
                  (forall a, b :: 0 <= a < b < |r| ==> IntOr(r[a].seqNo, 1) <= IntOr(r[b].seqNo, 1))
                  && |order| == |r|
                  && (forall a :: 0 <= a < |r| ==> r[a] == lst[order[a]])
                  && (forall a, b :: 0 <= a < b < |r| && IntOr(r[a].seqNo, 1) == IntOr(r[b].seqNo, 1)
                        ==> order[a] < order[b]))
            && ((forall x :: x in lst ==> x.seqNo.None?) ==> r == lst)
  {
    var r := SurfacesForTrench(all, t);
    var lst := Filter(all, OnTrench(t));
    forall x | x in r ensures x in all && BucketOf(x) == t {
      assert x in multiset(r);
    }
    if exists x :: x in lst && x.seqNo.Some? {
      assert r == SortBy(lst, SeqOr1);
      SortedBySeq(lst);
    }
  }

  /** Sorting by `seq` (missing counting as 1) gives ascending `seq`, and
      surfaces with equal `seq` keep their order. */
  lemma SortedBySeq(lst: seq<Element>)
    ensures var r := SortBy(lst, SeqOr1);
            var order := StableOrder(KeysOf(lst, SeqOr1));
            (forall a, b :: 0 <= a < b < |r| ==> IntOr(r[a].seqNo, 1) <= IntOr(r[b].seqNo, 1))
            && |order| == |r|
            && (forall a :: 0 <= a < |r| ==> r[a] == lst[order[a]])
            && (forall a, b :: 0 <= a < b < |r| && IntOr(r[a].seqNo, 1) == IntOr(r[b].seqNo, 1)
                  ==> order[a] < order[b])
  {
    var r := SortBy(lst, SeqOr1);
    var order := StableOrder(KeysOf(lst, SeqOr1));
    forall a, b | 0 <= a < b < |r| ensures IntOr(r[a].seqNo, 1) <= IntOr(r[b].seqNo, 1) {
      assert !Less(SeqOr1(r[b]), SeqOr1(r[a]));
      LessSingleton(IntOr(r[b].seqNo, 1), IntOr(r[a].seqNo, 1));
    }
    SortByKeepsTies(lst, SeqOr1);
    forall a, b | 0 <= a < b < |r| && IntOr(r[a].seqNo, 1) == IntOr(r[b].seqNo, 1)
      ensures order[a] < order[b]
    {
      assert SeqOr1(r[a]) == SeqOr1(r[b]);
    }
  }

  /** A one-element key compares as its element. */
  lemma LessSingleton(x: int, y: int)
    ensures Less([x], [y]) <==> x < y
  {
    assert [x][1..] == [] && [y][1..] == [];
  }

  /** `_pipes_for_trench`. */
  function PipesForTrench(all: seq<Element>, idx: int): (r: seq<Element>)
    ensures forall x :: x in r <==> x in all && BucketOf(x) == idx
  {
    Filter(all, OnTrench(idx))
  }

  /** `_first_pipe_for_trench`. */
  function FirstPipeForTrench(all: seq<Element>, idx: int): (r: Option<Element>)
    ensures r.Some? ==> r.value in all && BucketOf(r.value) == idx
  {
    var lst := PipesForTrench(all, idx);
    if lst == [] then None else assert lst[0] in lst; Some(lst[0])
  }

  /** The pipe found is the first pipe of the trench in list order, and there
      is none exactly when no pipe points at the trench. */
  lemma FirstPipeIsFirst(all: seq<Element>, idx: int)
    ensures var r := FirstPipeForTrench(all, idx);
            match FirstWhere(all, OnTrench(idx))
            case Some(i) => r == Some(all[i])
            case None => r.None?
  {
    FilterFirst(all, OnTrench(idx));
  }

  /** `p.get("between") is not None`. */
  function HasBetween(e: Element): bool { e.between.Some? }

  /** `int(p.get("between", 0)) == idx`. */
  function BetweenIs(idx: int): Element -> bool {
    (e: Element) => IntOr(e.between, 0) == idx
  }

  /** `by_between` is not empty: some passage has a `between`. */
  predicate AnyBetween(all: seq<Element>)
    decreases |all|
  {
    all != [] && (HasBetween(all[0]) || AnyBetween(all[1..]))
  }

  /** The loop over `by_between`: the first passage whose `between` is idx. */
  function FirstOnSeam(all: seq<Element>, idx: int): (r: Option<Element>)
    ensures r.Some? ==> r.value in all && r.value.between == Some(idx)
    decreases |all|
  {
    if all == [] then None
    else if all[0].between == Some(idx) then Some(all[0])
    else FirstOnSeam(all[1..], idx)
  }

  /** `_pass_for_between`: the first passage with `between == idx`; only when no
      passage has `between` at all, the passage at list position idx - 1. */
  function PassForBetween(all: seq<Element>, idx: int): (r: Option<Element>)
    ensures r.Some? ==> r.value in all
  {
    if AnyBetween(all) then FirstOnSeam(all, idx)
    else if 0 <= idx - 1 < |all| then Some(all[idx - 1])
    else None
  }

  /** The lookup written as the source writes it: the comprehension
      `by_between`, then the first of it on seam idx. */
  function PassByComprehension(all: seq<Element>, idx: int): Option<Element> {
    var byBetween := Filter(all, HasBetween);
    if byBetween != [] then
      match FirstWhere(byBetween, BetweenIs(idx))
      case Some(k) => Some(byBetween[k])
      case None => None
    else if 0 <= idx - 1 < |all| then Some(all[idx - 1])
    else None
  }

  /** The lookup is the comprehension and the loop over it. */
  lemma PassForBetweenIsComprehension(all: seq<Element>, idx: int)
    ensures PassForBetween(all, idx) == PassByComprehension(all, idx)
  {
    AnyBetweenFilter(all);
    if AnyBetween(all) {
      FirstOnSeamFilter(all, idx);
    }
  }

  lemma {:induction false} AnyBetweenFilter(all: seq<Element>)
    ensures AnyBetween(all) <==> Filter(all, HasBetween) != []
    decreases |all|
  {
    if all != [] {
      AnyBetweenFilter(all[1..]);
    }
  }

  lemma {:induction false} FirstOnSeamFilter(all: seq<Element>, idx: int)
    ensures FirstOnSeam(all, idx) == match FirstWhere(Filter(all, HasBetween), BetweenIs(idx))
                                     case Some(k) => Some(Filter(all, HasBetween)[k])
                                     case None => None
    decreases |all|
  {
    if all != [] {
      FirstOnSeamFilter(all[1..], idx);
      var f, f' := Filter(all, HasBetween), Filter(all[1..], HasBetween);
      if HasBetween(all[0]) {
        assert f == [all[0]] + f';
        assert f[0] == all[0] && f[1..] == f';
      } else {
        assert f == f';
      }
    }
  }

  lemma {:induction false} AnyBetweenExists(all: seq<Element>)
    ensures AnyBetween(all) <==> exists x :: x in all && x.between.Some?
    decreases |all|
  {
    if all != [] {
      AnyBetweenExists(all[1..]);
      assert forall x :: x in all <==> x == all[0] || x in all[1..];
    }
  }

  lemma {:induction false} FirstOnSeamFinds(all: seq<Element>, idx: int)
    ensures (exists x :: x in all && x.between == Some(idx)) ==> FirstOnSeam(all, idx).Some?
    decreases |all|
  {
    if all != [] {
      FirstOnSeamFinds(all[1..], idx);
      assert forall x :: x in all <==> x == all[0] || x in all[1..];
    }
  }

  /** When some passage has `between`, the one found sits on seam idx, and one
      is found whenever a passage sits on seam idx. */
  lemma PassForBetweenPrefersSeam(all: seq<Element>, idx: int)
    requires exists x :: x in all && x.between.Some?
    ensures var r := PassForBetween(all, idx);
            (r.Some? ==> r.value.between == Some(idx))
            && ((exists x :: x in all && x.between == Some(idx)) ==> r.Some?)
  {
    AnyBetweenExists(all);
    FirstOnSeamFinds(all, idx);
  }

  /** Only when no passage has `between` does the list position decide. */
  lemma PassForBetweenLegacy(all: seq<Element>, idx: int)
    requires forall x :: x in all ==> x.between.None?
    ensures PassForBetween(all, idx) == if 1 <= idx <= |all| then Some(all[idx - 1]) else None
  {
    AnyBetweenExists(all);
  }

  // ---------------------------------------------------------------------------
  // Selections (main.py:231-297)

  /** The `selection` of an edit or remove instruction. */
  datatype Selection = Selection(
    kind: string,                  // "type"
    trenchIndex: Option<int>,      // "trench_index"
    forTrench: Option<int>,        // "for_trench"
    between: Option<int>,
    seqNo: Option<int>,            // "seq"
    ordinal: Option<int>
  )

  /** The surface test on a lower-cased type. */
  predicate SurfaceWord(t: string) {
    Contains(t, "oberflächenbefest") || Contains(t, "oberflaechenbefest")
  }

  function TrenchNumbered(ti: int): Element -> bool {
    (e: Element) => IsTrench(e) && IntOr(e.trenchIndex, 0) == ti
  }

  function PipeOn(ft: int): Element -> bool {
    (e: Element) => IsPipe(e) && IntOr(e.forTrench, 0) == ft
  }

  function SurfaceOn(ft: int): Element -> bool {
    (e: Element) => IsSurface(e) && IntOr(e.forTrench, 0) == ft
  }

  /** `int(e.get("seq", 0) or 0) == seq`. */
  function SeqIs(sq: int): Element -> bool {
    (e: Element) => IntOr(e.seqNo, 0) == sq
  }

  function PassageOn(b: int): Element -> bool {
    (e: Element) => IsPassage(e) && IntOr(e.between, -1) == b
  }

  function ConnectionOn(b: int): Element -> bool {
    (e: Element) => IsConnection(e) && IntOr(e.between, -1) == b
  }

  /** The positions in elems holding an element with `seq` equal to sq. */
  function SeqAt(elems: seq<Element>, sq: int): nat -> bool {
    (i: nat) => i < |elems| && SeqIs(sq)(elems[i])
  }

  /** The surface of trench ft with the given `seq`, or without one the first
      after a stable sort of the trench's surfaces by `seq`. */
  function FindSurface(elems: seq<Element>, ft: int, sq: Option<int>): (r: Option<nat>)
    ensures r.Some? ==> r.value < |elems| && SurfaceOn(ft)(elems[r.value])
  {
    var cand := BucketPositions(elems, ft);
    if cand == [] then None
    else match sq
      case Some(k) =>
        (match FirstWhere(cand, SeqAt(elems, k))
         case Some(a) => Some(cand[a])
         case None => None)
      case None =>
        SortedBucketFacts(elems, ft);
        Some(SortedBucket(elems, ft)[0])
  }

  /** The passage of an instruction: on seam `between` if there is one, else the
      `ordinal`-th passage, else the first passage. */
  function FindPassage(elems: seq<Element>, sel: Selection): (r: Option<nat>)
    ensures r.Some? ==> r.value < |elems| && IsPassage(elems[r.value])
  {
    var onSeam := if sel.between.Some? then FirstWhere(elems, PassageOn(sel.between.value)) else None;
    if onSeam.Some? then onSeam
    else
      var idxs := Positions(elems, IsPassage);
      if sel.ordinal.Some? && 1 <= sel.ordinal.value <= |idxs| then Some(idxs[sel.ordinal.value - 1])
      else if idxs != [] then Some(idxs[0])
      else None
  }

  /** The connection of an instruction: on seam `between` if there is one, else
      the first connection. */
  function FindConnection(elems: seq<Element>, sel: Selection): (r: Option<nat>)
    ensures r.Some? ==> r.value < |elems| && IsConnection(elems[r.value])
  {
    var onSeam := if sel.between.Some? then FirstWhere(elems, ConnectionOn(sel.between.value)) else None;
    if onSeam.Some? then onSeam else FirstWhere(elems, IsConnection)
  }

  /** `_find_target_index_by_selection`. */
  function FindTargetIndex(elems: seq<Element>, sel: Selection): (r: Option<nat>)
    ensures r.Some? ==> r.value < |elems|
  {
    var t := LowerStr(sel.kind);
    if Contains(t, "baugraben") then FirstWhere(elems, TrenchNumbered(IntOr(sel.trenchIndex, 0)))
    else if Contains(t, "rohr") then FirstWhere(elems, PipeOn(IntOr(sel.forTrench, 0)))
    else if SurfaceWord(t) then FindSurface(elems, IntOr(sel.forTrench, 0), sel.seqNo)
    else if Contains(t, "durchstich") then FindPassage(elems, sel)
    else if Contains(t, "verbindung") then FindConnection(elems, sel)
    else None
  }

  /** Without `seq` the surface found has the smallest `seq` of its trench (a
      missing one counting as 10**9), the earliest of equals; there is none
      exactly when the trench has no surface. */
  lemma FindSurfaceFirst(elems: seq<Element>, ft: int)
    ensures var r := FindSurface(elems, ft, None);
            (r.None? <==> forall j :: 0 <= j < |elems| ==> !SurfaceOn(ft)(elems[j]))
            && (r.Some? ==> forall j :: 0 <= j < |elems| && j != r.value && SurfaceOn(ft)(elems[j]) ==>
                   SeqKey(elems[r.value]) < SeqKey(elems[j])
                   || (SeqKey(elems[r.value]) == SeqKey(elems[j]) && r.value < j))
  {
    var r := FindSurface(elems, ft, None);
    if r.Some? {
      forall j | 0 <= j < |elems| && j != r.value && SurfaceOn(ft)(elems[j])
        ensures SeqKey(elems[r.value]) < SeqKey(elems[j]) || (SeqKey(elems[r.value]) == SeqKey(elems[j]) && r.value < j)
      {
        FirstSurfaceBefore(elems, ft, j);
      }
    } else {
      assert BucketPositions(elems, ft) == [];
    }
  }

  /** The surface found without `seq` comes before any other surface j of its
      trench in the sort order. */
  lemma FirstSurfaceBefore(elems: seq<Element>, ft: int, j: nat)
    requires j < |elems| && SurfaceOn(ft)(elems[j])
    requires FindSurface(elems, ft, None).Some? && j != FindSurface(elems, ft, None).value
    ensures var r := FindSurface(elems, ft, None).value;
            SeqKey(elems[r]) < SeqKey(elems[j]) || (SeqKey(elems[r]) == SeqKey(elems[j]) && r < j)
  {
    var o := SortedBucket(elems, ft);
    SortedBucketFacts(elems, ft);
    var c :| 0 <= c < |o| && o[c] == j;
    SortedBucketBefore(elems, ft, 0, c);
  }

  /** With `seq` the surface found is the first of its trench with that `seq`,
      and there is none exactly when no surface of the trench has it. */
  lemma FindSurfaceBySeq(elems: seq<Element>, ft: int, k: int)
    ensures var r := FindSurface(elems, ft, Some(k));
            (r.Some? ==> SeqIs(k)(elems[r.value])
                         && forall j :: 0 <= j < r.value && SurfaceOn(ft)(elems[j]) ==> !SeqIs(k)(elems[j]))
            && (r.None? ==> forall j :: 0 <= j < |elems| && SurfaceOn(ft)(elems[j]) ==> !SeqIs(k)(elems[j]))
  {
    var cand := BucketPositions(elems, ft);
    var r := FindSurface(elems, ft, Some(k));
    if cand != [] {
      var a := FirstWhere(cand, SeqAt(elems, k));
      assert r == if a.Some? then Some(cand[a.value]) else None;
      if a.Some? {
        SeqFirstInBucket(elems, ft, k, cand, a.value);
      } else {
        SeqNotInBucket(elems, ft, k, cand);
      }
    }
  }

  /** The first bucket entry with the wanted `seq` is the first such surface of the trench. */
  lemma SeqFirstInBucket(elems: seq<Element>, ft: int, k: int, cand: seq<nat>, a: nat)
    requires cand == BucketPositions(elems, ft) && FirstWhere(cand, SeqAt(elems, k)) == Some(a)
    ensures a < |cand| && SeqIs(k)(elems[cand[a]])
    ensures forall j :: 0 <= j < cand[a] && SurfaceOn(ft)(elems[j]) ==> !SeqIs(k)(elems[j])
  {
    forall j | 0 <= j < cand[a] && SurfaceOn(ft)(elems[j]) ensures !SeqIs(k)(elems[j]) {
      var c :| 0 <= c < |cand| && cand[c] == j;
      assert c < a;
    }
  }

  /** No bucket entry has the wanted `seq`: no surface of the trench has it. */
  lemma SeqNotInBucket(elems: seq<Element>, ft: int, k: int, cand: seq<nat>)
    requires cand == BucketPositions(elems, ft) && FirstWhere(cand, SeqAt(elems, k)).None?
    ensures forall j :: 0 <= j < |elems| && SurfaceOn(ft)(elems[j]) ==> !SeqIs(k)(elems[j])
  {
    forall j | 0 <= j < |elems| && SurfaceOn(ft)(elems[j]) ensures !SeqIs(k)(elems[j]) {
      var c :| 0 <= c < |cand| && cand[c] == j;
      assert !SeqAt(elems, k)(cand[c]);
    }
  }

  /** A passage selected with `between` is the first passage on that seam when
      there is one; otherwise the `ordinal`-th passage, else the first; there is
      none exactly when the list has no passage. */
  lemma FindPassageChoice(elems: seq<Element>, sel: Selection)
    ensures var r := FindPassage(elems, sel);
            (r.None? <==> forall j :: 0 <= j < |elems| ==> !IsPassage(elems[j]))
            && (sel.between.Some? && (exists j :: 0 <= j < |elems| && PassageOn(sel.between.value)(elems[j])) ==>
                  r == FirstWhere(elems, PassageOn(sel.between.value)))
            && (r.Some? && !(sel.between.Some? && PassageOn(sel.between.value)(elems[r.value])) ==>
                  var idxs := Positions(elems, IsPassage);
                  if sel.ordinal.Some? && 1 <= sel.ordinal.value <= |idxs| then r.value == idxs[sel.ordinal.value - 1]
                  else r.value == idxs[0])
  {
    FindPassageNone(elems, sel);
    if sel.between.Some? && exists j :: 0 <= j < |elems| && PassageOn(sel.between.value)(elems[j]) {
      var j :| 0 <= j < |elems| && PassageOn(sel.between.value)(elems[j]);
      FindPassageOnSeam(elems, sel, j);
    }
    FindPassageFallback(elems, sel);
  }

  /** A passage on the seam asked for is found first. */
  lemma FindPassageOnSeam(elems: seq<Element>, sel: Selection, j: nat)
    requires sel.between.Some? && j < |elems| && PassageOn(sel.between.value)(elems[j])
    ensures FindPassage(elems, sel) == FirstWhere(elems, PassageOn(sel.between.value))
  {
    assert FirstWhere(elems, PassageOn(sel.between.value)).Some?;
  }

  /** A passage found off the seam asked for is the `ordinal`-th, else the first. */
  lemma FindPassageFallback(elems: seq<Element>, sel: Selection)
    ensures var r := FindPassage(elems, sel);
            r.Some? && !(sel.between.Some? && PassageOn(sel.between.value)(elems[r.value])) ==>
              var idxs := Positions(elems, IsPassage);
              if sel.ordinal.Some? && 1 <= sel.ordinal.value <= |idxs| then r.value == idxs[sel.ordinal.value - 1]
              else r.value == idxs[0]
  {
  }

  /** No passage is found exactly when the list has none. */
  lemma FindPassageNone(elems: seq<Element>, sel: Selection)
    ensures FindPassage(elems, sel).None? <==> forall j :: 0 <= j < |elems| ==> !IsPassage(elems[j])
  {
    if FindPassage(elems, sel).None? {
      assert Positions(elems, IsPassage) == [];
    }
  }

  /** A connection selected with `between` is the first connection on that
      seam when there is one; otherwise the first connection of the list; there
      is none exactly when the list has no connection. */
  lemma FindConnectionChoice(elems: seq<Element>, sel: Selection)
    ensures var r := FindConnection(elems, sel);
            (r.None? <==> forall j :: 0 <= j < |elems| ==> !IsConnection(elems[j]))
            && (sel.between.Some? && (exists j :: 0 <= j < |elems| && ConnectionOn(sel.between.value)(elems[j])) ==>
                  r == FirstWhere(elems, ConnectionOn(sel.between.value)))
            && (!(sel.between.Some? && exists j :: 0 <= j < |elems| && ConnectionOn(sel.between.value)(elems[j])) ==>
                  r == FirstWhere(elems, IsConnection))
  {
    var r := FindConnection(elems, sel);
    if sel.between.Some? && exists j :: 0 <= j < |elems| && ConnectionOn(sel.between.value)(elems[j]) {
      var j :| 0 <= j < |elems| && ConnectionOn(sel.between.value)(elems[j]);
      assert FirstWhere(elems, ConnectionOn(sel.between.value)).Some?;
      assert IsConnection(elems[j]);
    }
    if r.None? {
      assert FirstWhere(elems, IsConnection).None?;
    }
  }

  /** What `_find_target_index_by_selection` returns is an element of the
      class the selection's type names, checked in the order trench, pipe,
      surface, passage, connection, matching the selection's trench number or
      pipe trench, and the first such; any other type finds nothing. */
  lemma FindTargetMatches(elems: seq<Element>, sel: Selection)
    ensures var t := LowerStr(sel.kind);
            var r := FindTargetIndex(elems, sel);
            (Contains(t, "baugraben") ==> r == FirstWhere(elems, TrenchNumbered(IntOr(sel.trenchIndex, 0))))
            && (!Contains(t, "baugraben") && Contains(t, "rohr") ==> r == FirstWhere(elems, PipeOn(IntOr(sel.forTrench, 0))))
            && (!Contains(t, "baugraben") && !Contains(t, "rohr") && SurfaceWord(t) ==>
                  r == FindSurface(elems, IntOr(sel.forTrench, 0), sel.seqNo)
                  && (r.Some? ==> SurfaceOn(IntOr(sel.forTrench, 0))(elems[r.value])))
            && (!Contains(t, "baugraben") && !Contains(t, "rohr") && !SurfaceWord(t) && Contains(t, "durchstich") ==>
                  r == FindPassage(elems, sel) && (r.Some? ==> IsPassage(elems[r.value])))
            && ((!Contains(t, "baugraben") && !Contains(t, "rohr") && !SurfaceWord(t) && !Contains(t, "durchstich")
                 && Contains(t, "verbindung")) ==>
                  r == FindConnection(elems, sel) && (r.Some? ==> IsConnection(elems[r.value])))
            && ((!Contains(t, "baugraben") && !Contains(t, "rohr") && !SurfaceWord(t) && !Contains(t, "durchstich")
                 && !Contains(t, "verbindung")) ==> r.None?)
  {
  }

  // ---------------------------------------------------------------------------
  // The fallback resolution (main.py:498-546)

  /** `matches(i, e)` for the lower-cased canonical type tn. */
  function Matches(tn: string, sel: Selection): Element -> bool {
    (e: Element) =>
      if tn == "baugraben" then
        IsTrench(e) && (sel.trenchIndex.None? || IntOr(e.trenchIndex, 0) == sel.trenchIndex.value)
      else if tn == "rohr" then
        IsPipe(e) && (sel.forTrench.None? || IntOr(e.forTrench, 0) == sel.forTrench.value)
      else if SurfaceWord(tn) then
        IsSurface(e) && (sel.forTrench.None? || IntOr(e.forTrench, 0) == sel.forTrench.value)
        && (sel.seqNo.None? || IntOr(e.seqNo, 0) == sel.seqNo.value)
      else if tn == "durchstich" then
        IsPassage(e) && (sel.between.None? || IntOr(e.between, -1) == sel.between.value)
      else false
  }

  /** `typ(i, e)`: the class alone; any type but trench, pipe and passage means
      a surface. */
  function TypeFits(tn: string): Element -> bool {
    (e: Element) =>
      if tn == "baugraben" then IsTrench(e)
      else if tn == "rohr" then IsPipe(e)
      else if tn == "durchstich" then IsPassage(e)
      else IsSurface(e)
  }

  /** `_resolve_selection_heuristic`: the last matching element, else the last
      element of the type. */
  function ResolveSelection(elems: seq<Element>, sel: Selection): (r: Option<nat>)
    ensures r.Some? ==> r.value < |elems|
  {
    var tn := LowerStr(NormalizeTypeAlias(sel.kind));
    var m := LastWhere(elems, Matches(tn, sel));
    if m.Some? then m else LastWhere(elems, TypeFits(tn))
  }

  /** The element resolved is the last that matches the selection, or when
      none does, the last of its type; nothing is resolved only when neither
      exists. */
  lemma ResolveSelectionLast(elems: seq<Element>, sel: Selection)
    ensures var tn := LowerStr(NormalizeTypeAlias(sel.kind));
            var r := ResolveSelection(elems, sel);
            (r.Some? ==>
               ((Matches(tn, sel)(elems[r.value]) && forall j :: r.value < j < |elems| ==> !Matches(tn, sel)(elems[j]))
                || ((forall j :: 0 <= j < |elems| ==> !Matches(tn, sel)(elems[j]))
                    && TypeFits(tn)(elems[r.value]) && forall j :: r.value < j < |elems| ==> !TypeFits(tn)(elems[j]))))
            && (r.None? <==> forall j :: 0 <= j < |elems| ==> !Matches(tn, sel)(elems[j]) && !TypeFits(tn)(elems[j]))
  {
    var tn := LowerStr(NormalizeTypeAlias(sel.kind));
    var m := LastWhere(elems, Matches(tn, sel));
    if m.None? {
      var f := LastWhere(elems, TypeFits(tn));
    }
  }

  /** A connection selection never matches: it resolves to the last surface. */
  lemma ResolveConnectionIsSurface(elems: seq<Element>, sel: Selection)
    requires LowerStr(NormalizeTypeAlias(sel.kind)) == "verbindung"
    ensures ResolveSelection(elems, sel) == LastWhere(elems, IsSurface)
  {
    VerbindungSurface();
    var tn := LowerStr(NormalizeTypeAlias(sel.kind));
    assert tn != "baugraben" && tn != "rohr" && tn != "durchstich" && !SurfaceWord(tn);
    assert forall j :: 0 <= j < |elems| ==> !Matches(tn, sel)(elems[j]);
    assert forall j :: 0 <= j < |elems| ==> TypeFits(tn)(elems[j]) == IsSurface(elems[j]);
    LastWhereSame(elems, TypeFits(tn), IsSurface);
  }

  /** Two tests that agree on every element find the same last position. */
  lemma {:induction false} LastWhereSame(s: seq<Element>, p: Element -> bool, q: Element -> bool)
    requires forall j :: 0 <= j < |s| ==> p(s[j]) == q(s[j])
    ensures LastWhere(s, p) == LastWhere(s, q)
    decreases |s|
  {
    if s != [] {
      LastWhereSame(s[..|s| - 1], p, q);
    }
  }
}
