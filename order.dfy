/** Python's stable `sorted`/`list.sort` with a key function.

    Every sort key in the system is a tuple of integers and strings.  Such a
    tuple is encoded here as a sequence of integers compared lexicographically
    (a proper prefix first, as Python compares tuples and strings); a string
    component is encoded by `Str` so that the encoded keys compare exactly as the
    tuples do.  A stable sort is an arrangement of the input positions ordered by
    (key, position). */
module Order {
  import opened Wrappers

  /** Strict lexicographic order on integer sequences. */
  predicate Less(a: seq<int>, b: seq<int>)
    decreases |a|
  {
    if |a| == 0 then |b| > 0
    else |b| > 0 && (a[0] < b[0] || (a[0] == b[0] && Less(a[1..], b[1..])))
  }

  lemma {:induction false} LessIrreflexive(a: seq<int>)
    ensures !Less(a, a)
    decreases |a|
  {
    if |a| > 0 {
      LessIrreflexive(a[1..]);
    }
  }

  lemma {:induction false} LessTransitive(a: seq<int>, b: seq<int>, c: seq<int>)
    requires Less(a, b) && Less(b, c)
    ensures Less(a, c)
    decreases |a|
  {
    if |a| > 0 && a[0] == b[0] && b[0] == c[0] {
      LessTransitive(a[1..], b[1..], c[1..]);
    }
  }

  lemma {:induction false} LessTotal(a: seq<int>, b: seq<int>)
    ensures a == b || Less(a, b) || Less(b, a)
    decreases |a|
  {
    if |a| > 0 && |b| > 0 && a[0] == b[0] {
      LessTotal(a[1..], b[1..]);
      if a[1..] == b[1..] {
        assert a == [a[0]] + a[1..] && b == [b[0]] + b[1..];
      }
    }
  }

  /** Encoding of one string component of a key: code points shifted by one and
      a terminating 0, so that a proper prefix sorts first. */
  function Str(s: string): (r: seq<int>)
    ensures |r| == |s| + 1 && r[|s|] == 0
    ensures forall i :: 0 <= i < |s| ==> r[i] == s[i] as int + 1
  {
    if s == [] then [0] else [s[0] as int + 1] + Str(s[1..])
  }

  /** Python's order on strings: lexicographic on code points. */
  predicate StrLess(s: string, t: string)
    decreases |s|
  {
    if |s| == 0 then |t| > 0
    else |t| > 0 && (s[0] < t[0] || (s[0] == t[0] && StrLess(s[1..], t[1..])))
  }

  /** A key that starts with an encoded string compares first by that string
      and then by the rest, as a Python tuple does. */
  lemma {:induction false} StrThenLess(s: string, x: seq<int>, t: string, y: seq<int>)
    ensures Less(Str(s) + x, Str(t) + y) <==> StrLess(s, t) || (s == t && Less(x, y))
    decreases |s|
  {
    var a, b := Str(s) + x, Str(t) + y;
    if s == [] && t == [] {
      assert a == [0] + x && b == [0] + y;
      assert a[1..] == x && b[1..] == y;
    } else if s == [] {
      assert a[0] == 0 && b[0] == t[0] as int + 1;
    } else if t == [] {
      assert a[0] == s[0] as int + 1 && b[0] == 0;
    } else {
      var a', b' := Str(s[1..]) + x, Str(t[1..]) + y;
      assert a == [s[0] as int + 1] + a' && b == [t[0] as int + 1] + b';
      assert a[1..] == a' && b[1..] == b';
      StrThenLess(s[1..], x, t[1..], y);
      if s[0] == t[0] && s[1..] == t[1..] {
        assert s == [s[0]] + s[1..] && t == [t[0]] + t[1..];
      }
    }
  }

  /** Position m comes before position n: smaller key, or equal key and earlier. */
  predicate Before(keys: seq<seq<int>>, m: nat, n: nat)
    requires m < |keys| && n < |keys|
  {
    Less(keys[m], keys[n]) || (keys[m] == keys[n] && m < n)
  }

  lemma BeforeTransitive(keys: seq<seq<int>>, m: nat, n: nat, p: nat)
    requires m < |keys| && n < |keys| && p < |keys|
    requires Before(keys, m, n) && Before(keys, n, p)
    ensures Before(keys, m, p)
  {
    if Less(keys[m], keys[n]) && Less(keys[n], keys[p]) {
      LessTransitive(keys[m], keys[n], keys[p]);
    }
  }

  lemma BeforeTotal(keys: seq<seq<int>>, m: nat, n: nat)
    requires m < |keys| && n < |keys| && m != n
    ensures Before(keys, m, n) || Before(keys, n, m)
  {
    LessTotal(keys[m], keys[n]);
  }

  lemma BeforeIrreflexive(keys: seq<seq<int>>, m: nat)
    requires m < |keys|
    ensures !Before(keys, m, m)
  {
    LessIrreflexive(keys[m]);
  }

  predicate InRange(keys: seq<seq<int>>, r: seq<nat>) {
    forall a :: 0 <= a < |r| ==> r[a] < |keys|
  }

  predicate SortedBy(keys: seq<seq<int>>, r: seq<nat>) {
    InRange(keys, r) && forall a, b :: 0 <= a < b < |r| ==> Before(keys, r[a], r[b])
  }

  /** Inserts position j in front of the first position that does not come before it. */
  function Insert(keys: seq<seq<int>>, j: nat, s: seq<nat>): (r: seq<nat>)
    requires j < |keys| && InRange(keys, s)
    ensures InRange(keys, r) && |r| == |s| + 1
    ensures forall m: nat :: m in r <==> m == j || m in s
  {
    if s == [] then [j]
    else if Before(keys, j, s[0]) then [j] + s
    else [s[0]] + Insert(keys, j, s[1..])
  }

  lemma {:induction false} InsertSorted(keys: seq<seq<int>>, j: nat, s: seq<nat>)
    requires j < |keys| && SortedBy(keys, s) && j !in s
    ensures SortedBy(keys, Insert(keys, j, s))
    decreases |s|
  {
    if s != [] {
      if Before(keys, j, s[0]) {
        forall b | 0 <= b < |s| ensures Before(keys, j, s[b]) {
          if b > 0 { BeforeTransitive(keys, j, s[0], s[b]); }
        }
      } else {
        BeforeTotal(keys, j, s[0]);
        InsertSorted(keys, j, s[1..]);
        var t := Insert(keys, j, s[1..]);
        forall x | x in t ensures Before(keys, s[0], x) {
          if x != j {
            var b :| 0 <= b < |s[1..]| && s[1..][b] == x;
            assert s[b + 1] == x;
          }
        }
      }
    }
  }

  /** Insert places j at some position p, keeping the rest in order. */
  lemma {:induction false} InsertShape(keys: seq<seq<int>>, j: nat, s: seq<nat>) returns (p: nat)
    requires j < |keys| && InRange(keys, s)
    ensures p <= |s| && Insert(keys, j, s) == s[..p] + [j] + s[p..]
    decreases |s|
  {
    if s == [] || Before(keys, j, s[0]) {
      p := 0;
    } else {
      var q := InsertShape(keys, j, s[1..]);
      p := q + 1;
      assert s[..p] == [s[0]] + s[1..][..q];
      assert s[p..] == s[1..][q..];
    }
  }

  /** The order of positions j .. |keys|-1. */
  function OrderFrom(keys: seq<seq<int>>, j: nat): (r: seq<nat>)
    ensures InRange(keys, r)
    ensures |r| == if j < |keys| then |keys| - j else 0
    ensures forall m: nat :: m in r <==> j <= m < |keys|
    decreases |keys| - j
  {
    if j >= |keys| then [] else Insert(keys, j, OrderFrom(keys, j + 1))
  }

  lemma {:induction false} OrderFromSorted(keys: seq<seq<int>>, j: nat)
    ensures SortedBy(keys, OrderFrom(keys, j))
    decreases |keys| - j
  {
    if j < |keys| {
      OrderFromSorted(keys, j + 1);
      InsertSorted(keys, j, OrderFrom(keys, j + 1));
    }
  }

  /** The stable sort order: every position exactly once, ordered by (key, position). */
  function StableOrder(keys: seq<seq<int>>): (r: seq<nat>)
    ensures |r| == |keys|
    ensures forall m: nat :: m in r <==> m < |keys|
    ensures SortedBy(keys, r)
    ensures forall a, b :: 0 <= a < b < |r| ==> r[a] != r[b]
  {
    OrderFromSorted(keys, 0);
    var r := OrderFrom(keys, 0);
    assert forall a, b :: 0 <= a < b < |r| ==> r[a] != r[b] by {
      forall a, b | 0 <= a < b < |r| ensures r[a] != r[b] {
        if r[a] == r[b] { BeforeIrreflexive(keys, r[a]); }
      }
    }
    r
  }

  function Arrange<T>(xs: seq<T>, order: seq<nat>): (r: seq<T>)
    requires forall a :: 0 <= a < |order| ==> order[a] < |xs|
    ensures |r| == |order|
    ensures forall a :: 0 <= a < |order| ==> r[a] == xs[order[a]]
  {
    seq(|order|, a requires 0 <= a < |order| => xs[order[a]])
  }

  lemma ArrangeAppend<T>(xs: seq<T>, u: seq<nat>, v: seq<nat>)
    requires forall a :: 0 <= a < |u| ==> u[a] < |xs|
    requires forall a :: 0 <= a < |v| ==> v[a] < |xs|
    ensures Arrange(xs, u + v) == Arrange(xs, u) + Arrange(xs, v)
  {
  }

  /** Arranging with one more position adds that element to the multiset. */
  lemma ArrangeInsertMultiset<T>(xs: seq<T>, u: seq<nat>, j: nat, v: seq<nat>)
    requires j < |xs|
    requires forall a :: 0 <= a < |u| ==> u[a] < |xs|
    requires forall a :: 0 <= a < |v| ==> v[a] < |xs|
    ensures multiset(Arrange(xs, u + [j] + v)) == multiset(Arrange(xs, u + v)) + multiset{xs[j]}
  {
    ArrangeAppend(xs, u + [j], v);
    ArrangeAppend(xs, u, [j]);
    ArrangeAppend(xs, u, v);
    assert Arrange(xs, [j]) == [xs[j]];
  }

  lemma {:induction false} OrderFromMultiset<T>(xs: seq<T>, keys: seq<seq<int>>, j: nat)
    requires |keys| == |xs| && j <= |xs|
    ensures multiset(Arrange(xs, OrderFrom(keys, j))) == multiset(xs[j..])
    decreases |xs| - j
  {
    if j < |xs| {
      OrderFromMultiset(xs, keys, j + 1);
      OrderFromStep(xs, keys, j);
    }
  }

  lemma OrderFromStep<T>(xs: seq<T>, keys: seq<seq<int>>, j: nat)
    requires |keys| == |xs| && j < |xs|
    requires multiset(Arrange(xs, OrderFrom(keys, j + 1))) == multiset(xs[j + 1..])
    ensures multiset(Arrange(xs, OrderFrom(keys, j))) == multiset(xs[j..])
  {
    var s := OrderFrom(keys, j + 1);
    var p := InsertShape(keys, j, s);
    assert OrderFrom(keys, j) == s[..p] + [j] + s[p..];
    assert s[..p] + s[p..] == s;
    ArrangeInsertMultiset(xs, s[..p], j, s[p..]);
    assert xs[j..] == [xs[j]] + xs[j + 1..];
  }

  /** The key of every element, in input order. */
  function KeysOf<T>(xs: seq<T>, key: T -> seq<int>): (keys: seq<seq<int>>)
    ensures |keys| == |xs|
    ensures forall i :: 0 <= i < |xs| ==> keys[i] == key(xs[i])
  {
    seq(|xs|, i requires 0 <= i < |xs| => key(xs[i]))
  }

  /** `sorted(xs, key=key)`. */
  function SortBy<T>(xs: seq<T>, key: T -> seq<int>): (r: seq<T>)
    ensures |r| == |xs|
    ensures multiset(r) == multiset(xs)
    ensures forall a, b :: 0 <= a < b < |r| ==> !Less(key(r[b]), key(r[a]))
  {
    var keys := KeysOf(xs, key);
    var order := StableOrder(keys);
    OrderFromMultiset(xs, keys, 0);
    assert xs[0..] == xs;
    var r := Arrange(xs, order);
    assert forall a, b :: 0 <= a < b < |r| ==> !Less(key(r[b]), key(r[a])) by {
      forall a, b | 0 <= a < b < |r| ensures !Less(key(r[b]), key(r[a])) {
        assert Before(keys, order[a], order[b]);
        if Less(keys[order[b]], keys[order[a]]) {
          if Less(keys[order[a]], keys[order[b]]) {
            LessTransitive(keys[order[a]], keys[order[b]], keys[order[a]]);
          }
          LessIrreflexive(keys[order[a]]);
        }
      }
    }
    r
  }

  /** Stability: the sorted sequence shows the input positions in (key, position)
      order, so elements with equal keys keep their input order. */
  lemma SortByStable<T>(xs: seq<T>, key: T -> seq<int>)
    ensures SortBy(xs, key) == Arrange(xs, StableOrder(KeysOf(xs, key)))
    ensures SortedBy(KeysOf(xs, key), StableOrder(KeysOf(xs, key)))
  {
  }

  /** Elements with equal keys come out in their input order: `order` says
      which input position each output element comes from. */
  lemma SortByKeepsTies<T>(xs: seq<T>, key: T -> seq<int>)
    ensures var r := SortBy(xs, key);
            var order := StableOrder(KeysOf(xs, key));
            |order| == |r|
            && (forall a :: 0 <= a < |r| ==> r[a] == xs[order[a]])
            && (forall a, b :: 0 <= a < b < |r| && key(r[a]) == key(r[b]) ==> order[a] < order[b])
  {
    var keys := KeysOf(xs, key);
    var order := StableOrder(keys);
    SortByStable(xs, key);
    var r := SortBy(xs, key);
    forall a, b | 0 <= a < b < |r| && key(r[a]) == key(r[b]) ensures order[a] < order[b] {
      assert Before(keys, order[a], order[b]);
      assert keys[order[a]] == keys[order[b]];
      LessIrreflexive(keys[order[a]]);
    }
  }

  /** Sorting a list without repeated elements repeats none. */
  lemma SortByDistinct<T>(xs: seq<T>, key: T -> seq<int>)
    requires forall a, c :: 0 <= a < c < |xs| ==> xs[a] != xs[c]
    ensures var r := SortBy(xs, key);
            forall a, c :: 0 <= a < c < |r| ==> r[a] != r[c]
  {
    SortByStable(xs, key);
    var order := StableOrder(KeysOf(xs, key));
    var r := SortBy(xs, key);
    forall a, c | 0 <= a < c < |r| ensures r[a] != r[c] {
      assert r[a] == xs[order[a]] && r[c] == xs[order[c]];
      assert order[a] != order[c];
    }
  }

  /** Number of elements satisfying p. */
  function Count<T>(s: seq<T>, p: T -> bool): nat
  {
    if s == [] then 0 else (if p(s[0]) then 1 else 0) + Count(s[1..], p)
  }

  lemma {:induction false} CountAppend<T>(s: seq<T>, t: seq<T>, p: T -> bool)
    ensures Count(s + t, p) == Count(s, p) + Count(t, p)
    decreases |s|
  {
    if s != [] {
      assert (s + t)[0] == s[0] && (s + t)[1..] == s[1..] + t;
      CountAppend(s[1..], t, p);
    } else {
      assert s + t == t;
    }
  }

  /** A one-element sequence counts 1 exactly when its element satisfies p. */
  lemma CountOne<T>(x: T, p: T -> bool)
    ensures Count([x], p) == (if p(x) then 1 else 0)
  {
    assert [x][1..] == [];
  }

  /** No element satisfying p: a count of 0. */
  lemma {:induction false} CountNone<T>(s: seq<T>, p: T -> bool)
    requires forall i :: 0 <= i < |s| ==> !p(s[i])
    ensures Count(s, p) == 0
  {
    if s != [] {
      assert forall i :: 0 <= i < |s| - 1 ==> s[1..][i] == s[i + 1];
      CountNone(s[1..], p);
    }
  }

  /** Two sequences whose elements pair up position by position, p holding
      of one exactly where q holds of the other, have equal counts. */
  lemma {:induction false} CountPaired<T, U>(s: seq<T>, r: seq<U>, p: T -> bool, q: U -> bool)
    requires |r| == |s|
    requires forall k :: 0 <= k < |s| ==> (q(r[k]) <==> p(s[k]))
    ensures Count(r, q) == Count(s, p)
    decreases |s|
  {
    if s != [] {
      assert forall k :: 0 <= k < |s| - 1 ==> s[1..][k] == s[k + 1] && r[1..][k] == r[k + 1];
      CountPaired(s[1..], r[1..], p, q);
    }
  }

  /** Rearranging a sequence does not change how many of its elements satisfy p. */
  lemma {:induction false} CountMultiset<T>(a: seq<T>, b: seq<T>, p: T -> bool)
    requires multiset(a) == multiset(b)
    ensures Count(a, p) == Count(b, p)
    decreases |a|
  {
    if a == [] {
      assert |b| == |multiset(b)| == 0;
    } else {
      var x := a[0];
      assert x in multiset(b);
      var j :| 0 <= j < |b| && b[j] == x;
      var rest := b[..j] + b[j + 1..];
      assert b == b[..j] + [x] + b[j + 1..];
      assert a == [x] + a[1..];
      assert multiset(b) == multiset(b[..j]) + multiset{x} + multiset(b[j + 1..]);
      assert multiset(a) == multiset{x} + multiset(a[1..]);
      assert multiset(rest) == multiset(b[..j]) + multiset(b[j + 1..]);
      forall y ensures multiset(a[1..])[y] == multiset(rest)[y] {
        assert multiset(a)[y] == multiset{x}[y] + multiset(a[1..])[y];
        assert multiset(b)[y] == multiset(b[..j])[y] + multiset{x}[y] + multiset(b[j + 1..])[y];
      }
      assert multiset(a[1..]) == multiset(rest);
      CountMultiset(a[1..], rest, p);
      CountAppend(b[..j] + [x], b[j + 1..], p);
      CountAppend(b[..j], [x], p);
      CountAppend(b[..j], b[j + 1..], p);
      assert [x][1..] == [];
    }
  }

  /** The elements satisfying p, in order (a list comprehension with a condition). */
  function Filter<T(!new)>(s: seq<T>, p: T -> bool): (r: seq<T>)
    ensures |r| <= |s|
    ensures forall x :: x in r <==> x in s && p(x)
  {
    if s == [] then [] else (if p(s[0]) then [s[0]] else []) + Filter(s[1..], p)
  }

  lemma {:induction false} FilterAppend<T(!new)>(s: seq<T>, t: seq<T>, p: T -> bool)
    ensures Filter(s + t, p) == Filter(s, p) + Filter(t, p)
    decreases |s|
  {
    if s != [] {
      assert (s + t)[0] == s[0] && (s + t)[1..] == s[1..] + t;
      FilterAppend(s[1..], t, p);
    } else {
      assert s + t == t;
    }
  }

  /** Filtering a list whose every element satisfies p keeps it whole. */
  lemma {:induction false} FilterAll<T(!new)>(s: seq<T>, p: T -> bool)
    requires forall i :: 0 <= i < |s| ==> p(s[i])
    ensures Filter(s, p) == s
  {
    if s != [] {
      assert forall i :: 0 <= i < |s| - 1 ==> s[1..][i] == s[i + 1];
      FilterAll(s[1..], p);
    }
  }

  /** Filtering twice with the same condition is filtering once. */
  lemma {:induction false} FilterIdempotent<T(!new)>(s: seq<T>, p: T -> bool)
    ensures Filter(Filter(s, p), p) == Filter(s, p)
    decreases |s|
  {
    if s != [] {
      FilterIdempotent(s[1..], p);
      var head := if p(s[0]) then [s[0]] else [];
      FilterAppend(head, Filter(s[1..], p), p);
      if p(s[0]) {
        assert Filter(head, p) == head by { assert head[1..] == []; }
      }
    }
  }

  /** Filtering a list with no element satisfying p gives the empty list. */
  lemma {:induction false} FilterNone<T(!new)>(s: seq<T>, p: T -> bool)
    requires forall x :: x in s ==> !p(x)
    ensures Filter(s, p) == []
  {
    if s != [] {
      assert s[0] in s;
      assert forall x :: x in s[1..] ==> x in s;
      FilterNone(s[1..], p);
    }
  }

  /** Two lists that agree on the elements satisfying p, position by position,
      filter to the same list. */
  lemma {:induction false} FilterPointwise<T(!new)>(s: seq<T>, t: seq<T>, p: T -> bool)
    requires |s| == |t|
    requires forall i :: 0 <= i < |s| ==> (p(s[i]) <==> p(t[i]))
    requires forall i :: 0 <= i < |s| && p(s[i]) ==> s[i] == t[i]
    ensures Filter(s, p) == Filter(t, p)
    decreases |s|
  {
    if s != [] {
      assert p(s[0]) <==> p(t[0]);
      assert forall i :: 0 <= i < |s| - 1 ==> s[1..][i] == s[i + 1] && t[1..][i] == t[i + 1];
      FilterPointwise(s[1..], t[1..], p);
    }
  }

  /** `[i for i, x in enumerate(s) if p(x)]`: the positions satisfying p, ascending. */
  function Positions<T>(s: seq<T>, p: T -> bool): (r: seq<nat>)
    ensures forall a :: 0 <= a < |r| ==> r[a] < |s| && p(s[r[a]])
    ensures forall a, b :: 0 <= a < b < |r| ==> r[a] < r[b]
    ensures forall i :: 0 <= i < |s| && p(s[i]) ==> i in r
    decreases |s|
  {
    if s == [] then []
    else
      var n := |s| - 1;
      var front := Positions(s[..n], p);
      assert forall a :: 0 <= a < |front| ==> s[..n][front[a]] == s[front[a]];
      if p(s[n]) then front + [n] else front
  }

  /** The first position of s satisfying p (a `for ... return i` search, or
      `cand[0] if cand else None`). */
  function FirstWhere<T>(s: seq<T>, p: T -> bool): (r: Option<nat>)
    ensures r.Some? ==> r.value < |s| && p(s[r.value]) && forall j :: 0 <= j < r.value ==> !p(s[j])
    ensures r.None? ==> forall j :: 0 <= j < |s| ==> !p(s[j])
    decreases |s|
  {
    if s == [] then None
    else if p(s[0]) then Some(0)
    else match FirstWhere(s[1..], p)
      case None => None
      case Some(k) => Some(k + 1)
  }

  /** The last position of s satisfying p (`cand[-1]`). */
  function LastWhere<T>(s: seq<T>, p: T -> bool): (r: Option<nat>)
    ensures r.Some? ==> r.value < |s| && p(s[r.value]) && forall j :: r.value < j < |s| ==> !p(s[j])
    ensures r.None? ==> forall j :: 0 <= j < |s| ==> !p(s[j])
    decreases |s|
  {
    if s == [] then None
    else if p(s[|s| - 1]) then Some(|s| - 1)
    else LastWhere(s[..|s| - 1], p)
  }
}
