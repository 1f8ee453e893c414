/** The catalog route `GET /lv`: the searched items as rows, either flat in
    their order, or in tabs, one per catalog (the three known catalogs first)
    or one per (T1, T2) pair.  The items are the loader's result, given as a
    parameter. */
module LvRoutes {
  import opened Wrappers
  import opened Text
  import opened Elements
  import opened Order
  import opened LvLoader

  // ---------------------------------------------------------------------------
  // Rows
  // ---------------------------------------------------------------------------

  /** One row of the response; its key is the item's code. */
  datatype Row = Row(
    key: string, code: string, t1: string, t2: string, pos: string,
    description: Scalar, price: Option<Scalar>, unit: Option<Scalar>, catalog: string)

  /** `_as_row`: the item's fields, keyed by its code. */
  function AsRow(it: Item): (r: Row)
    ensures r.key == it.code && r.code == it.code
  {
    Row(it.code, it.code, it.t1, it.t2, it.pos, it.description, it.price, it.unit, it.catalog)
  }

  /** The item a row shows. */
  function ItemOf(r: Row): Item {
    Item(r.t1, r.t2, r.pos, r.description, r.price, r.unit, r.catalog, r.code)
  }

  /** A row shows all of its item: `ItemOf` undoes `AsRow`. */
  lemma RowShowsItem(it: Item)
    ensures ItemOf(AsRow(it)) == it
  {
  }

  /** `[_as_row(x) for x in xs]`. */
  function Rows(xs: seq<Item>): (r: seq<Row>)
    ensures |r| == |xs| && forall i :: 0 <= i < |xs| ==> r[i] == AsRow(xs[i])
  {
    seq(|xs|, i requires 0 <= i < |xs| => AsRow(xs[i]))
  }

  /** The items the rows show. */
  function ItemsOf(rs: seq<Row>): (r: seq<Item>)
    ensures |r| == |rs| && forall i :: 0 <= i < |rs| ==> r[i] == ItemOf(rs[i])
  {
    seq(|rs|, i requires 0 <= i < |rs| => ItemOf(rs[i]))
  }

  /** The rows show exactly the items they were made of, in order. */
  lemma ItemsOfRows(xs: seq<Item>)
    ensures ItemsOf(Rows(xs)) == xs
  {
    var ys := ItemsOf(Rows(xs));
    forall i | 0 <= i < |xs| ensures ys[i] == xs[i] {
      RowShowsItem(xs[i]);
    }
  }

  /** The flat format: one row per item, in item order, keyed by the code. */
  lemma FlatRows(xs: seq<Item>)
    ensures |Rows(xs)| == |xs|
    ensures forall i :: 0 <= i < |xs| ==> Rows(xs)[i].key == xs[i].code
    ensures ItemsOf(Rows(xs)) == xs
  {
    ItemsOfRows(xs);
  }

  // ---------------------------------------------------------------------------
  // Buckets
  // ---------------------------------------------------------------------------

  function CatalogOf(x: Item): string { x.catalog }

  function PairOf(x: Item): (string, string) { (x.t1, x.t2) }

  /** The items with key k, in item order; what `defaultdict(list)` collects. */
  function Bucket<K(==,!new)>(xs: seq<Item>, key: Item -> K, k: K): (r: seq<Item>)
    ensures |r| <= |xs|
    ensures forall x :: x in r <==> x in xs && key(x) == k
    decreases |xs|
  {
    if xs == [] then []
    else
      var n := |xs| - 1;
      assert xs == xs[..n] + [xs[n]];
      Bucket(xs[..n], key, k) + (if key(xs[n]) == k then [xs[n]] else [])
  }

  predicate Distinct<K(==,!new)>(s: seq<K>) {
    forall a, b :: 0 <= a < b < |s| ==> s[a] != s[b]
  }

  /** The keys of the items in the order they are first seen; the keys of a dict
      filled in item order. */
  function Firsts<K(==,!new)>(xs: seq<Item>, key: Item -> K): (r: seq<K>)
    ensures Distinct(r)
    ensures forall k :: k in r <==> exists x :: x in xs && key(x) == k
    decreases |xs|
  {
    if xs == [] then []
    else
      var n := |xs| - 1;
      var front := Firsts(xs[..n], key);
      assert xs == xs[..n] + [xs[n]];
      if key(xs[n]) in front then front
      else
        assert forall k :: k in front + [key(xs[n])] <==> k in front || k == key(xs[n]);
        front + [key(xs[n])]
  }

  /** A key not yet seen has no items. */
  lemma BucketEmpty<K(!new)>(xs: seq<Item>, key: Item -> K, k: K)
    requires k !in Firsts(xs, key)
    ensures Bucket(xs, key, k) == []
  {
  }

  /** One more item goes to the end of its own bucket. */
  lemma BucketSnoc<K(!new)>(xs: seq<Item>, i: nat, key: Item -> K)
    requires i < |xs|
    ensures forall k :: Bucket(xs[..i + 1], key, k)
                      == Bucket(xs[..i], key, k) + (if key(xs[i]) == k then [xs[i]] else [])
    ensures Firsts(xs[..i + 1], key)
            == Firsts(xs[..i], key) + (if key(xs[i]) in Firsts(xs[..i], key) then [] else [key(xs[i])])
  {
    assert xs[..i + 1][..i] == xs[..i];
  }

  /** The bucket loops of `get_lv`: each item appended to the list of its key. */
  method GroupBy<K(==,!new)>(items: seq<Item>, key: Item -> K) returns (groups: map<K, seq<Item>>, keys: seq<K>)
    ensures keys == Firsts(items, key)
    ensures forall k :: k in groups <==> k in keys
    ensures forall k :: k in groups ==> groups[k] == Bucket(items, key, k)
  {
    groups, keys := map[], [];
    var i := 0;
    while i < |items|
      invariant 0 <= i <= |items|
      invariant keys == Firsts(items[..i], key)
      invariant forall k :: k in groups <==> k in keys
      invariant forall k :: k in groups ==> groups[k] == Bucket(items[..i], key, k)
    {
      var x := items[i];
      var k := key(x);
      BucketSnoc(items, i, key);
      if k in groups {
        groups := groups[k := groups[k] + [x]];
      } else {
        BucketEmpty(items[..i], key, k);
        groups := groups[k := [x]];
        keys := keys + [k];
      }
      i := i + 1;
    }
    assert items[..i] == items;
  }

  // ---------------------------------------------------------------------------
  // Distinct sequences
  // ---------------------------------------------------------------------------

  /** A value in a distinct sequence occurs once. */
  lemma {:induction false} DistinctOnce<K(!new)>(s: seq<K>, v: K)
    requires Distinct(s)
    ensures multiset(s)[v] <= 1
    decreases |s|
  {
    if s != [] {
      var n := |s| - 1;
      assert s == s[..n] + [s[n]];
      assert Distinct(s[..n]);
      DistinctOnce(s[..n], v);
      if s[n] == v {
        assert v !in s[..n];
      }
    }
  }

  /** Two equal elements make a value occur twice. */
  lemma TwiceIn<K(!new)>(s: seq<K>, a: nat, b: nat)
    requires a < b < |s| && s[a] == s[b]
    ensures multiset(s)[s[a]] >= 2
  {
    assert s == s[..a] + [s[a]] + s[a + 1..b] + [s[b]] + s[b + 1..];
  }

  /** A permutation of a distinct sequence is distinct. */
  lemma DistinctPermutation<K(!new)>(s: seq<K>, t: seq<K>)
    requires Distinct(s) && multiset(s) == multiset(t)
    ensures Distinct(t)
  {
    forall a, b | 0 <= a < b < |t| ensures t[a] != t[b] {
      if t[a] == t[b] {
        TwiceIn(t, a, b);
        DistinctOnce(s, t[a]);
      }
    }
  }

  /** Filtering keeps a sequence distinct. */
  lemma {:induction false} DistinctFilter<K(!new)>(s: seq<K>, p: K -> bool)
    requires Distinct(s)
    ensures Distinct(Filter(s, p))
    decreases |s|
  {
    if s != [] {
      assert Distinct(s[1..]);
      DistinctFilter(s[1..], p);
      var rest := Filter(s[1..], p);
      assert s[0] !in s[1..];
      assert s[0] !in rest;
      var f := (if p(s[0]) then [s[0]] else []) + rest;
      assert Filter(s, p) == f;
      forall a, b | 0 <= a < b < |f| ensures f[a] != f[b] {
        if p(s[0]) && a == 0 {
          assert f[b] == rest[b - 1];
        }
      }
    }
  }

  // ---------------------------------------------------------------------------
  // The `catalogs` format
  // ---------------------------------------------------------------------------

  datatype Tab = Tab(key: string, title: string, rows: seq<Row>)

  /** The catalogs that always get a tab, in this order. */
  const Known: seq<string> := [RoadLabel, EarthLabel, PipeLabel]

  predicate NotKnown(c: string) { c !in Known }

  /** Rows within a catalog tab sort by (T1, T2, Pos) as text. */
  function RowKey(x: Item): seq<int> {
    Order.Str(x.t1) + Order.Str(x.t2) + Order.Str(x.pos)
  }

  /** The sort key of a row, as `RowKey` of its item. */
  function RowOrder(r: Row): seq<int> {
    Order.Str(r.t1) + Order.Str(r.t2) + Order.Str(r.pos)
  }

  /** The tab of one catalog: its key is the lower-cased name, its rows are
      the catalog's items sorted by `RowKey`. */
  function CatalogTab(items: seq<Item>, cat: string): Tab {
    Tab(LowerStr(cat), cat, Rows(SortBy(Bucket(items, CatalogOf, cat), RowKey)))
  }

  /** The tabs of the catalogs, in the order given. */
  function TabsFor(items: seq<Item>, cats: seq<string>): (r: seq<Tab>)
    ensures |r| == |cats| && forall i :: 0 <= i < |cats| ==> r[i] == CatalogTab(items, cats[i])
  {
    seq(|cats|, i requires 0 <= i < |cats| => CatalogTab(items, cats[i]))
  }

  /** The catalogs other than the known three, in ascending order. */
  function OtherCatalogs(items: seq<Item>): seq<string> {
    SortBy(Filter(Firsts(items, CatalogOf), NotKnown), Order.Str)
  }

  /** The `catalogs` format: the known tabs, then the tabs of the other
      catalogs. */
  function CatalogTabs(items: seq<Item>): seq<Tab> {
    TabsFor(items, Known + OtherCatalogs(items))
  }

  lemma TabsForAppend(items: seq<Item>, a: seq<string>, b: seq<string>)
    ensures TabsFor(items, a) + TabsFor(items, b) == TabsFor(items, a + b)
  {
  }

  /** One more catalog name adds its tab at the end. */
  lemma TabsForSnoc(items: seq<Item>, cats: seq<string>, i: nat)
    requires i < |cats|
    ensures TabsFor(items, cats[..i + 1]) == TabsFor(items, cats[..i]) + [CatalogTab(items, cats[i])]
  {
    assert cats[..i + 1] == cats[..i] + [cats[i]];
    TabsForAppend(items, cats[..i], [cats[i]]);
  }

  /** `groups.get(cat, [])` is the catalog's bucket. */
  lemma GroupOf(items: seq<Item>, groups: map<string, seq<Item>>, keys: seq<string>, cat: string)
    requires keys == Firsts(items, CatalogOf)
    requires forall k :: k in groups <==> k in keys
    requires forall k :: k in groups ==> groups[k] == Bucket(items, CatalogOf, k)
    ensures (if cat in groups then groups[cat] else []) == Bucket(items, CatalogOf, cat)
  {
    if cat !in groups {
      BucketEmpty(items, CatalogOf, cat);
    }
  }

  /** A loop of `get_lv` over catalog names: appends one tab per name, with
      the name's bucket (empty when no item has that catalog). */
  method AppendCatalogTabs(items: seq<Item>, groups: map<string, seq<Item>>, keys: seq<string>,
                           tabs0: seq<Tab>, cats: seq<string>) returns (tabs: seq<Tab>)
    requires keys == Firsts(items, CatalogOf)
    requires forall k :: k in groups <==> k in keys
    requires forall k :: k in groups ==> groups[k] == Bucket(items, CatalogOf, k)
    ensures tabs == tabs0 + TabsFor(items, cats)
  {
    tabs := tabs0;
    var i := 0;
    while i < |cats|
      invariant 0 <= i <= |cats|
      invariant tabs == tabs0 + TabsFor(items, cats[..i])
    {
      var cat := cats[i];
      var rows := if cat in groups then groups[cat] else [];
      GroupOf(items, groups, keys, cat);
      var tab := Tab(LowerStr(cat), cat, Rows(SortBy(rows, RowKey)));
      TabsForSnoc(items, cats, i);
      tabs := tabs + [tab];
      i := i + 1;
    }
    assert cats[..i] == cats;
  }

  /** `get_lv(format="catalogs")` over the found items. */
  method CatalogsFormat(items: seq<Item>) returns (tabs: seq<Tab>)
    ensures tabs == CatalogTabs(items)
  {
    var groups, keys := GroupBy(items, CatalogOf);
    var known := AppendCatalogTabs(items, groups, keys, [], Known);
    var rest := SortBy(Filter(keys, NotKnown), Order.Str);
    assert rest == OtherCatalogs(items);
    tabs := AppendCatalogTabs(items, groups, keys, known, rest);
    CatalogTabsSplit(items, known, tabs);
  }

  /** The known tabs, then the other catalogs' tabs. */
  lemma CatalogTabsSplit(items: seq<Item>, known: seq<Tab>, tabs: seq<Tab>)
    requires known == [] + TabsFor(items, Known)
    requires tabs == known + TabsFor(items, OtherCatalogs(items))
    ensures tabs == CatalogTabs(items)
  {
    assert known == TabsFor(items, Known);
    TabsForAppend(items, Known, OtherCatalogs(items));
  }

  /** The three known catalogs come first, in their fixed order, whether or
      not they have items. */
  lemma CatalogTabsHead(items: seq<Item>)
    ensures var tabs := CatalogTabs(items);
      |tabs| >= 3 && tabs[0].title == RoadLabel && tabs[1].title == EarthLabel && tabs[2].title == PipeLabel
  {
    var cats := Known + OtherCatalogs(items);
    assert cats[0] == RoadLabel && cats[1] == EarthLabel && cats[2] == PipeLabel;
  }

  /** Every tab's key is its title lower-cased. */
  lemma CatalogTabKeys(items: seq<Item>)
    ensures var tabs := CatalogTabs(items);
      forall i :: 0 <= i < |tabs| ==> tabs[i].key == LowerStr(tabs[i].title)
  {
  }

  /** The other catalogs: each is the catalog of some item, none is known,
      no name repeats, and they are in ascending order. */
  lemma OtherCatalogsFacts(items: seq<Item>)
    ensures var o := OtherCatalogs(items);
      && Distinct(o)
      && (forall c :: c in o ==> NotKnown(c) && exists x :: x in items && x.catalog == c)
      && (forall c :: NotKnown(c) && (exists x :: x in items && x.catalog == c) ==> c in o)
      && forall a, b :: 0 <= a < b < |o| ==> !Less(Order.Str(o[b]), Order.Str(o[a]))
  {
    var f := Filter(Firsts(items, CatalogOf), NotKnown);
    var o := OtherCatalogs(items);
    DistinctFilter(Firsts(items, CatalogOf), NotKnown);
    DistinctPermutation(f, o);
    forall c | c in o ensures c in f {
      assert c in multiset(o);
    }
    forall c | c in f ensures c in o {
      assert c in multiset(f);
    }
  }

  /** No two tabs have the same catalog. */
  lemma CatalogTitlesDistinct(items: seq<Item>)
    ensures var tabs := CatalogTabs(items);
      forall a, b :: 0 <= a < b < |tabs| ==> tabs[a].title != tabs[b].title
  {
    var o := OtherCatalogs(items);
    OthersDistinct(items);
    KnownDistinct();
    DistinctJoin(Known, o);
    var cats := Known + o;
    var tabs := CatalogTabs(items);
    forall a, b | 0 <= a < b < |tabs| ensures tabs[a].title != tabs[b].title {
      assert tabs[a].title == cats[a] && tabs[b].title == cats[b];
    }
  }

  lemma KnownDistinct()
    ensures Distinct(Known)
  {
  }

  lemma OthersDistinct(items: seq<Item>)
    ensures var o := OtherCatalogs(items);
      Distinct(o) && forall c :: c in o ==> c !in Known
  {
    OtherCatalogsFacts(items);
  }

  lemma DistinctJoin<K(!new)>(a: seq<K>, b: seq<K>)
    requires Distinct(a) && Distinct(b) && forall c :: c in b ==> c !in a
    ensures Distinct(a + b)
  {
    forall i, j | 0 <= i < j < |a + b| ensures (a + b)[i] != (a + b)[j] {
      if j >= |a| {
        assert (a + b)[j] == b[j - |a|] && b[j - |a|] in b;
        if i >= |a| {
          assert (a + b)[i] == b[i - |a|];
        } else {
          assert (a + b)[i] == a[i] && a[i] in a;
        }
      }
    }
  }

  /** The rows of a catalog's tab are that catalog's items, each once, sorted
      by (T1, T2, Pos). */
  lemma CatalogTabRows(items: seq<Item>, cat: string)
    ensures var t := CatalogTab(items, cat);
      && multiset(ItemsOf(t.rows)) == multiset(Bucket(items, CatalogOf, cat))
      && (forall r :: r in t.rows ==> r.catalog == cat)
      && forall a, b :: 0 <= a < b < |t.rows| ==> !Less(RowOrder(t.rows[b]), RowOrder(t.rows[a]))
  {
    var s := SortBy(Bucket(items, CatalogOf, cat), RowKey);
    ItemsOfRows(s);
    forall r | r in Rows(s) ensures r.catalog == cat {
      var i :| 0 <= i < |s| && Rows(s)[i] == r;
      assert s[i] in multiset(s);
      assert s[i] in Bucket(items, CatalogOf, cat);
    }
  }

  /** An item of key k has its row among the sorted rows of k's bucket. */
  lemma RowInBucket<K(!new)>(items: seq<Item>, key: Item -> K, x: Item, order: Item -> seq<int>)
    requires x in items
    ensures AsRow(x) in Rows(SortBy(Bucket(items, key, key(x)), order))
  {
    var b := Bucket(items, key, key(x));
    var s := SortBy(b, order);
    assert x in s by {
      assert x in b;
      assert x in multiset(s);
    }
    var k :| 0 <= k < |s| && s[k] == x;
    assert Rows(s)[k] == AsRow(x);
  }

  /** The position of an item's catalog among the tab names. */
  lemma CatalogIndex(items: seq<Item>, x: Item) returns (i: nat)
    requires x in items
    ensures i < |Known + OtherCatalogs(items)| && (Known + OtherCatalogs(items))[i] == x.catalog
  {
    var o := OtherCatalogs(items);
    if x.catalog in Known {
      i :| 0 <= i < |Known| && Known[i] == x.catalog;
      assert (Known + o)[i] == Known[i];
    } else {
      OtherCatalogsHas(items, x);
      var j :| 0 <= j < |o| && o[j] == x.catalog;
      i := |Known| + j;
      assert (Known + o)[i] == o[j];
    }
  }

  /** An item whose catalog is not a known one names one of the other catalogs. */
  lemma OtherCatalogsHas(items: seq<Item>, x: Item)
    requires x in items && x.catalog !in Known
    ensures x.catalog in OtherCatalogs(items)
  {
    OtherCatalogsFacts(items);
    assert NotKnown(x.catalog);
  }

  /** Every item has its row in the tab of its catalog. */
  lemma CatalogTabsCover(items: seq<Item>, x: Item)
    requires x in items
    ensures var tabs := CatalogTabs(items);
      exists i :: 0 <= i < |tabs| && tabs[i].title == x.catalog && AsRow(x) in tabs[i].rows
  {
    var i := CatalogIndex(items, x);
    RowInBucket(items, CatalogOf, x, RowKey);
    assert CatalogTabs(items)[i] == CatalogTab(items, x.catalog);
  }

  // ---------------------------------------------------------------------------
  // The `tabs` format
  // ---------------------------------------------------------------------------

  /** (T1, T2) pairs sort as pairs of texts. */
  function PairKey(p: (string, string)): seq<int> {
    Order.Str(p.0) + Order.Str(p.1)
  }

  /** Rows within a (T1, T2) tab sort by Pos as text. */
  function PosKey(x: Item): seq<int> { Order.Str(x.pos) }

  /** The tab of one (T1, T2) pair: key "T1-T2", title "T1.T2". */
  function PairTab(items: seq<Item>, p: (string, string)): Tab {
    Tab(p.0 + "-" + p.1, p.0 + "." + p.1, Rows(SortBy(Bucket(items, PairOf, p), PosKey)))
  }

  /** The pairs of the items, in ascending order. */
  function Pairs(items: seq<Item>): seq<(string, string)> {
    SortBy(Firsts(items, PairOf), PairKey)
  }

  /** The tabs of the pairs, in the order given. */
  function PairTabsFor(items: seq<Item>, ps: seq<(string, string)>): (r: seq<Tab>)
    ensures |r| == |ps| && forall i :: 0 <= i < |ps| ==> r[i] == PairTab(items, ps[i])
  {
    seq(|ps|, i requires 0 <= i < |ps| => PairTab(items, ps[i]))
  }

  /** The default `tabs` format: one tab per pair, in pair order. */
  function PairTabs(items: seq<Item>): seq<Tab> {
    PairTabsFor(items, Pairs(items))
  }

  /** One more pair adds its tab at the end. */
  lemma PairTabsSnoc(items: seq<Item>, ps: seq<(string, string)>, i: nat)
    requires i < |ps|
    ensures PairTabsFor(items, ps[..i + 1]) == PairTabsFor(items, ps[..i]) + [PairTab(items, ps[i])]
  {
    assert ps[..i + 1] == ps[..i] + [ps[i]];
  }

  /** Every sorted pair has its bucket in the groups. */
  lemma PairGroup(items: seq<Item>, groups: map<(string, string), seq<Item>>, keys: seq<(string, string)>, p: (string, string))
    requires forall k :: k in groups <==> k in keys
    requires forall k :: k in groups ==> groups[k] == Bucket(items, PairOf, k)
    requires p in SortBy(keys, PairKey)
    ensures p in groups && groups[p] == Bucket(items, PairOf, p)
  {
    assert p in multiset(SortBy(keys, PairKey));
  }

  /** `get_lv(format="tabs")` over the found items. */
  method PairsFormat(items: seq<Item>) returns (tabs: seq<Tab>)
    ensures tabs == PairTabs(items)
  {
    var groups, keys := GroupBy(items, PairOf);
    var ps := SortBy(keys, PairKey);
    tabs := [];
    var i := 0;
    while i < |ps|
      invariant 0 <= i <= |ps|
      invariant tabs == PairTabsFor(items, ps[..i])
    {
      var p := ps[i];
      PairGroup(items, groups, keys, p);
      var rows := groups[p];
      var tab := Tab(p.0 + "-" + p.1, p.0 + "." + p.1, Rows(SortBy(rows, PosKey)));
      PairTabsSnoc(items, ps, i);
      tabs := tabs + [tab];
      i := i + 1;
    }
    assert ps[..i] == ps;
  }

  /** The pairs are those of the items, each once, in ascending order. */
  lemma PairsFacts(items: seq<Item>)
    ensures var ps := Pairs(items);
      && Distinct(ps)
      && (forall p :: p in ps <==> exists x :: x in items && PairOf(x) == p)
      && forall a, b :: 0 <= a < b < |ps| ==> !Less(PairKey(ps[b]), PairKey(ps[a]))
  {
    var f := Firsts(items, PairOf);
    var ps := Pairs(items);
    DistinctPermutation(f, ps);
    forall p | p in ps ensures p in f {
      assert p in multiset(ps);
    }
    forall p | p in f ensures p in ps {
      assert p in multiset(f);
    }
  }

  /** The rows of a pair's tab are the items of that pair, each once, sorted
      by Pos. */
  lemma PairTabRows(items: seq<Item>, p: (string, string))
    ensures var t := PairTab(items, p);
      && multiset(ItemsOf(t.rows)) == multiset(Bucket(items, PairOf, p))
      && (forall r :: r in t.rows ==> r.t1 == p.0 && r.t2 == p.1)
      && forall a, b :: 0 <= a < b < |t.rows| ==> !Less(Order.Str(t.rows[b].pos), Order.Str(t.rows[a].pos))
  {
    var s := SortBy(Bucket(items, PairOf, p), PosKey);
    ItemsOfRows(s);
    forall r | r in Rows(s) ensures r.t1 == p.0 && r.t2 == p.1 {
      var i :| 0 <= i < |s| && Rows(s)[i] == r;
      assert s[i] in multiset(s);
      assert s[i] in Bucket(items, PairOf, p);
    }
  }

  /** Every item has its row in the tab of its pair. */
  lemma PairTabsCover(items: seq<Item>, x: Item)
    requires x in items
    ensures var tabs := PairTabs(items);
      exists i :: 0 <= i < |tabs| && tabs[i].title == x.t1 + "." + x.t2 && AsRow(x) in tabs[i].rows
  {
    PairsFacts(items);
    var ps := Pairs(items);
    assert PairOf(x) in ps;
    var i :| 0 <= i < |ps| && ps[i] == PairOf(x);
    RowInBucket(items, PairOf, x, PosKey);
    assert PairTabs(items)[i] == PairTab(items, PairOf(x));
  }

  // ---------------------------------------------------------------------------
  // The route
  // ---------------------------------------------------------------------------

  /** The `format` parameter; the route accepts no other value. */
  datatype Format = Tabs | Flat | Catalogs

  datatype Response = RowList(rows: seq<Row>) | TabList(tabs: seq<Tab>)

  /** `get_lv(q, t1, t2, format)` over the loaded items: the search (with no
      catalog filter) and then the format's rows or tabs; a failing search
      fails the request. */
  method GetLv(items: seq<Item>, q: string, t1: string, t2: string, format: Format)
    returns (r: Result<Response, SearchError>)
    ensures r.Failure? <==> SearchLv(items, Query(q, t1, t2, "")).Failure?
    ensures r.Success? ==> var found := SearchLv(items, Query(q, t1, t2, "")).value;
      && (format == Flat ==> r.value == RowList(Rows(found)))
      && (format == Catalogs ==> r.value == TabList(CatalogTabs(found)))
      && (format == Tabs ==> r.value == TabList(PairTabs(found)))
  {
    var s := SearchLv(items, Query(q, t1, t2, ""));
    if s.Failure? {
      return Failure(s.error);
    }
    var found := s.value;
    if format == Flat {
      return Success(RowList(Rows(found)));
    }
    if format == Catalogs {
      var tabs := CatalogsFormat(found);
      return Success(TabList(tabs));
    }
    var tabs := PairsFormat(found);
    return Success(TabList(tabs));
  }
}
