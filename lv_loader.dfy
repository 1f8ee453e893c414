/** The LV (Leistungsverzeichnis) price catalogs: the configured file list,
    the tab label of a catalog file, the normalisation of a raw catalog item,
    the loader's sort order, and the search over the loaded items.  File
    contents are given to the loader as values; reading the files and the
    loader's cache are not modelled. */
module LvLoader {
  import opened Wrappers
  import opened Text
  import opened Elements
  import opened Order
  import opened Json

  // ---------------------------------------------------------------------------
  // The configured files
  // ---------------------------------------------------------------------------

  const DefaultFiles: seq<string> := [
    "app/specifications/2_preiskatalog-strassenbauarbeiten.json",
    "app/specifications/3_preiskatalog-erdarbeiten.json",
    "app/specifications/5_preiskatalog-rohrleitungsarbeiten.json"
  ]

  /** `s.split(sep)` for a one-character separator. */
  function SplitOn(s: string, sep: char): (r: seq<string>)
    ensures |r| >= 1
    ensures forall k :: 0 <= k < |r| ==> sep !in r[k]
    decreases |s|
  {
    var i := IndexOf(s, sep);
    if i == |s| then [s] else [s[..i]] + SplitOn(s[i + 1..], sep)
  }

  /** Splitting on a separator and joining with it again gives the text back. */
  lemma {:induction false} SplitOnJoin(s: string, sep: char)
    ensures Join(SplitOn(s, sep), [sep]) == s
    decreases |s|
  {
    var i := IndexOf(s, sep);
    if i < |s| {
      var rest := SplitOn(s[i + 1..], sep);
      SplitOnJoin(s[i + 1..], sep);
      assert SplitOn(s, sep) == [s[..i]] + rest;
      assert ([s[..i]] + rest)[1..] == rest;
      assert s == s[..i] + [sep] + s[i + 1..];
    }
  }

  predicate NonEmpty(p: string) { p != [] }

  /** The file list: the non-empty comma-separated parts of the `LV_FILES`
      setting, or the three default catalogs when there are none. */
  function ConfiguredFiles(setting: string): (r: seq<string>)
    ensures |r| > 0 && forall k :: 0 <= k < |r| ==> r[k] != []
    ensures Filter(SplitOn(setting, ','), NonEmpty) == [] ==> r == DefaultFiles
    ensures Filter(SplitOn(setting, ','), NonEmpty) != [] ==> r == Filter(SplitOn(setting, ','), NonEmpty)
  {
    var parts := Filter(SplitOn(setting, ','), NonEmpty);
    if parts == [] then DefaultFiles
    else
      assert forall k :: 0 <= k < |parts| ==> parts[k] in parts;
      parts
  }

  /** The parts of a setting without empty parts are exactly the files configured. */
  lemma {:induction false} ConfiguredJoin(files: seq<string>)
    requires files != [] && forall k :: 0 <= k < |files| ==> files[k] != [] && ',' !in files[k]
    ensures ConfiguredFiles(Join(files, ",")) == files
  {
    SplitJoined(files);
    ConfiguredOf(Join(files, ","), files);
  }

  lemma ConfiguredOf(setting: string, parts: seq<string>)
    requires parts != [] && forall k :: 0 <= k < |parts| ==> parts[k] != []
    requires SplitOn(setting, ',') == parts
    ensures ConfiguredFiles(setting) == parts
  {
    FilterAll(parts, NonEmpty);
  }

  lemma SplitJoined(files: seq<string>)
    requires files != [] && forall k :: 0 <= k < |files| ==> ',' !in files[k]
    ensures SplitOn(Join(files, ","), ',') == files
  {
    assert "," == [','];
    JoinSplitOn(files, ',');
  }

  /** Joining parts free of the separator and splitting again gives the parts back. */
  lemma {:induction false} JoinSplitOn(parts: seq<string>, sep: char)
    requires parts != [] && forall k :: 0 <= k < |parts| ==> sep !in parts[k]
    ensures SplitOn(Join(parts, [sep]), sep) == parts
    decreases |parts|
  {
    if |parts| == 1 {
      assert Join(parts, [sep]) == parts[0];
    } else {
      var p, rest := parts[0], Join(parts[1..], [sep]);
      assert Join(parts, [sep]) == p + [sep] + rest;
      SplitAfter(p, rest, sep);
      JoinSplitOn(parts[1..], sep);
      assert parts == [p] + parts[1..];
    }
  }

  /** Splitting a first part free of the separator off the front. */
  lemma SplitAfter(p: string, rest: string, sep: char)
    requires sep !in p
    ensures SplitOn(p + [sep] + rest, sep) == [p] + SplitOn(rest, sep)
  {
    var s := p + [sep] + rest;
    assert s[..|p|] == p;
    IndexIs(s, sep, |p|);
    assert s[|p| + 1..] == rest;
  }

  lemma IndexIs(s: string, c: char, i: nat)
    requires i < |s| && s[i] == c && c !in s[..i]
    ensures IndexOf(s, c) == i
  {
  }

  // ---------------------------------------------------------------------------
  // Catalog labels
  // ---------------------------------------------------------------------------

  /** `Path(path).name`: the text after the last '/'. */
  function FileName(path: string): (r: string)
    ensures '/' !in r && EndsWith(path, r)
    ensures |r| < |path| ==> path[|path| - |r| - 1] == '/'
    decreases |path|
  {
    if path == [] then []
    else if path[|path| - 1] == '/' then []
    else
      var r := FileName(path[..|path| - 1]);
      NameStep(path, r);
      r + [path[|path| - 1]]
  }

  /** A name of the path without its last character, followed by that
      character, is a name of the path. */
  lemma NameStep(path: string, r: string)
    requires path != [] && path[|path| - 1] != '/'
    requires '/' !in r && EndsWith(path[..|path| - 1], r)
    requires |r| < |path| - 1 ==> path[..|path| - 1][|path| - 1 - |r| - 1] == '/'
    ensures var n := r + [path[|path| - 1]];
            '/' !in n && EndsWith(path, n) && (|n| < |path| ==> path[|path| - |n| - 1] == '/')
  {
    var m := |path| - 1;
    assert path[..m][m - |r|..] == path[m - |r|..m];
    assert path[m - |r|..] == path[m - |r|..m] + [path[m]];
  }

  /** `Path.stem`: the name without its last suffix; a leading dot or a final
      dot does not start a suffix. */
  function Stem(name: string): (r: string)
    ensures StartsWith(name, r)
  {
    var i := LastDot(name);
    if 0 < i < |name| - 1 then name[..i] else name
  }

  /** Position of the last '.' of s, or |s| when there is none. */
  function LastDot(s: string): (i: nat)
    ensures i <= |s|
    ensures i < |s| ==> s[i] == '.' && '.' !in s[i + 1..]
    ensures i == |s| ==> '.' !in s
    decreases |s|
  {
    if s == [] then 0
    else if s[|s| - 1] == '.' then |s| - 1
    else
      var j := LastDot(s[..|s| - 1]);
      if j == |s| - 1 then |s|
      else
        assert s[j + 1..] == s[..|s| - 1][j + 1..] + [s[|s| - 1]];
        j
  }

  const RoadLabel := "Straßenbauarbeiten"
  const EarthLabel := "Erdarbeiten"
  const PipeLabel := "Rohrleitungsarbeiten"

  /** The key words of the three catalogs, tested in this order. */
  predicate RoadName(n: string) {
    Contains(n, "strassenbau") || Contains(n, "straßenbau")
  }

  predicate EarthName(n: string) {
    Contains(n, "erdarbeit")
  }

  predicate PipeName(n: string) {
    Contains(n, "rohrleitungs") || Contains(n, "rohrleitung")
  }

  /** The catalog a file's items belong to, decided by key words of the file
      name in lower case and in this order; otherwise the file's stem. */
  function LabelForFile(path: string): (r: string)
    ensures var n := LowerStr(FileName(path));
      && (RoadName(n) ==> r == RoadLabel)
      && ((!RoadName(n) && EarthName(n)) ==> r == EarthLabel)
      && ((!RoadName(n) && !EarthName(n) && PipeName(n)) ==> r == PipeLabel)
      && ((!RoadName(n) && !EarthName(n) && !PipeName(n)) ==> r == Stem(FileName(path)))
  {
    var name := LowerStr(FileName(path));
    if RoadName(name) then RoadLabel
    else if EarthName(name) then EarthLabel
    else if PipeName(name) then PipeLabel
    else Stem(FileName(path))
  }

  /** The first pipe-work word is covered by the second: a name is a pipe-work
      name exactly when it holds "rohrleitung". */
  lemma PipeWordCovered(n: string)
    ensures PipeName(n) <==> Contains(n, "rohrleitung")
  {
    if Contains(n, "rohrleitungs") {
      LongerWord(n);
    }
  }

  lemma LongerWord(n: string)
    requires Contains(n, "rohrleitungs")
    ensures Contains(n, "rohrleitung")
  {
    ContainsAt(n, "rohrleitungs");
    var i: nat :| OccursAt(n, "rohrleitungs", i);
    assert n[i..i + 11] == n[i..i + 12][..11];
    assert OccursAt(n, "rohrleitung", i);
    ContainsAt(n, "rohrleitung");
  }

  // ---------------------------------------------------------------------------
  // Items
  // ---------------------------------------------------------------------------

  /** A catalog item as stored in a catalog file: the keys the loader reads. */
  datatype RawItem = RawItem(
    t1: Field, t2: Field, pos: Field,
    description: Field, beschreibung: Field, text: Field,
    price: Field, einheitspreis: Field,
    unit: Field, einheit: Field)

  /** A normalised item: T1, T2 and Pos as stripped text, the first truthy
      description (or ""), price and unit (or None), the catalog label and
      the code "T1.T2.Pos". */
  datatype Item = Item(
    t1: string, t2: string, pos: string,
    description: Scalar, price: Option<Scalar>, unit: Option<Scalar>,
    catalog: string, code: string)

  /** `str(it.get(key, "")).strip()`. */
  function Part(f: Field, fmt: real -> string): string {
    StripRec(FieldText(f, fmt))
  }

  /** `description or Beschreibung or text or ""`: a truthy value, or "". */
  function Description(it: RawItem): (d: Scalar)
    ensures Truthy(d) || d == Str("")
  {
    Or(it.description, Or(it.beschreibung, Or(it.text, None))).GetOr(Str(""))
  }

  /** `price or Einheitspreis or None`: a truthy value, or None. */
  function Price(it: RawItem): (p: Option<Scalar>)
    ensures p.Some? ==> Truthy(p.value)
  {
    Or(it.price, Or(it.einheitspreis, None))
  }

  /** `unit or Einheit or None`: a truthy value, or None. */
  function UnitOf(it: RawItem): (u: Option<Scalar>)
    ensures u.Some? ==> Truthy(u.value)
  {
    Or(it.unit, Or(it.einheit, None))
  }

  function NormalizeItem(it: RawItem, catalog: string, fmt: real -> string): Item
  {
    var t1, t2, pos := Part(it.t1, fmt), Part(it.t2, fmt), Part(it.pos, fmt);
    Item(t1, t2, pos, Description(it), Price(it), UnitOf(it), catalog, t1 + "." + t2 + "." + pos)
  }

  /** T1, T2 and Pos are stripped, and the code joins them with dots. */
  lemma ItemCode(it: RawItem, catalog: string, fmt: real -> string)
    ensures var r := NormalizeItem(it, catalog, fmt);
      r.t1 == Strip(FieldText(it.t1, fmt)) && r.t2 == Strip(FieldText(it.t2, fmt))
      && r.pos == Strip(FieldText(it.pos, fmt))
      && r.code == r.t1 + "." + r.t2 + "." + r.pos && r.catalog == catalog
  {
    PartIsStrip(it.t1, fmt);
    PartIsStrip(it.t2, fmt);
    PartIsStrip(it.pos, fmt);
  }

  lemma PartIsStrip(f: Field, fmt: real -> string)
    ensures Part(f, fmt) == Strip(FieldText(f, fmt))
  {
    StripRecIsStrip(FieldText(f, fmt));
  }

  /** A price or unit that is falsy (0, "", false, null or missing) under both
      keys is stored as None. */
  lemma FalsyPriceDropped(it: RawItem, catalog: string, fmt: real -> string)
    requires !FieldTruthy(it.price) && !FieldTruthy(it.einheitspreis)
    ensures NormalizeItem(it, catalog, fmt).price == None
  {
  }

  /** The first key wins: a truthy value under the primary key is kept even
      when the alternative keys hold something else. */
  lemma PrimaryKeysWin(it: RawItem, catalog: string, fmt: real -> string)
    requires FieldTruthy(it.description) && FieldTruthy(it.price) && FieldTruthy(it.unit)
    ensures var r := NormalizeItem(it, catalog, fmt);
      r.description == it.description.v && r.price == Some(it.price.v) && r.unit == Some(it.unit.v)
  {
  }

  /** Text that ends at the first c of a + [c] + b. */
  lemma FirstSplit(a: string, c: char, b: string)
    requires c !in a
    ensures IndexOf(a + [c] + b, c) == |a|
    ensures (a + [c] + b)[..|a|] == a && (a + [c] + b)[|a| + 1..] == b
  {
    var s := a + [c] + b;
    assert s[..|a|] == a;
    IndexIs(s, c, |a|);
  }

  /** The code falls apart again into T1, T2 and Pos at its first two dots,
      when T1 and T2 hold no dot. */
  lemma CodeSplits(t1: string, t2: string, pos: string)
    requires '.' !in t1 && '.' !in t2
    ensures var code := t1 + "." + t2 + "." + pos;
      var i := IndexOf(code, '.');
      var rest := code[i + 1..];
      var j := IndexOf(rest, '.');
      i < |code| && code[..i] == t1 && j < |rest| && rest[..j] == t2 && rest[j + 1..] == pos
  {
    var code := t1 + "." + t2 + "." + pos;
    assert code == t1 + ['.'] + (t2 + ['.'] + pos);
    FirstSplit(t1, '.', t2 + ['.'] + pos);
    FirstSplit(t2, '.', pos);
  }

  /** An item written back to JSON, as the loader's output would be stored. */
  function AsRaw(x: Item): (it: RawItem)
    ensures it.t1 == Val(Str(x.t1)) && it.t2 == Val(Str(x.t2)) && it.pos == Val(Str(x.pos))
  {
    RawItem(Val(Str(x.t1)), Val(Str(x.t2)), Val(Str(x.pos)),
            Val(x.description), Absent, Absent,
            OptField(x.price), Absent, OptField(x.unit), Absent)
  }

  /** Normalisation is idempotent: a normalised item, stored and normalised
      again under the same catalog, is unchanged. */
  lemma NormalizeIdempotent(it: RawItem, catalog: string, fmt: real -> string)
    ensures var r := NormalizeItem(it, catalog, fmt);
      NormalizeItem(AsRaw(r), catalog, fmt) == r
  {
    var r := NormalizeItem(it, catalog, fmt);
    StoredText(FieldText(it.t1, fmt), fmt);
    StoredText(FieldText(it.t2, fmt), fmt);
    StoredText(FieldText(it.pos, fmt), fmt);
    StoredDescription(r.description);
    StoredOption(r.price);
    StoredOption(r.unit);
    var s := NormalizeItem(AsRaw(r), catalog, fmt);
    assert s.t1 == r.t1 && s.t2 == r.t2 && s.pos == r.pos;
  }

  /** A stripped text, stored as a string, reads back as itself. */
  lemma StoredText(t: string, fmt: real -> string)
    ensures Part(Val(Str(StripRec(t))), fmt) == StripRec(t)
  {
    StripRecIsStrip(t);
    StripIdempotent(t);
    StripRecIsStrip(Strip(t));
  }

  /** A stored description reads back as itself. */
  lemma StoredDescription(d: Scalar)
    requires Truthy(d) || d == Str("")
    ensures Or(Val(d), Or(Absent, Or(Absent, None))).GetOr(Str("")) == d
  {
  }

  /** A stored price or unit reads back as itself. */
  lemma StoredOption(v: Option<Scalar>)
    requires v.Some? ==> Truthy(v.value)
    ensures Or(OptField(v), Or(Absent, None)) == v
  {
  }

  // ---------------------------------------------------------------------------
  // The loader's sort key
  // ---------------------------------------------------------------------------

  const NoNumber := 1000000000

  /** The loader's `to_int`: the integer value, or 10**9 where `int` raises. */
  function ToInt(s: string): (n: int)
    ensures ParseInt(s).Some? ==> n == ParseInt(s).value
    ensures ParseInt(s).None? ==> n == NoNumber
  {
    ParseInt(s).GetOr(NoNumber)
  }

  /** The sort key (catalog, to_int(T1), to_int(T2), to_int(Pos)), encoded. */
  function LoadKey(x: Item): seq<int>
  {
    Order.Str(x.catalog) + [ToInt(x.t1), ToInt(x.t2), ToInt(x.pos)]
  }

  /** Order of two keys: first by catalog name, then by the three numbers. */
  lemma LoadKeyLess(x: Item, y: Item)
    ensures Less(LoadKey(x), LoadKey(y)) <==>
      StrLess(x.catalog, y.catalog)
      || (x.catalog == y.catalog && Less([ToInt(x.t1), ToInt(x.t2), ToInt(x.pos)],
                                         [ToInt(y.t1), ToInt(y.t2), ToInt(y.pos)]))
  {
    StrThenLess(x.catalog, [ToInt(x.t1), ToInt(x.t2), ToInt(x.pos)],
                y.catalog, [ToInt(y.t1), ToInt(y.t2), ToInt(y.pos)]);
  }

  /** Within a catalog, an item whose T1 is a number below 10**9 sorts
      before an item whose T1 is no number. */
  lemma NumbersFirst(x: Item, y: Item, n: nat)
    requires x.catalog == y.catalog && ParseInt(x.t1) == Some(n) && n < NoNumber
    requires ParseInt(y.t1).None?
    ensures Less(LoadKey(x), LoadKey(y))
  {
    LoadKeyLess(x, y);
    LessIrreflexive(Order.Str(x.catalog));
  }

  // ---------------------------------------------------------------------------
  // Loading
  // ---------------------------------------------------------------------------

  /** An element of a catalog file's array: an object, or anything else. */
  datatype Entry = Obj(item: RawItem) | NonObject

  /** A catalog file: missing, unreadable (not UTF-8 text or not JSON), a
      JSON value that is no array, or an array. */
  datatype Content = Missing | Unreadable | NotList | List(entries: seq<Entry>)

  datatype LvFile = LvFile(path: string, content: Content)

  /** The missing file is reported as such; every other failure while
      reading a file is reported as a loading failure of that file. */
  datatype LoadError = FileMissing(path: string) | LoadFailed(path: string)

  /** Every entry of the array is an object. */
  predicate AllObj(entries: seq<Entry>) {
    forall k :: 0 <= k < |entries| ==> entries[k].Obj?
  }

  predicate Loads(f: LvFile) {
    f.content.List? && AllObj(f.content.entries)
  }

  /** Every file loads. */
  predicate AllLoad(files: seq<LvFile>) {
    forall k :: 0 <= k < |files| ==> Loads(files[k])
  }

  /** File k is the first file that does not load. */
  predicate FirstBad(files: seq<LvFile>, k: int) {
    0 <= k < |files| && !Loads(files[k]) && AllLoad(files[..k])
  }

  /** The items are in ascending `LoadKey` order. */
  predicate LoadOrdered(items: seq<Item>) {
    forall a, b :: 0 <= a < b < |items| ==> !Less(LoadKey(items[b]), LoadKey(items[a]))
  }

  function FileError(f: LvFile): (e: LoadError)
  {
    if f.content.Missing? then FileMissing(f.path) else LoadFailed(f.path)
  }

  /** The items of an array of objects, normalised under one catalog. */
  function Normalized(entries: seq<Entry>, catalog: string, fmt: real -> string): (r: seq<Item>)
    requires AllObj(entries)
    ensures |r| == |entries|
  {
    if entries == [] then []
    else
      var n := |entries| - 1;
      Normalized(entries[..n], catalog, fmt) + [NormalizeItem(entries[n].item, catalog, fmt)]
  }

  /** Every normalised item carries the catalog it was normalised under. */
  lemma {:induction false} NormalizedCatalog(entries: seq<Entry>, catalog: string, fmt: real -> string, x: Item)
    requires AllObj(entries)
    requires x in Normalized(entries, catalog, fmt)
    ensures x.catalog == catalog
    decreases |entries|
  {
    var n := |entries| - 1;
    if x in Normalized(entries[..n], catalog, fmt) {
      NormalizedCatalog(entries[..n], catalog, fmt, x);
    }
  }

  /** The items of one loadable file, normalised under the file's label. */
  function FileItems(f: LvFile, fmt: real -> string): (r: seq<Item>)
    requires Loads(f)
    ensures |r| == |f.content.entries|
  {
    Normalized(f.content.entries, LabelForFile(f.path), fmt)
  }

  /** The items of the files, in file order, before sorting. */
  function Gathered(files: seq<LvFile>, fmt: real -> string): (r: seq<Item>)
    requires AllLoad(files)
    decreases |files|
  {
    if files == [] then []
    else Gathered(files[..|files| - 1], fmt) + FileItems(files[|files| - 1], fmt)
  }

  /** Every gathered item comes from a file and carries that file's label. */
  lemma {:induction false} GatheredCatalogs(files: seq<LvFile>, fmt: real -> string, x: Item)
    requires AllLoad(files)
    requires x in Gathered(files, fmt)
    ensures exists k :: 0 <= k < |files| && x.catalog == LabelForFile(files[k].path)
    decreases |files|
  {
    var n := |files| - 1;
    var front := files[..n];
    if x in Gathered(front, fmt) {
      GatheredCatalogs(front, fmt, x);
      var k :| 0 <= k < |front| && x.catalog == LabelForFile(front[k].path);
      assert files[k] == front[k];
    } else {
      NormalizedCatalog(files[n].content.entries, LabelForFile(files[n].path), fmt, x);
    }
  }

  /** The number of array entries of the files. */
  function EntryCount(files: seq<LvFile>): nat
    decreases |files|
  {
    if files == [] then 0
    else EntryCount(files[..|files| - 1])
         + (if files[|files| - 1].content.List? then |files[|files| - 1].content.entries| else 0)
  }

  /** Every array entry gives one item. */
  lemma {:induction false} GatheredCount(files: seq<LvFile>, fmt: real -> string)
    requires AllLoad(files)
    ensures |Gathered(files, fmt)| == EntryCount(files)
    decreases |files|
  {
    if files != [] {
      GatheredCount(files[..|files| - 1], fmt);
    }
  }

  /** One more object entry adds its normalised item at the end. */
  lemma NormalizedSnoc(entries: seq<Entry>, j: nat, catalog: string, fmt: real -> string)
    requires j < |entries| && AllObj(entries[..j]) && entries[j].Obj?
    ensures AllObj(entries[..j + 1])
    ensures Normalized(entries[..j + 1], catalog, fmt)
            == Normalized(entries[..j], catalog, fmt) + [NormalizeItem(entries[j].item, catalog, fmt)]
  {
    assert entries[..j + 1][..j] == entries[..j];
  }

  /** The inner loop of `load_lv`: appends the normalised entries of one
      array, and fails at the first entry that is no object. */
  method AppendEntries(data: seq<Item>, entries: seq<Entry>, catalog: string, fmt: real -> string)
    returns (ok: bool, out: seq<Item>)
    ensures ok <==> AllObj(entries)
    ensures ok ==> out == data + Normalized(entries, catalog, fmt)
  {
    out := data;
    var j := 0;
    while j < |entries|
      invariant 0 <= j <= |entries|
      invariant AllObj(entries[..j])
      invariant out == data + Normalized(entries[..j], catalog, fmt)
    {
      if !entries[j].Obj? {
        return false, out;
      }
      NormalizedSnoc(entries, j, catalog, fmt);
      out := out + [NormalizeItem(entries[j].item, catalog, fmt)];
      j := j + 1;
    }
    ok := true;
    assert entries[..j] == entries;
  }

  /** One more loadable file adds its items at the end. */
  lemma GatheredSnoc(files: seq<LvFile>, i: nat, fmt: real -> string)
    requires i < |files| && AllLoad(files[..i]) && Loads(files[i])
    ensures AllLoad(files[..i + 1])
    ensures Gathered(files[..i + 1], fmt) == Gathered(files[..i], fmt) + FileItems(files[i], fmt)
  {
    assert files[..i + 1][..i] == files[..i];
  }

  /** A file that does not load after files that do is the first bad one. */
  lemma FirstBadAt(files: seq<LvFile>, i: nat)
    requires i < |files| && AllLoad(files[..i]) && !Loads(files[i])
    ensures FirstBad(files, i) && !AllLoad(files)
  {
  }

  /** The sorted items: a permutation of the gathered ones, in key order. */
  lemma SortedLoad(data: seq<Item>)
    ensures multiset(SortBy(data, LoadKey)) == multiset(data)
    ensures LoadOrdered(SortBy(data, LoadKey))
  {
  }

  /** `load_lv`: the files in order, each item normalised under its file's
      label, then sorted by `LoadKey`; the first file that is missing or does
      not hold an array of objects ends the load with its error. */
  method LoadLv(files: seq<LvFile>, fmt: real -> string) returns (r: Result<seq<Item>, LoadError>)
    ensures r.Failure? <==> !AllLoad(files)
    ensures r.Failure? ==> exists k :: FirstBad(files, k) && r.error == FileError(files[k])
    ensures r.Success? ==> multiset(r.value) == multiset(Gathered(files, fmt))
    ensures r.Success? ==> LoadOrdered(r.value)
    ensures r.Success? ==> r.value == SortBy(Gathered(files, fmt), LoadKey)
  {
    var data: seq<Item> := [];
    var i := 0;
    while i < |files|
      invariant 0 <= i <= |files|
      invariant AllLoad(files[..i])
      invariant data == Gathered(files[..i], fmt)
    {
      var f := files[i];
      if f.content.Missing? {
        FirstBadAt(files, i);
        return Failure(FileMissing(f.path));
      }
      if !f.content.List? {
        FirstBadAt(files, i);
        return Failure(LoadFailed(f.path));
      }
      var ok;
      ok, data := AppendEntries(data, f.content.entries, LabelForFile(f.path), fmt);
      if !ok {
        FirstBadAt(files, i);
        return Failure(LoadFailed(f.path));
      }
      GatheredSnoc(files, i, fmt);
      i := i + 1;
    }
    assert files[..i] == files;
    SortedLoad(data);
    return Success(SortBy(data, LoadKey));
  }

  // ---------------------------------------------------------------------------
  // Search
  // ---------------------------------------------------------------------------

  /** The search parameters; an empty text is an absent filter, as for `None`. */
  datatype Query = Query(q: string, t1: string, t2: string, catalog: string)

  /** The description is text (`.lower()` raises otherwise). */
  predicate HasTextDescription(x: Item) { x.description.Str? }

  predicate CatalogOk(qu: Query, x: Item) { qu.catalog == [] || x.catalog == qu.catalog }
  predicate T1Ok(qu: Query, x: Item) { qu.t1 == [] || x.t1 == qu.t1 }
  predicate T2Ok(qu: Query, x: Item) { qu.t2 == [] || x.t2 == qu.t2 }

  /** The query, lower-cased, occurs in the lower-cased description or code. */
  predicate TextOk(qu: Query, x: Item) {
    qu.q == [] || (HasTextDescription(x)
      && (Contains(LowerStr(x.description.s), LowerStr(qu.q)) || Contains(LowerStr(x.code), LowerStr(qu.q))))
  }

  /** The catalog, T1 and T2 filters together. */
  predicate FieldsMatch(qu: Query, x: Item) { CatalogOk(qu, x) && T1Ok(qu, x) && T2Ok(qu, x) }

  /** Every non-empty filter holds of x. */
  predicate Wanted(qu: Query, x: Item) { FieldsMatch(qu, x) && TextOk(qu, x) }

  datatype SearchError = DescriptionNotText

  /** The catalog, T1 and T2 comprehension filters of `search_lv`, each
      applied when its parameter is given. */
  function Narrow(items: seq<Item>, qu: Query): (r: seq<Item>)
  {
    var a := if qu.catalog != [] then Filter(items, x => CatalogOk(qu, x)) else items;
    var b := if qu.t1 != [] then Filter(a, x => T1Ok(qu, x)) else a;
    if qu.t2 != [] then Filter(b, x => T2Ok(qu, x)) else b
  }

  /** `search_lv` over the loaded items: the items satisfying every given
      filter, in their order; with a text query, an item reaching the text
      filter whose description is not text makes the search fail. */
  function SearchLv(items: seq<Item>, qu: Query): (r: Result<seq<Item>, SearchError>)
    ensures r.Failure? <==> qu.q != [] && exists x :: x in Narrow(items, qu) && !HasTextDescription(x)
    ensures r.Success? ==> r.value == Filter(items, x => Wanted(qu, x))
  {
    var c := Narrow(items, qu);
    if qu.q == [] then
      NarrowIsFilter(items, qu);
      FilterSame(items, x => FieldsMatch(qu, x), x => Wanted(qu, x));
      Success(c)
    else if exists x :: x in c && !HasTextDescription(x) then Failure(DescriptionNotText)
    else
      TextAfterNarrow(items, qu);
      Success(Filter(c, x => TextOk(qu, x)))
  }

  lemma TextAfterNarrow(items: seq<Item>, qu: Query)
    ensures Filter(Narrow(items, qu), x => TextOk(qu, x)) == Filter(items, x => Wanted(qu, x))
  {
    NarrowIsFilter(items, qu);
    FilterThen(items, x => FieldsMatch(qu, x), x => TextOk(qu, x), x => Wanted(qu, x));
  }

  /** A filter applied only when its parameter is given is the filter, when
      without the parameter every item passes. */
  lemma Guarded(s: seq<Item>, on: bool, p: Item -> bool)
    requires forall x :: !on ==> p(x)
    ensures (if on then Filter(s, p) else s) == Filter(s, p)
  {
    if !on { FilterAll(s, p); }
  }

  /** The three filters in turn are one filter on their conjunction. */
  lemma NarrowIsFilter(items: seq<Item>, qu: Query)
    ensures Narrow(items, qu) == Filter(items, x => FieldsMatch(qu, x))
  {
    var pc, p1, p2 := x => CatalogOk(qu, x), x => T1Ok(qu, x), x => T2Ok(qu, x);
    Guarded(items, qu.catalog != [], pc);
    var a := Filter(items, pc);
    Guarded(a, qu.t1 != [], p1);
    var b := Filter(a, p1);
    Guarded(b, qu.t2 != [], p2);
    var pc1 := x => CatalogOk(qu, x) && T1Ok(qu, x);
    FilterThen(items, pc, p1, pc1);
    FilterThen(items, pc1, p2, x => FieldsMatch(qu, x));
  }

  /** Filtering the result of a filter is filtering on both conditions. */
  lemma {:induction false} FilterThen<T(!new)>(s: seq<T>, p: T -> bool, q: T -> bool, both: T -> bool)
    requires forall x :: both(x) <==> p(x) && q(x)
    ensures Filter(Filter(s, p), q) == Filter(s, both)
    decreases |s|
  {
    if s != [] {
      FilterThen(s[1..], p, q, both);
      var head := if p(s[0]) then [s[0]] else [];
      FilterAppend(head, Filter(s[1..], p), q);
      if p(s[0]) {
        assert Filter(head, q) == (if q(s[0]) then [s[0]] else []) by { assert head[1..] == []; }
      }
    }
  }

  /** Conditions that agree on every element filter alike. */
  lemma {:induction false} FilterSame<T(!new)>(s: seq<T>, p: T -> bool, q: T -> bool)
    requires forall k :: 0 <= k < |s| ==> (p(s[k]) <==> q(s[k]))
    ensures Filter(s, p) == Filter(s, q)
    decreases |s|
  {
    if s != [] {
      assert forall k :: 0 <= k < |s| - 1 ==> s[1..][k] == s[k + 1];
      FilterSame(s[1..], p, q);
    }
  }

  /** Without filters the search returns every item. */
  lemma SearchAll(items: seq<Item>)
    ensures SearchLv(items, Query("", "", "", "")) == Success(items)
  {
    FilterAll(items, x => Wanted(Query("", "", "", ""), x));
  }

  /** Searching the result of a search with the same filters finds it all. */
  lemma SearchIdempotent(items: seq<Item>, qu: Query)
    requires SearchLv(items, qu).Success?
    ensures SearchLv(SearchLv(items, qu).value, qu) == SearchLv(items, qu)
  {
    var r := SearchLv(items, qu).value;
    FilterIdempotent(items, x => Wanted(qu, x));
    NarrowIsFilter(r, qu);
    if qu.q != [] {
      forall x | x in Narrow(r, qu) ensures HasTextDescription(x) {
        assert x in r;
      }
    }
  }
}
