/** The pure helpers of the catalog matcher: the rough pre-filter that narrows
    the catalog to the entries worth sending along with one measurement line,
    and the splitter that takes the text after the first colon of each line of
    an Aufmaß block.  The catalog is a parameter (the matcher reads it from the
    three default files when it is imported); the language-model call is not
    modelled. */
module LvMatcher {
  import opened Wrappers
  import opened Text
  import opened Elements
  import opened Order
  import opened Json

  // ---------------------------------------------------------------------------
  // The rough pre-filter
  // ---------------------------------------------------------------------------

  /** The keys of a catalog entry that the pre-filter reads. */
  datatype Entry = Entry(category: Field, dn: Field, depth: Field)

  /** The pre-filter keeps at most this many entries. */
  const MaxEntries := 120

  /** `p.get("category", "").lower()` is defined: the key is missing (the
      default "" is used) or holds text. */
  predicate CategoryIsText(p: Entry) {
    p.category.Absent? || (p.category.Val? && p.category.v.Str?)
  }

  /** The category text, "" when the key is missing. */
  function Category(p: Entry): (c: string)
    ensures p.category.Absent? ==> c == ""
    ensures p.category.Val? && p.category.v.Str? ==> c == p.category.v.s
  {
    if p.category.Val? && p.category.v.Str? then p.category.v.s else ""
  }

  /** The category names pipe or trench work. */
  predicate NamesTrenchWork(cat: string) {
    Contains(cat, "rohr") || Contains(cat, "graben") || Contains(cat, "leitungs")
  }

  /** The filter's `ok(p)` for the lower-cased line kw: the lower-cased
      category names trench work, or the lower-cased text form of `dn` or of
      `rohrgrabentiefe_m` (default "") occurs in kw. */
  predicate Qualifies(p: Entry, kw: string, fmt: real -> string) {
    NamesTrenchWork(LowerStr(Category(p)))
    || Contains(kw, LowerStr(FieldText(p.dn, fmt)))
    || Contains(kw, LowerStr(FieldText(p.depth, fmt)))
  }

  /** The comprehension `[p for p in CATALOG if ok(p)]`. */
  function Subset(catalog: seq<Entry>, kw: string, fmt: real -> string): (r: seq<Entry>)
    ensures |r| <= |catalog|
    ensures forall p :: p in r <==> p in catalog && Qualifies(p, kw, fmt)
  {
    Filter(catalog, p => Qualifies(p, kw, fmt))
  }

  /** `s[:n]`. */
  function Take<T>(s: seq<T>, n: nat): (r: seq<T>)
    ensures |r| == if |s| <= n then |s| else n
    ensures r == s[..|r|]
  {
    if |s| <= n then s else s[..n]
  }

  /** `.lower()` on a category that is `null` or no text raises. */
  datatype FilterError = CategoryNotText

  /** `_rough_filter(line)` over the catalog: the first 120 qualifying
      entries, or the first 120 catalog entries when none qualifies. */
  function RoughFilter(catalog: seq<Entry>, line: string, fmt: real -> string): (r: Result<seq<Entry>, FilterError>)
    ensures r.Failure? <==> exists p :: p in catalog && !CategoryIsText(p)
    ensures r.Success? ==> |r.value| <= MaxEntries
    ensures r.Success? ==> forall p :: p in r.value ==> p in catalog
    ensures r.Success? && (exists p :: p in catalog && Qualifies(p, LowerStr(line), fmt))
            ==> forall p :: p in r.value ==> Qualifies(p, LowerStr(line), fmt)
    ensures r.Success? && (forall p :: p in catalog ==> !Qualifies(p, LowerStr(line), fmt))
            ==> r.value == Take(catalog, MaxEntries)
  {
    if exists p :: p in catalog && !CategoryIsText(p) then Failure(CategoryNotText)
    else
      var subset := Subset(catalog, LowerStr(line), fmt);
      if subset != [] then
        assert subset[0] in subset;
        Success(Take(subset, MaxEntries))
      else
        assert forall p :: p in catalog ==> !Qualifies(p, LowerStr(line), fmt);
        Success(Take(catalog, MaxEntries))
  }

  /** When some entry qualifies, the result is the first 120 qualifying
      entries in catalog order, and all of them when there are no more than
      120. */
  lemma RoughFilterKeepsOrder(catalog: seq<Entry>, line: string, fmt: real -> string)
    requires forall p :: p in catalog ==> CategoryIsText(p)
    requires exists p :: p in catalog && Qualifies(p, LowerStr(line), fmt)
    ensures var s := Subset(catalog, LowerStr(line), fmt);
      RoughFilter(catalog, line, fmt).Success?
      && RoughFilter(catalog, line, fmt).value == s[..|RoughFilter(catalog, line, fmt).value|]
      && (|s| <= MaxEntries ==> RoughFilter(catalog, line, fmt).value == s)
      && RoughFilter(catalog, line, fmt).value == Take(s, MaxEntries)
      && |RoughFilter(catalog, line, fmt).value| == if |s| <= MaxEntries then |s| else MaxEntries
  {
    var p :| p in catalog && Qualifies(p, LowerStr(line), fmt);
    var s := Subset(catalog, LowerStr(line), fmt);
    assert p in s;
    assert !exists q :: q in catalog && !CategoryIsText(q);
    assert RoughFilter(catalog, line, fmt) == Success(Take(s, MaxEntries));
  }

  /** An entry without `dn` (or without `rohrgrabentiefe_m`) always
      qualifies: its text is "", which occurs in every line. */
  lemma MissingFieldQualifies(p: Entry, kw: string, fmt: real -> string)
    requires p.dn.Absent? || p.depth.Absent?
    ensures Qualifies(p, kw, fmt)
  {
    ContainsEmpty(kw);
  }

  /** A category naming trench work qualifies whatever the line. */
  lemma TrenchCategoryQualifies(p: Entry, kw: string, fmt: real -> string)
    requires p.category.Val? && p.category.v.Str? && Contains(LowerStr(p.category.v.s), "graben")
    ensures Qualifies(p, kw, fmt)
  {
  }

  /** The filter ignores the case of the line. */
  lemma RoughFilterIgnoresCase(catalog: seq<Entry>, line: string, fmt: real -> string)
    ensures RoughFilter(catalog, LowerStr(line), fmt) == RoughFilter(catalog, line, fmt)
  {
    LowerStrIdempotent(line);
  }

  // ---------------------------------------------------------------------------
  // The Aufmaß splitter
  // ---------------------------------------------------------------------------

  predicate HasColon(l: string) { ':' in l }

  /** `re.search(r":\s*(.*)$", l).group(1)`: the text after the first colon,
      without the white space that follows the colon. */
  function AfterColon(l: string): (v: string)
    requires HasColon(l)
    ensures |v| < |l| && v == l[|l| - |v|..]
    ensures v == [] || !IsSpace(v[0])
    ensures l[IndexOf(l, ':')] == ':' && forall i :: IndexOf(l, ':') < i < |l| - |v| ==> IsSpace(l[i])
  {
    StripStart(l[IndexOf(l, ':') + 1..])
  }

  /** `parse_aufmass(block)`: one entry per line of the block holding a
      colon, in line order, each the text after that line's first colon. */
  function ParseAufmass(block: string): (r: seq<string>)
    ensures |r| == |Filter(SplitLines(block), HasColon)|
    ensures forall i :: 0 <= i < |r| ==>
      (HasColon(Filter(SplitLines(block), HasColon)[i]) && r[i] == AfterColon(Filter(SplitLines(block), HasColon)[i]))
  {
    var ls := Filter(SplitLines(block), HasColon);
    assert forall i :: 0 <= i < |ls| ==> HasColon(ls[i]) by {
      forall i | 0 <= i < |ls| ensures HasColon(ls[i]) { assert ls[i] in ls; }
    }
    seq(|ls|, i requires 0 <= i < |ls| => AfterColon(ls[i]))
  }

  /** A labelled line: the label, the colon, white space, and the value. */
  lemma AfterColonOfEntry(name: string, gap: string, v: string)
    requires ':' !in name
    requires forall i :: 0 <= i < |gap| ==> IsSpace(gap[i])
    requires v == [] || !IsSpace(v[0])
    ensures AfterColon(name + ":" + gap + v) == v
  {
    var l := name + ":" + gap + v;
    assert l[|name|] == ':';
    assert l[..|name|] == name;
    var i := IndexOf(l, ':');
    assert i == |name|;
    assert l[i + 1..] == gap + v;
    GapStripped(gap, v);
  }

  lemma {:induction false} GapStripped(gap: string, v: string)
    requires forall i :: 0 <= i < |gap| ==> IsSpace(gap[i])
    requires v == [] || !IsSpace(v[0])
    ensures StripStart(gap + v) == v
    decreases |gap|
  {
    if gap != [] {
      assert (gap + v)[1..] == gap[1..] + v;
      GapStripped(gap[1..], v);
    } else {
      assert gap + v == v;
    }
  }

  /** A block written one labelled line per line gives back each line's
      value, in order. */
  lemma ParseLines(lines: seq<string>)
    requires forall l :: l in lines ==> l != [] && HasColon(l) && forall i :: 0 <= i < |l| ==> !IsLineBreak(l[i])
    ensures ParseAufmass(Join(lines, "\n")) == seq(|lines|, i requires 0 <= i < |lines| => AfterColon(lines[i]))
  {
    SplitJoin(lines);
    FilterAll(lines, HasColon);
  }

  /** Lines without a colon give no entry. */
  lemma ParseSkipsUnlabelled(block: string)
    requires forall l :: l in SplitLines(block) ==> !HasColon(l)
    ensures ParseAufmass(block) == []
  {
    FilterNone(SplitLines(block), HasColon);
  }
}
