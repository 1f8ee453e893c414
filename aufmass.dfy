/** The Aufmaß (bill of quantities) text of main.py: the order of its lines
    (`_sort_aufmass_lines`), the lines of a trench's surface segments
    (`_append_surface_segments_aufmass`), the manual override kept in the
    element list (`_get_/_set_manual_aufmass_lines`) and the final merge of
    manual and generated lines. */
module Aufmass {
  import opened Wrappers
  import opened Text
  import opened Elements
  import opened Order
  import opened Numbers

  // ---------------------------------------------------------------------------
  // _sort_aufmass_lines

  /** What the sort key recognises at the start of a stripped line: a keyword
      (any case) followed by white space and a number; the trench and passage
      numbers must end at a word boundary, and a surface number may carry a
      `.k` sub-number. */
  datatype LineClass =
    | TrenchLine(n: nat)
    | PipeLine(n: nat)
    | PassageLine(n: nat)
    | SurfaceLine(n: nat, sub: nat)
    | OtherLine

  /** `10**9`, the number of an unrecognised line. */
  const Unnumbered: nat := 1000000000

  /** White space and then digits at the start of s: the digits' value and the
      length of the match. */
  function SpacedNumber(s: string): (r: Option<(nat, nat)>)
    ensures r.Some? ==> 0 < r.value.1 <= |s| && IsDigit(s[r.value.1 - 1])
  {
    var sp := SpaceRun(s);
    var t := s[sp..];
    var d := DigitRun(t);
    if sp == 0 || d == 0 then None
    else Some((DigitsValue(t[..d]), sp + d))
  }

  /** Keyword w (given in lower case) at the start of s, then a spaced number:
      its value and where the match ends. */
  function NumberAfter(s: string, w: string): (r: Option<(nat, nat)>)
    ensures r.Some? ==> |w| < r.value.1 <= |s|
  {
    if !MatchesIgnoreCase(s, 0, w) then None
    else
      match SpacedNumber(s[|w|..])
      case None => None
      case Some(m) => Some((m.0, |w| + m.1))
  }

  /** The optional `.k` after a surface number ending at e; 0 when absent. */
  function SubNumber(s: string, e: nat): (k: nat)
    requires e <= |s|
  {
    var u := s[e..];
    if |u| >= 2 && u[0] == '.' && IsDigit(u[1]) then DigitsValue(u[1..1 + DigitRun(u[1..])])
    else 0
  }

  /** The regular expressions of the key, tried in the source's order on the
      stripped line. */
  function ClassOf(line: string): LineClass
  {
    var s := Strip(line);
    var bg := NumberAfter(s, "baugraben");
    var rohr := NumberAfter(s, "rohr");
    var ds := NumberAfter(s, "durchstich");
    var ofl := NumberAfter(s, "oberflache");
    var ofl2 := NumberAfter(s, "oberfläche");
    if bg.Some? && WordEndsAt(s, bg.value.1) then TrenchLine(bg.value.0)
    else if rohr.Some? then PipeLine(rohr.value.0)
    else if ds.Some? && WordEndsAt(s, ds.value.1) then PassageLine(ds.value.0)
    else if ofl.Some? then SurfaceLine(ofl.value.0, SubNumber(s, ofl.value.1))
    else if ofl2.Some? then SurfaceLine(ofl2.value.0, SubNumber(s, ofl2.value.1))
    else OtherLine
  }

  function Rank(c: LineClass): nat {
    match c
    case TrenchLine(_) => 0
    case PipeLine(_) => 1
    case PassageLine(_) => 2
    case SurfaceLine(_, _) => 3
    case OtherLine => 9
  }

  function Number(c: LineClass): nat {
    if c.OtherLine? then Unnumbered else c.n
  }

  function Sub(c: LineClass): nat {
    match c
    case SurfaceLine(_, k) => k
    case OtherLine => Unnumbered
    case _ => 0
  }

  /** The key tuple without its position component (stability supplies that). */
  function Key(c: LineClass): (k: seq<int>)
  {
    [Rank(c), Number(c), Sub(c)]
  }

  function LineKey(line: string): seq<int> {
    Key(ClassOf(line))
  }

  /** c may precede d: by category, then number, then sub-number. */
  predicate InOrder(c: LineClass, d: LineClass) {
    Rank(c) < Rank(d)
    || (Rank(c) == Rank(d) && (Number(c) < Number(d) || (Number(c) == Number(d) && Sub(c) <= Sub(d))))
  }

  /** A key not smaller than another is in order with it. */
  lemma KeyOrder(c: LineClass, d: LineClass)
    requires !Less(Key(d), Key(c))
    ensures InOrder(c, d)
  {
    var x, y := Key(c), Key(d);
    assert x[1..] == [Number(c), Sub(c)] && y[1..] == [Number(d), Sub(d)];
    assert x[1..][1..] == [Sub(c)] && y[1..][1..] == [Sub(d)];
    assert x[1..][1..][1..] == [] && y[1..][1..][1..] == [];
    assert !Less(y[1..][1..][1..], x[1..][1..][1..]);
    assert Less(y[1..][1..], x[1..][1..]) <==> Sub(d) < Sub(c);
    assert Less(y[1..], x[1..]) <==> Number(d) < Number(c) || (Number(d) == Number(c) && Sub(d) < Sub(c));
  }

  /** `_sort_aufmass_lines`: a permutation of the lines, in category, number
      and sub-number order. */
  function SortAufmassLines(lines: seq<string>): (r: seq<string>)
    ensures |r| == |lines| && multiset(r) == multiset(lines)
    ensures forall a, b :: 0 <= a < b < |r| ==> InOrder(ClassOf(r[a]), ClassOf(r[b]))
  {
    var r := SortBy(lines, LineKey);
    assert forall a, b :: 0 <= a < b < |r| ==> InOrder(ClassOf(r[a]), ClassOf(r[b])) by {
      forall a, b | 0 <= a < b < |r| ensures InOrder(ClassOf(r[a]), ClassOf(r[b])) {
        assert !Less(LineKey(r[b]), LineKey(r[a]));
        KeyOrder(ClassOf(r[a]), ClassOf(r[b]));
      }
    }
    r
  }

  /** Lines with equal keys keep their input order: the sorted list shows the
      input positions `order`, and positions of equal-key lines ascend. */
  lemma SortAufmassStable(lines: seq<string>) returns (order: seq<nat>)
    ensures |order| == |lines|
    ensures forall a :: 0 <= a < |order| ==>
              order[a] < |lines| && SortAufmassLines(lines)[a] == lines[order[a]]
    ensures forall a, b :: 0 <= a < b < |order| ==> order[a] != order[b]
    ensures forall a, b :: 0 <= a < b < |order| ==>
              LineKey(lines[order[a]]) == LineKey(lines[order[b]]) ==> order[a] < order[b]
  {
    var keys := KeysOf(lines, LineKey);
    order := StableOrder(keys);
    SortByStable(lines, LineKey);
    forall a, b | 0 <= a < b < |order| && LineKey(lines[order[a]]) == LineKey(lines[order[b]])
      ensures order[a] < order[b]
    {
      assert Before(keys, order[a], order[b]);
      LessIrreflexive(keys[order[a]]);
    }
  }

  /** One space and a written number n, then a non-digit: the number read is n. */
  lemma SpacedNumberOf(n: nat, rest: string)
    requires rest == [] || !IsDigit(rest[0])
    ensures SpacedNumber(" " + NatToString(n) + rest) == Some((n, 1 + |NatToString(n)|))
  {
    var d := NatToString(n);
    var s := " " + d + rest;
    assert s[1..] == d + rest;
    assert SpaceRun(s[1..]) == 0;
    assert SpaceRun(s) == 1;
    DigitRunStops(d, rest);
    assert (d + rest)[..|d|] == d;
    NatToStringValue(n);
  }

  /** Trailing white space after a head that ends in a non-space is all that
      `rstrip` removes. */
  lemma {:induction false} StripEndAfter(h: string, t: string)
    requires h != [] && !IsSpace(h[|h| - 1])
    ensures StripEnd(h + t) == h + StripEnd(t)
    decreases |t|
  {
    if t != [] && IsSpace(t[|t| - 1]) {
      assert (h + t)[..|h + t| - 1] == h + t[..|t| - 1];
      StripEndAfter(h, t[..|t| - 1]);
    } else if t == [] {
      assert h + t == h;
    }
  }

  /** Of the key's keywords only the surface word (with ä) starts "Oberfläche". */
  lemma SurfaceWordOnly(y: string)
    ensures var s := "Oberfläche" + y;
            MatchesIgnoreCase(s, 0, "oberfläche") && !MatchesIgnoreCase(s, 0, "oberflache")
            && !MatchesIgnoreCase(s, 0, "baugraben") && !MatchesIgnoreCase(s, 0, "rohr")
            && !MatchesIgnoreCase(s, 0, "durchstich")
  {
    var s := "Oberfläche" + y;
    assert s[..10] == "Oberfläche";
    assert Lower(s[0]) == 'o' && Lower(s[6]) == 'ä';
    forall i | 0 <= i < 10 ensures Lower(s[i]) == "oberfläche"[i] {
      assert s[i] == "Oberfläche"[i];
    }
    NoMatchAt(s, "oberflache", 6);
    NoMatchAt(s, "baugraben", 0);
    NoMatchAt(s, "rohr", 0);
    NoMatchAt(s, "durchstich", 0);
  }

  /** A word that differs from s at position i does not match there. */
  lemma NoMatchAt(s: string, w: string, i: nat)
    requires i < |w| && i < |s| && Lower(s[i]) != w[i]
    ensures !MatchesIgnoreCase(s, 0, w)
  {
    assert s[0 + i] == s[i];
  }

  /** A surface word, a spaced number and a `.k` sub-number class a line. */
  lemma SurfaceClass(line: string, s: string, y: string, n: nat, e: nat, k: nat)
    requires s == "Oberfläche" + y && Strip(line) == s
    requires SpacedNumber(y) == Some((n, e))
    requires SubNumber(s, 10 + e) == k
    ensures ClassOf(line) == SurfaceLine(n, k)
  {
    SurfaceWordOnly(y);
    assert s[10..] == y;
    assert NumberAfter(s, "baugraben").None?;
    assert NumberAfter(s, "rohr").None?;
    assert NumberAfter(s, "durchstich").None?;
    assert NumberAfter(s, "oberflache").None?;
    assert NumberAfter(s, "oberfläche") == Some((n, 10 + e));
  }

  /** A line written for a surface segment sorts as the surface line of its
      trench (for a trench number that is not negative) and segment number. */
  lemma RowTextClass(trenchNo: int, row: SegmentRow, fmt: real -> string)
    requires trenchNo >= 0
    ensures ClassOf(RowText(trenchNo, row, fmt)) == SurfaceLine(trenchNo, row.no)
  {
    var tail := RowStrip(trenchNo, row, fmt);
    HeadClass(RowText(trenchNo, row, fmt), trenchNo, row.no, tail);
  }

  /** The stripped text of a row is its head and the stripped details. */
  lemma RowStrip(trenchNo: int, row: SegmentRow, fmt: real -> string) returns (tail: string)
    requires trenchNo >= 0
    ensures Strip(RowText(trenchNo, row, fmt))
            == "Oberfläche" + (" " + NatToString(trenchNo) + ("." + NatToString(row.no) + ":" + tail))
  {
    var d1, d2 := NatToString(trenchNo), NatToString(row.no);
    var h := RowHead(trenchNo, row.no);
    var t := RowDetails(row, fmt);
    RowHeadShape(trenchNo, row.no);
    StripAfterHead(h, t);
    tail := StripEnd(t);
    Regroup("Oberfläche", " ", d1, ".", d2, ":", tail);
  }

  /** What the key reads in a line that strips to a surface head. */
  lemma HeadClass(line: string, n: nat, k: nat, tail: string)
    requires Strip(line) == "Oberfläche" + (" " + NatToString(n) + ("." + NatToString(k) + ":" + tail))
    ensures ClassOf(line) == SurfaceLine(n, k)
  {
    var s, y, e := HeadParts(n, k, tail);
    SurfaceClass(line, s, y, n, e, k);
  }

  /** "Oberfläche n.k:…" read piece by piece: the spaced number n, then `.k`. */
  lemma HeadParts(n: nat, k: nat, tail: string) returns (s: string, y: string, e: nat)
    ensures s == "Oberfläche" + (" " + NatToString(n) + ("." + NatToString(k) + ":" + tail))
    ensures s == "Oberfläche" + y && SpacedNumber(y) == Some((n, e))
    ensures SubNumber(s, 10 + e) == k
  {
    var d1 := NatToString(n);
    var rest := "." + NatToString(k) + ":" + tail;
    y := " " + d1 + rest;
    s := "Oberfläche" + y;
    e := 1 + |d1|;
    SpacedNumberOf(n, rest);
    Suffix("Oberfläche", " " + d1, rest);
    SubNumberOf(s, 10 + e, k, tail);
  }

  lemma Regroup(a: string, b: string, c: string, d: string, e: string, f: string, g: string)
    ensures a + b + c + d + e + f + g == a + (b + c + (d + e + f + g))
  {
  }

  lemma Suffix(a: string, b: string, c: string)
    ensures (a + (b + c))[|a| + |b|..] == c
  {
  }

  lemma RowHeadShape(trenchNo: int, no: nat)
    requires trenchNo >= 0
    ensures var h := RowHead(trenchNo, no);
            h == "Oberfläche" + " " + NatToString(trenchNo) + "." + NatToString(no) + ":"
            && h[0] == 'O' && h[|h| - 1] == ':'
  {
  }

  /** `strip` of a head that neither starts nor ends with white space,
      followed by more text, keeps the head. */
  lemma StripAfterHead(h: string, t: string)
    requires h != [] && !IsSpace(h[0]) && !IsSpace(h[|h| - 1])
    ensures Strip(h + t) == h + StripEnd(t)
  {
    assert StripStart(h + t) == h + t;
    StripEndAfter(h, t);
  }

  /** `.k` written at position e is read back as the sub-number k. */
  lemma SubNumberOf(s: string, e: nat, k: nat, tail: string)
    requires e <= |s| && s[e..] == "." + NatToString(k) + ":" + tail
    ensures SubNumber(s, e) == k
  {
    var d := NatToString(k);
    var u := s[e..];
    assert u[1..] == d + (":" + tail);
    DigitRunStops(d, ":" + tail);
    assert u[1..][..|d|] == d;
    assert DigitRun(u[1..]) == |d|;
    assert u[1..1 + |d|] == d;
    NatToStringValue(k);
  }

  // ---------------------------------------------------------------------------
  // _append_surface_segments_aufmass

  /** The length of the trench not yet given to a segment when segment k is
      reached (`remaining`): the whole length at first, never negative after. */
  function Remaining(segs: seq<Element>, total: real, k: nat): (r: real)
    requires k <= |segs|
    ensures k > 0 ==> r >= 0.0
    decreases k, 0
  {
    if k == 0 then total
    else Max(0.0, Remaining(segs, total, k - 1) - Consumed(segs, total, k - 1))
  }

  /** The length segment k takes (`seg_len`): its own length, capped by what
      remains, when it is not the last and has a positive length; otherwise
      everything that remains. */
  function Consumed(segs: seq<Element>, total: real, k: nat): (r: real)
    requires k < |segs|
    ensures r >= 0.0
    decreases k, 1
  {
    var raw := RealOr0(segs[k].length);
    var rem := Remaining(segs, total, k);
    if k + 1 < |segs| && raw > 0.0 then Min(raw, Max(0.0, rem)) else Max(0.0, rem)
  }

  /** One Aufmaß line of a surface segment, before it is written as text. */
  datatype SegmentRow = SegmentRow(no: nat, offset: real, length: real, width: real, material: string)

  /** `s.get("material", "")`. */
  function MaterialOf(e: Element): string {
    e.material.GetOr("")
  }

  /** The row of segment k: numbered from 1, its border zone added to the
      length only at a free outer end (left for the first segment, right for
      the last) and on both sides of the width. */
  function RowOf(segs: seq<Element>, total: real, width: real, leftFree: bool, rightFree: bool, k: nat): (r: SegmentRow)
    requires k < |segs|
    ensures r.no == k + 1 && r.offset == RealOr0(segs[k].offset) && r.material == MaterialOf(segs[k])
    ensures r.width == width + 2.0 * r.offset
  {
    var off := RealOr0(segs[k].offset);
    var addLeft := if k == 0 && leftFree then off else 0.0;
    var addRight := if k + 1 == |segs| && rightFree then off else 0.0;
    SegmentRow(k + 1, off, Consumed(segs, total, k) + addLeft + addRight, width + 2.0 * off, MaterialOf(segs[k]))
  }

  function Rows(segs: seq<Element>, total: real, width: real, leftFree: bool, rightFree: bool): (r: seq<SegmentRow>)
    ensures |r| == |segs|
    ensures forall k :: 0 <= k < |segs| ==> r[k] == RowOf(segs, total, width, leftFree, rightFree, k)
  {
    seq(|segs|, k requires 0 <= k < |segs| => RowOf(segs, total, width, leftFree, rightFree, k))
  }

  /** The text of a row; `fmt` is Python's text form of a float. */
  function RowText(trenchNo: int, row: SegmentRow, fmt: real -> string): string {
    RowHead(trenchNo, row.no) + RowDetails(row, fmt)
  }

  /** "Oberfläche n.k:" */
  function RowHead(trenchNo: int, no: nat): string {
    "Oberfläche " + IntToString(trenchNo) + "." + NatToString(no) + ":"
  }

  /** The border zone, length, width and (when there is one) material. */
  function RowDetails(row: SegmentRow, fmt: real -> string): string {
    " Randzone=" + fmt(row.offset) + " m  l=" + fmt(row.length) + " m  b=" + fmt(row.width) + " m"
    + (if row.material != "" then "  Material=" + row.material else "")
  }

  function RowTexts(trenchNo: int, rows: seq<SegmentRow>, fmt: real -> string): (r: seq<string>)
    ensures |r| == |rows| && forall k :: 0 <= k < |rows| ==> r[k] == RowText(trenchNo, rows[k], fmt)
  {
    seq(|rows|, k requires 0 <= k < |rows| => RowText(trenchNo, rows[k], fmt))
  }

  lemma RowTextsStep(trenchNo: int, rows: seq<SegmentRow>, k: nat, fmt: real -> string)
    requires k < |rows|
    ensures RowTexts(trenchNo, rows[..k + 1], fmt) == RowTexts(trenchNo, rows[..k], fmt) + [RowText(trenchNo, rows[k], fmt)]
  {
    var a, b := RowTexts(trenchNo, rows[..k + 1], fmt), RowTexts(trenchNo, rows[..k], fmt) + [RowText(trenchNo, rows[k], fmt)];
    assert |a| == |b|;
    forall j | 0 <= j < |a| ensures a[j] == b[j] {
      if j < k { assert rows[..k + 1][j] == rows[..k][j]; }
    }
  }

  /** `_append_surface_segments_aufmass`: appends one line per segment to the
      Aufmaß and leaves the lines before them as they were. */
  method AppendSurfaceSegments(trenchNo: int, segs: seq<Element>, aufmass: seq<string>,
                               trenchLength: real, trenchWidth: real,
                               leftFree: bool, rightFree: bool, fmt: real -> string)
    returns (out: seq<string>)
    ensures out == aufmass + RowTexts(trenchNo, Rows(segs, trenchLength, trenchWidth, leftFree, rightFree), fmt)
    ensures |out| == |aufmass| + |segs| && out[..|aufmass|] == aufmass
  {
    ghost var rows := Rows(segs, trenchLength, trenchWidth, leftFree, rightFree);
    var n := |segs|;
    var remaining := trenchLength;
    out := aufmass;
    for k := 0 to n
      invariant remaining == Remaining(segs, trenchLength, k)
      invariant out == aufmass + RowTexts(trenchNo, rows[..k], fmt)
    {
      var s := segs[k];
      var off := RealOr0(s.offset);
      var rawLen := RealOr0(s.length);
      var segLen;
      if k + 1 < n && rawLen > 0.0 {
        segLen := Min(rawLen, Max(0.0, remaining));
      } else {
        segLen := Max(0.0, remaining);
      }
      assert segLen == Consumed(segs, trenchLength, k);
      var addLeft := if k == 0 && leftFree then off else 0.0;
      var addRight := if k + 1 == n && rightFree then off else 0.0;
      var lengthAdj := segLen + addLeft + addRight;
      var widthAdj := trenchWidth + 2.0 * off;
      var mat := MaterialOf(s);
      var row := SegmentRow(k + 1, off, lengthAdj, widthAdj, mat);
      assert row == rows[k] by {
        assert rows[k] == RowOf(segs, trenchLength, trenchWidth, leftFree, rightFree, k);
      }
      RowTextsStep(trenchNo, rows, k, fmt);
      out := out + [RowText(trenchNo, row, fmt)];
      remaining := Max(0.0, remaining - segLen);
      assert remaining == Remaining(segs, trenchLength, k + 1);
    }
    assert rows[..n] == rows;
  }

  /** Sum of the consumed lengths of the first k segments. */
  function ConsumedSum(segs: seq<Element>, total: real, k: nat): real
    requires k <= |segs|
  {
    if k == 0 then 0.0 else ConsumedSum(segs, total, k - 1) + Consumed(segs, total, k - 1)
  }

  /** Sum of the reported lengths of the first k rows. */
  function ReportedSum(rows: seq<SegmentRow>, k: nat): real
    requires k <= |rows|
  {
    if k == 0 then 0.0 else ReportedSum(rows, k - 1) + rows[k - 1].length
  }

  /** What has been consumed plus what remains is the trench length. */
  lemma {:induction false} ConsumedSoFar(segs: seq<Element>, total: real, k: nat)
    requires total >= 0.0 && k <= |segs|
    ensures ConsumedSum(segs, total, k) + Remaining(segs, total, k) == total
  {
    if k > 0 {
      ConsumedSoFar(segs, total, k - 1);
    }
  }

  /** For a trench of non-negative length the segments share out exactly its
      length: the last one takes whatever the others left. */
  lemma SegmentsCoverTrench(segs: seq<Element>, total: real)
    requires total >= 0.0 && |segs| > 0
    ensures ConsumedSum(segs, total, |segs|) == total
    ensures Remaining(segs, total, |segs|) == 0.0
  {
    ConsumedSoFar(segs, total, |segs| - 1);
    ConsumedSoFar(segs, total, |segs|);
  }

  /** The reported lengths add up to the consumed lengths plus the border zone
      of the first segment when the left side is free and that of the last when
      the right side is free; no other segment is lengthened. */
  lemma {:induction false} ReportedSoFar(segs: seq<Element>, total: real, width: real,
                                         leftFree: bool, rightFree: bool, k: nat)
    requires k <= |segs|
    ensures var rows := Rows(segs, total, width, leftFree, rightFree);
            ReportedSum(rows, k) == ConsumedSum(segs, total, k)
              + (if k > 0 && leftFree then rows[0].offset else 0.0)
              + (if k == |segs| && k > 0 && rightFree then rows[k - 1].offset else 0.0)
  {
    if k > 0 {
      ReportedSoFar(segs, total, width, leftFree, rightFree, k - 1);
    }
  }

  /** With both ends free the reported lengths of a trench's surface add up
      to the trench length plus the two outer border zones. */
  lemma ReportedLength(segs: seq<Element>, total: real, width: real, leftFree: bool, rightFree: bool)
    requires total >= 0.0 && |segs| > 0
    ensures var rows := Rows(segs, total, width, leftFree, rightFree);
            ReportedSum(rows, |rows|) == total
              + (if leftFree then rows[0].offset else 0.0)
              + (if rightFree then rows[|rows| - 1].offset else 0.0)
  {
    ReportedSoFar(segs, total, width, leftFree, rightFree, |segs|);
    SegmentsCoverTrench(segs, total);
  }

  // ---------------------------------------------------------------------------
  // _get_manual_aufmass_lines / _set_manual_aufmass_lines

  /** `str(x).strip()` is not empty. */
  predicate NonBlank(x: string) {
    Strip(x) != []
  }

  /** Every line of a list, stripped. */
  function StripEach(xs: seq<string>): (r: seq<string>)
    ensures |r| == |xs| && forall i :: 0 <= i < |r| ==> r[i] == Strip(xs[i])
  {
    seq(|xs|, i requires 0 <= i < |xs| => Strip(xs[i]))
  }

  /** Stripped non-blank lines are non-empty and strip to themselves. */
  lemma StripEachNonBlank(kept: seq<string>)
    requires forall i :: 0 <= i < |kept| ==> NonBlank(kept[i])
    ensures var r := StripEach(kept);
            forall i :: 0 <= i < |r| ==> r[i] != [] && Strip(r[i]) == r[i]
  {
    forall i | 0 <= i < |kept| ensures Strip(Strip(kept[i])) == Strip(kept[i]) {
      StripIdempotent(kept[i]);
    }
  }

  /** The strip of every non-blank line is among the stripped kept lines. */
  lemma StripEachCovers(lines: seq<string>, kept: seq<string>)
    requires kept == Filter(lines, NonBlank)
    ensures forall x :: x in lines && NonBlank(x) ==> Strip(x) in StripEach(kept)
  {
    var r := StripEach(kept);
    forall x | x in lines && NonBlank(x) ensures Strip(x) in r {
      assert x in kept;
      var i :| 0 <= i < |kept| && kept[i] == x;
      assert r[i] == Strip(x);
    }
  }

  /** `[str(x).strip() for x in lines if str(x).strip()]`: the non-blank
      lines, trimmed, in their order. */
  function TrimLines(lines: seq<string>): (r: seq<string>)
    ensures |r| == |Filter(lines, NonBlank)| <= |lines|
    ensures forall i :: 0 <= i < |r| ==> r[i] == Strip(Filter(lines, NonBlank)[i])
    ensures forall i :: 0 <= i < |r| ==> r[i] != [] && Strip(r[i]) == r[i]
    ensures forall x :: x in lines && NonBlank(x) ==> Strip(x) in r
  {
    var kept := Filter(lines, NonBlank);
    assert forall i :: 0 <= i < |kept| ==> NonBlank(kept[i]) by {
      forall i | 0 <= i < |kept| ensures NonBlank(kept[i]) {
        assert kept[i] in kept;
      }
    }
    StripEachNonBlank(kept);
    StripEachCovers(lines, kept);
    StripEach(kept)
  }

  /** Lines already trimmed and non-blank pass through unchanged. */
  lemma TrimLinesFixed(lines: seq<string>)
    requires forall i :: 0 <= i < |lines| ==> lines[i] != [] && Strip(lines[i]) == lines[i]
    ensures TrimLines(lines) == lines
  {
    FilterAll(lines, NonBlank);
  }

  /** Trimming twice is trimming once. */
  lemma TrimLinesIdempotent(lines: seq<string>)
    ensures TrimLines(TrimLines(lines)) == TrimLines(lines)
  {
    TrimLinesFixed(TrimLines(lines));
  }

  /** An override record that carries a list of lines. */
  predicate HasManualLines(e: Element) {
    IsOverride(e) && e.lines.Some?
  }

  predicate NotOverride(e: Element) {
    !IsOverride(e)
  }

  /** `_get_manual_aufmass_lines`: the trimmed non-blank lines of the last
      override that has a list of lines, or None when there is none. */
  function ManualLines(elems: seq<Element>): (r: Option<seq<string>>)
    ensures r.None? <==> forall i :: 0 <= i < |elems| ==> !HasManualLines(elems[i])
    ensures r.Some? ==>
              exists i :: 0 <= i < |elems| && HasManualLines(elems[i])
                && (forall j :: i < j < |elems| ==> !HasManualLines(elems[j]))
                && r.value == TrimLines(elems[i].lines.value)
  {
    match LastWhere(elems, HasManualLines)
    case Some(i) => Some(TrimLines(elems[i].lines.value))
    case None => None
  }

  /** The override record `_set_manual_aufmass_lines` appends. */
  function OverrideWith(lines: seq<string>): (e: Element)
    ensures e.lines == Some(lines)
  {
    OfKind("aufmass_override").(lines := Some(lines))
  }

  lemma OverrideWithIsOverride(lines: seq<string>)
    ensures HasManualLines(OverrideWith(lines))
  {
    var k := OverrideWith(lines).kind;
    assert k == "aufmass_override";
    assert forall i :: 0 <= i < |k| ==> 'a' <= k[i] <= 'z' || k[i] == '_';
    LowerFixed(k);
  }

  /** The element list after `_set_manual_aufmass_lines`: every override
      removed, the others kept in order, one new override at the end. */
  function WithManualLines(elems: seq<Element>, lines: seq<string>): seq<Element>
  {
    Filter(elems, NotOverride) + [OverrideWith(TrimLines(lines))]
  }

  /** After setting, exactly one override is left, and it is the last element. */
  lemma SetLeavesOneOverride(elems: seq<Element>, lines: seq<string>)
    ensures var r := WithManualLines(elems, lines);
            Count(r, IsOverride) == 1 && IsOverride(r[|r| - 1])
  {
    var kept, o := Filter(elems, NotOverride), OverrideWith(TrimLines(lines));
    OverrideWithIsOverride(TrimLines(lines));
    assert forall i :: 0 <= i < |kept| ==> kept[i] in kept;
    OneOverrideAppended(kept, o);
    assert WithManualLines(elems, lines) == kept + [o];
  }

  lemma OneOverrideAppended(kept: seq<Element>, o: Element)
    requires forall i :: 0 <= i < |kept| ==> NotOverride(kept[i])
    requires IsOverride(o)
    ensures Count(kept + [o], IsOverride) == 1
  {
    CountNone(kept, IsOverride);
    CountAppend(kept, [o], IsOverride);
    assert [o][1..] == [];
  }

  /** Setting keeps every other element, in order. */
  lemma SetKeepsOthers(elems: seq<Element>, lines: seq<string>)
    ensures Filter(WithManualLines(elems, lines), NotOverride) == Filter(elems, NotOverride)
  {
    OverrideWithIsOverride(TrimLines(lines));
    OverrideAppended(Filter(elems, NotOverride), OverrideWith(TrimLines(lines)));
    FilterIdempotent(elems, NotOverride);
  }

  lemma OverrideAppended(kept: seq<Element>, o: Element)
    requires IsOverride(o)
    ensures Filter(kept + [o], NotOverride) == Filter(kept, NotOverride)
  {
    FilterAppend(kept, [o], NotOverride);
    assert [o][1..] == [];
  }

  /** Reading the lines back after setting them gives the trimmed lines. */
  lemma SetThenGet(elems: seq<Element>, lines: seq<string>)
    ensures ManualLines(WithManualLines(elems, lines)) == Some(TrimLines(lines))
  {
    var r := WithManualLines(elems, lines);
    OverrideWithIsOverride(TrimLines(lines));
    assert HasManualLines(r[|r| - 1]);
    TrimLinesIdempotent(lines);
  }

  /** The part of a session the override lives in: its element list. */
  class Session {
    var elements: seq<Element>

    constructor(elements0: seq<Element>)
      ensures elements == elements0
    {
      elements := elements0;
    }

    /** `_set_manual_aufmass_lines`, rewriting the list in place. */
    method SetManualAufmassLines(lines: seq<string>)
      modifies this
      ensures elements == WithManualLines(old(elements), lines)
      ensures ManualLines(elements) == Some(TrimLines(lines))
    {
      SetThenGet(elements, lines);
      elements := Filter(elements, NotOverride);
      elements := elements + [OverrideWith(TrimLines(lines))];
    }
  }

  // ---------------------------------------------------------------------------
  // The final Aufmaß block (main.py:2011-2020)

  /** A generated line that is shown after the manual ones. */
  function Extra(base: seq<string>): string -> bool {
    (l: string) => Strip(l) != [] && l !in base
  }

  /** Manual lines first, in their own order, then the sorted lines that
      are not blank and not among them; with no (or only blank) manual lines,
      the sorted lines. */
  function MergeAufmass(autoSorted: seq<string>, manual: Option<seq<string>>): (r: seq<string>)
    ensures manual.None? || manual.value == [] ==> r == autoSorted
    ensures manual.Some? && manual.value != [] ==>
              |TrimLines(manual.value)| <= |r| && r[..|TrimLines(manual.value)|] == TrimLines(manual.value)
  {
    if manual.Some? && manual.value != [] then
      TrimLines(manual.value) + Filter(autoSorted, Extra(TrimLines(manual.value)))
    else autoSorted
  }

  /** After the manual lines come only sorted lines that are neither blank
      nor manual ones. */
  lemma MergeExtras(autoSorted: seq<string>, manual: seq<string>)
    requires manual != []
    ensures var base, r := TrimLines(manual), MergeAufmass(autoSorted, Some(manual));
            forall i :: |base| <= i < |r| ==> r[i] in autoSorted && NonBlank(r[i]) && r[i] !in base
  {
    var base := TrimLines(manual);
    var r := MergeAufmass(autoSorted, Some(manual));
    assert r == base + Filter(autoSorted, Extra(base));
    AfterBase(autoSorted, base, r);
  }

  /** No sorted line with text is lost by the merge. */
  lemma MergeKeepsGenerated(autoSorted: seq<string>, manual: seq<string>)
    requires manual != []
    ensures forall l :: l in autoSorted && NonBlank(l) ==> l in MergeAufmass(autoSorted, Some(manual))
  {
    var base := TrimLines(manual);
    var r := MergeAufmass(autoSorted, Some(manual));
    assert r == base + Filter(autoSorted, Extra(base));
    AfterBase(autoSorted, base, r);
  }

  lemma AfterBase(autoSorted: seq<string>, base: seq<string>, r: seq<string>)
    requires r == base + Filter(autoSorted, Extra(base))
    ensures (forall i :: |base| <= i < |r| ==> r[i] in autoSorted && NonBlank(r[i]) && r[i] !in base)
            && (forall l :: l in autoSorted && NonBlank(l) ==> l in r)
  {
    var extras := Filter(autoSorted, Extra(base));
    ExtrasFacts(autoSorted, base);
    forall i | |base| <= i < |r| ensures r[i] in autoSorted && NonBlank(r[i]) && r[i] !in base {
      assert r[i] == extras[i - |base|];
    }
    forall l | l in autoSorted && NonBlank(l) ensures l in r {
      if l !in base {
        assert l in extras;
        var j :| 0 <= j < |extras| && extras[j] == l;
        assert r[|base| + j] == l;
      }
    }
  }

  lemma ExtrasFacts(autoSorted: seq<string>, base: seq<string>)
    ensures var extras := Filter(autoSorted, Extra(base));
            forall j :: 0 <= j < |extras| ==> extras[j] in autoSorted && NonBlank(extras[j]) && extras[j] !in base
  {
    var extras := Filter(autoSorted, Extra(base));
    forall j | 0 <= j < |extras| ensures extras[j] in autoSorted && NonBlank(extras[j]) && extras[j] !in base {
      assert extras[j] in extras;
    }
  }

  /** The Aufmaß text the generator writes: the collected lines sorted, then
      merged with the manual override of the session. */
  function FinalAufmass(aufmass: seq<string>, elems: seq<Element>): (r: seq<string>)
    ensures ManualLines(elems).None? ==> r == SortAufmassLines(aufmass)
  {
    MergeAufmass(SortAufmassLines(aufmass), ManualLines(elems))
  }

  /** Once manual lines with some non-blank text are set, they head the
      final Aufmaß in the order given. */
  lemma SetLinesHeadFinal(aufmass: seq<string>, elems: seq<Element>, lines: seq<string>)
    requires TrimLines(lines) != []
    ensures var r := FinalAufmass(aufmass, WithManualLines(elems, lines));
            |TrimLines(lines)| <= |r| && r[..|TrimLines(lines)|] == TrimLines(lines)
  {
    SetThenGet(elems, lines);
    TrimLinesIdempotent(lines);
  }
}
