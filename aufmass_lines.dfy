/** The Aufmaß lines the drawing generator writes (main.py:1074-1087 and the
    f-strings of the generator loop), kept as records until the end, and the
    proof that the sort key reads each one as the category and number it was
    written for. */
module AufmassLines {
  import opened Wrappers
  import opened Text
  import opened Numbers
  import opened Aufmass
  import opened Order

  /** One generated line, before it is written as text. */
  datatype AufLine =
    /** "Baugraben k: l=… m  b=… m  t=… m", optionally with "  GOK=…". */
    | TrenchRow(no: nat, length: real, width: real, depthRef: real, depthLeft: real, depthRight: real, gok: real)
    /** "Rohr k: l=… m  Ø=… m", optionally with "  Versatz=…". */
    | PipeRow(no: nat, eff: real, diameter: real, offset: real)
    /** "Rohr a–b: …" for a pipe running through a cluster of trenches. */
    | ClusterPipeRow(first: nat, last: nat, eff: real, diameter: real, offset: real)
    /** "Oberfläche k: Randzone=… m  l=… m  b=… m", optionally with the material. */
    | SurfaceRectRow(no: nat, offset: real, length: real, width: real, material: string)
    /** "Oberfläche k.j: …" written by `_append_surface_segments_aufmass`. */
    | SegmentLine(no: nat, row: SegmentRow)
    /** "Durchstich s: l=… m". */
    | PassageRow(seam: nat, length: real)

  /** Depth differences below this are written as one depth `t=`. */
  const SameDepthEps: real := 0.000000001
  /** Ground levels not further than this from 0 are not written. */
  const GokEps: real := 0.000000001

  /** The part of a trench line after "Baugraben k:". */
  function TrenchDetails(l: AufLine, fmt: real -> string): string
    requires l.TrenchRow?
  {
    " l=" + fmt(l.length) + " m  b=" + fmt(l.width) + " m  "
    + (if Abs(l.depthLeft - l.depthRight) < SameDepthEps then "t=" + fmt(l.depthRef) + " m"
       else "t_links=" + fmt(l.depthLeft) + " m  t_rechts=" + fmt(l.depthRight) + " m")
    + (if Abs(l.gok) > GokEps then "  GOK=" + (if l.gok >= 0.0 then "+" else "") + fmt(l.gok) + " m" else "")
  }

  /** The part of a pipe line after its head. */
  function PipeDetails(eff: real, diameter: real, offset: real, fmt: real -> string): string {
    " l=" + fmt(eff) + " m  Ø=" + fmt(diameter) + " m"
    + (if offset != 0.0 then "  Versatz=" + fmt(offset) + " m" else "")
  }

  function SurfaceDetails(l: AufLine, fmt: real -> string): string
    requires l.SurfaceRectRow?
  {
    " Randzone=" + fmt(l.offset) + " m  l=" + fmt(l.length) + " m  b=" + fmt(l.width) + " m"
    + (if l.material != "" then "  Material=" + l.material else "")
  }

  /** The text of a line; `fmt` is Python's text form of a float. */
  function Render(l: AufLine, fmt: real -> string): string {
    match l
    case TrenchRow(no, _, _, _, _, _, _) => "Baugraben" + " " + NatToString(no) + ":" + TrenchDetails(l, fmt)
    case PipeRow(no, eff, d, off) => "Rohr" + " " + NatToString(no) + ":" + PipeDetails(eff, d, off, fmt)
    case ClusterPipeRow(a, b, eff, d, off) =>
      "Rohr" + " " + NatToString(a) + ("–" + NatToString(b) + ":" + PipeDetails(eff, d, off, fmt))
    case SurfaceRectRow(no, _, _, _, _) => "Oberfläche" + " " + NatToString(no) + ":" + SurfaceDetails(l, fmt)
    case SegmentLine(no, row) => RowText(no, row, fmt)
    case PassageRow(s, len) => "Durchstich" + " " + NatToString(s) + ":" + (" l=" + fmt(len) + " m")
  }

  function RenderAll(lines: seq<AufLine>, fmt: real -> string): (r: seq<string>)
    ensures |r| == |lines| && forall k :: 0 <= k < |lines| ==> r[k] == Render(lines[k], fmt)
  {
    seq(|lines|, k requires 0 <= k < |lines| => Render(lines[k], fmt))
  }

  /** The category and number each kind of line is written for. */
  function ClassFor(l: AufLine): LineClass {
    match l
    case TrenchRow(no, _, _, _, _, _, _) => TrenchLine(no)
    case PipeRow(no, _, _, _) => PipeLine(no)
    case ClusterPipeRow(a, _, _, _, _) => PipeLine(a)
    case SurfaceRectRow(no, _, _, _, _) => SurfaceLine(no, 0)
    case SegmentLine(no, row) => SurfaceLine(no, row.no)
    case PassageRow(s, _) => PassageLine(s)
  }

  /** The sort key reads every generated line as the category and number it
      was written for: trench k as "Baugraben k", a cluster pipe by its first
      trench, a surface rectangle as sub-number 0. */
  lemma RenderClass(l: AufLine, fmt: real -> string)
    ensures ClassOf(Render(l, fmt)) == ClassFor(l)
  {
    match l
    case TrenchRow(no, _, _, _, _, _, _) =>
      TrenchClass(Render(l, fmt), no, TrenchDetails(l, fmt));
    case PipeRow(no, eff, d, off) =>
      PipeClass(Render(l, fmt), no, ":", PipeDetails(eff, d, off, fmt));
    case ClusterPipeRow(a, b, eff, d, off) =>
      PipeClass(Render(l, fmt), a, "–", NatToString(b) + ":" + PipeDetails(eff, d, off, fmt));
    case SurfaceRectRow(no, _, _, _, _) =>
      SurfaceRectClass(Render(l, fmt), no, SurfaceDetails(l, fmt));
    case SegmentLine(no, row) =>
      RowTextClass(no, row, fmt);
    case PassageRow(s, len) =>
      PassageClass(Render(l, fmt), s, " l=" + fmt(len) + " m");
  }

  function ClassIs(c: LineClass): string -> bool {
    (line: string) => ClassOf(line) == c
  }

  function WrittenFor(c: LineClass): AufLine -> bool {
    (l: AufLine) => ClassFor(l) == c
  }

  /** As many rendered lines fall in a category and number as records were
      written for it. */
  lemma RenderCount(lines: seq<AufLine>, fmt: real -> string, c: LineClass)
    ensures Count(RenderAll(lines, fmt), ClassIs(c)) == Count(lines, WrittenFor(c))
  {
    var r := RenderAll(lines, fmt);
    forall k | 0 <= k < |lines| ensures ClassIs(c)(r[k]) <==> WrittenFor(c)(lines[k]) {
      RenderClass(lines[k], fmt);
    }
    CountPaired(lines, r, WrittenFor(c), ClassIs(c));
  }

  /** Sorting the rendered lines keeps those counts. */
  lemma SortedCount(lines: seq<AufLine>, fmt: real -> string, c: LineClass)
    ensures Count(SortAufmassLines(RenderAll(lines, fmt)), ClassIs(c)) == Count(lines, WrittenFor(c))
  {
    RenderCount(lines, fmt, c);
    CountMultiset(SortAufmassLines(RenderAll(lines, fmt)), RenderAll(lines, fmt), ClassIs(c));
  }

  lemma TrenchClass(line: string, no: nat, t: string)
    requires line == "Baugraben" + " " + NatToString(no) + ":" + t
    ensures ClassOf(line) == TrenchLine(no)
  {
    var rest := HeadLine("Baugraben", no, ":", t);
    TrenchKey(Strip(line), no, rest);
    TrenchFirst(line);
  }

  /** The key stops at "baugraben" when it matches and its number ends a word. */
  lemma TrenchFirst(line: string)
    requires NumberAfter(Strip(line), "baugraben").Some?
    requires WordEndsAt(Strip(line), NumberAfter(Strip(line), "baugraben").value.1)
    ensures ClassOf(line) == TrenchLine(NumberAfter(Strip(line), "baugraben").value.0)
  {
  }

  lemma TrenchKey(s: string, no: nat, rest: string)
    requires s == "Baugraben" + (" " + NatToString(no) + rest)
    requires rest != [] && rest[0] == ':'
    ensures NumberAfter(s, "baugraben") == Some((no, 10 + |NatToString(no)|))
    ensures WordEndsAt(s, 10 + |NatToString(no)|)
  {
    BaugrabenWord();
    KeywordNumber(s, "Baugraben", "baugraben", no, rest);
    var e := 9 + 1 + |NatToString(no)|;
    assert s[e] == rest[0];
  }

  lemma PipeClass(line: string, no: nat, sep: string, t: string)
    requires sep == ":" || sep == "–"
    requires line == "Rohr" + " " + NatToString(no) + sep + t
    ensures ClassOf(line) == PipeLine(no)
  {
    var rest := HeadLine("Rohr", no, sep, t);
    var s := Strip(line);
    assert s[..4] == "Rohr";
    PipeWord(s);
    KeywordNumber(s, "Rohr", "rohr", no, rest);
    PipeFirst(line);
  }

  /** The key falls through to "rohr" when "baugraben" does not match. */
  lemma PipeFirst(line: string)
    requires !MatchesIgnoreCase(Strip(line), 0, "baugraben")
    requires NumberAfter(Strip(line), "rohr").Some?
    ensures ClassOf(line) == PipeLine(NumberAfter(Strip(line), "rohr").value.0)
  {
  }

  /** The key reaches "durchstich" when neither earlier keyword matches. */
  lemma PassageNext(line: string)
    requires !MatchesIgnoreCase(Strip(line), 0, "baugraben") && !MatchesIgnoreCase(Strip(line), 0, "rohr")
    requires NumberAfter(Strip(line), "durchstich").Some?
    requires WordEndsAt(Strip(line), NumberAfter(Strip(line), "durchstich").value.1)
    ensures ClassOf(line) == PassageLine(NumberAfter(Strip(line), "durchstich").value.0)
  {
  }

  lemma PassageClass(line: string, no: nat, t: string)
    requires line == "Durchstich" + " " + NatToString(no) + ":" + t
    ensures ClassOf(line) == PassageLine(no)
  {
    var rest := HeadLine("Durchstich", no, ":", t);
    PassageKey(Strip(line), no, rest);
    PassageNext(line);
  }

  lemma PassageKey(s: string, no: nat, rest: string)
    requires s == "Durchstich" + (" " + NatToString(no) + rest)
    requires rest != [] && rest[0] == ':'
    ensures !MatchesIgnoreCase(s, 0, "baugraben") && !MatchesIgnoreCase(s, 0, "rohr")
    ensures NumberAfter(s, "durchstich") == Some((no, 11 + |NatToString(no)|))
    ensures WordEndsAt(s, 11 + |NatToString(no)|)
  {
    assert s[..10] == "Durchstich";
    PassageWord(s);
    KeywordNumber(s, "Durchstich", "durchstich", no, rest);
    var e := 10 + 1 + |NatToString(no)|;
    assert s[e] == rest[0];
  }

  lemma SurfaceRectClass(line: string, no: nat, t: string)
    requires line == "Oberfläche" + " " + NatToString(no) + ":" + t
    ensures ClassOf(line) == SurfaceLine(no, 0)
  {
    var rest := HeadLine("Oberfläche", no, ":", t);
    var d := NatToString(no);
    var y := " " + d + rest;
    var s := "Oberfläche" + y;
    var e := 1 + |d|;
    assert Strip(line) == s;
    SpacedNumberOf(no, rest);
    Suffix("Oberfläche", " " + d, rest);
    assert s[10 + e..] == rest;
    assert SubNumber(s, 10 + e) == 0;
    SurfaceClass(line, s, y, no, e, 0);
  }

  /** A line made of a keyword, a space, a number, a separator and more text
      strips to the keyword followed by " n" and the rest. */
  lemma HeadLine(w: string, n: nat, sep: string, t: string) returns (rest: string)
    requires w != [] && !IsSpace(w[0]) && sep != [] && !IsSpace(sep[|sep| - 1]) && !IsDigit(sep[0])
    ensures Strip(w + " " + NatToString(n) + sep + t) == w + (" " + NatToString(n) + rest)
    ensures rest == sep + StripEnd(t) && !IsDigit(rest[0])
  {
    var d := NatToString(n);
    var h := w + " " + d + sep;
    assert h[0] == w[0];
    assert h[|h| - 1] == sep[|sep| - 1];
    StripAfterHead(h, t);
    rest := sep + StripEnd(t);
    Regroup4(w, " ", d, sep, StripEnd(t));
  }

  lemma Regroup4(a: string, b: string, c: string, d: string, e: string)
    ensures a + b + c + d + e == a + (b + c + (d + e))
  {
  }

  /** A keyword written with any capitals, a space and a number, then a
      non-digit: the key reads the number and stops before the non-digit. */
  lemma KeywordNumber(s: string, word: string, w: string, n: nat, rest: string)
    requires s == word + (" " + NatToString(n) + rest)
    requires |word| == |w| && forall i :: 0 <= i < |w| ==> Lower(word[i]) == w[i]
    requires rest == [] || !IsDigit(rest[0])
    ensures NumberAfter(s, w) == Some((n, |w| + 1 + |NatToString(n)|))
    ensures s[|w| + 1 + |NatToString(n)|..] == rest
  {
    var d := NatToString(n);
    forall i | 0 <= i < |w| ensures Lower(s[i]) == w[i] {
      assert s[i] == word[i];
    }
    assert s[|w|..] == " " + d + rest;
    SpacedNumberOf(n, rest);
  }

  lemma BaugrabenWord()
    ensures forall i :: 0 <= i < 9 ==> Lower("Baugraben"[i]) == "baugraben"[i]
  {
  }

  lemma PipeWord(s: string)
    requires |s| >= 4 && s[..4] == "Rohr"
    ensures !MatchesIgnoreCase(s, 0, "baugraben")
    ensures forall i :: 0 <= i < 4 ==> Lower("Rohr"[i]) == "rohr"[i]
  {
    assert s[0] == 'R';
    NoMatchAt(s, "baugraben", 0);
  }

  lemma PassageWord(s: string)
    requires |s| >= 10 && s[..10] == "Durchstich"
    ensures !MatchesIgnoreCase(s, 0, "baugraben") && !MatchesIgnoreCase(s, 0, "rohr")
    ensures forall i :: 0 <= i < 10 ==> Lower("Durchstich"[i]) == "durchstich"[i]
  {
    assert s[0] == 'D';
    NoMatchAt(s, "baugraben", 0);
    NoMatchAt(s, "rohr", 0);
  }
}
