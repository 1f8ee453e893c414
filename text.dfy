/** The string operations the system relies on: Python's `str.isspace`,
    `strip`, `lower`, substring tests, decimal digits and `splitlines`, and the
    character classes `\s`, `\d` and `\w` of its regular expressions. */
module Text {
  import opened Wrappers

  /** Python's `str.isspace`, which is also what `\s` matches in a str pattern. */
  predicate IsSpace(c: char) {
    c == ' ' || ('\t' <= c <= '\r') || ('\U{1c}' <= c <= '\U{1f}')
    || c == '\U{85}' || c == '\U{a0}' || c == '\U{1680}'
    || ('\U{2000}' <= c <= '\U{200a}')
    || c == '\U{2028}' || c == '\U{2029}' || c == '\U{202f}' || c == '\U{205f}' || c == '\U{3000}'
  }

  /** `\d` (ASCII digits; see README for the other Unicode digits). */
  predicate IsDigit(c: char) {
    '0' <= c <= '9'
  }

  predicate IsAsciiLetter(c: char) {
    ('a' <= c <= 'z') || ('A' <= c <= 'Z')
  }

  /** `\w`: letters, digits and the underscore (ASCII and Latin-1). */
  predicate IsWordChar(c: char) {
    IsAsciiLetter(c) || IsDigit(c) || c == '_'
    || c == '\U{aa}' || c == '\U{b5}' || c == '\U{ba}'
    || ('\U{c0}' <= c <= '\U{ff}' && c != '\U{d7}' && c != '\U{f7}')
  }

  /** `str.lower` on one character (ASCII, Latin-1 and the capital sharp s). */
  function Lower(c: char): (r: char)
    ensures 'A' <= c <= 'Z' ==> r as int == c as int + 32
    ensures !IsAsciiLetter(c) && c < '\U{c0}' ==> r == c
    ensures IsSpace(r) <==> IsSpace(c)
    ensures IsDigit(r) <==> IsDigit(c)
  {
    if 'A' <= c <= 'Z' || ('\U{c0}' <= c <= '\U{de}' && c != '\U{d7}') then (c as int + 32) as char
    else if c == '\U{1e9e}' then '\U{df}'
    else c
  }

  function LowerStr(s: string): (r: string)
    ensures |r| == |s| && forall i :: 0 <= i < |s| ==> r[i] == Lower(s[i])
  {
    if s == [] then [] else [Lower(s[0])] + LowerStr(s[1..])
  }

  lemma {:induction false} LowerStrAppend(s: string, t: string)
    ensures LowerStr(s + t) == LowerStr(s) + LowerStr(t)
  {
    var a, b := LowerStr(s + t), LowerStr(s) + LowerStr(t);
    assert |a| == |b|;
    forall i | 0 <= i < |a| ensures a[i] == b[i] {
      if i < |s| { assert (s + t)[i] == s[i]; } else { assert (s + t)[i] == t[i - |s|]; }
    }
  }

  /** Text of lower-case ASCII letters and '_' is its own lower-case form. */
  lemma LowerFixed(s: string)
    requires forall i :: 0 <= i < |s| ==> 'a' <= s[i] <= 'z' || s[i] == '_'
    ensures LowerStr(s) == s
  {
    var r := LowerStr(s);
    forall i | 0 <= i < |s| ensures r[i] == s[i] {
      assert !('A' <= s[i] <= 'Z') && s[i] < '\U{c0}' && s[i] != '\U{1e9e}';
    }
  }

  lemma LowerIdempotent(c: char)
    ensures Lower(Lower(c)) == Lower(c)
  {
  }

  /** Lower-casing twice is lower-casing once. */
  lemma LowerStrIdempotent(s: string)
    ensures LowerStr(LowerStr(s)) == LowerStr(s)
  {
    var a, b := LowerStr(LowerStr(s)), LowerStr(s);
    forall i | 0 <= i < |s| ensures a[i] == b[i] {
      LowerIdempotent(s[i]);
    }
  }

  /** `s.lstrip()`. */
  function StripStart(s: string): (r: string)
    ensures |r| <= |s| && r == s[|s| - |r|..]
    ensures forall i :: 0 <= i < |s| - |r| ==> IsSpace(s[i])
    ensures r == [] || !IsSpace(r[0])
  {
    if s != [] && IsSpace(s[0]) then StripStart(s[1..]) else s
  }

  /** `s.rstrip()`. */
  function StripEnd(s: string): (r: string)
    ensures |r| <= |s| && r == s[..|r|]
    ensures forall i :: |r| <= i < |s| ==> IsSpace(s[i])
    ensures r == [] || !IsSpace(r[|r| - 1])
  {
    if s != [] && IsSpace(s[|s| - 1]) then StripEnd(s[..|s| - 1]) else s
  }

  /** `s.strip()`. */
  function Strip(s: string): (r: string)
  {
    StripEnd(StripStart(s))
  }

  /** `strip` removes exactly the leading and trailing white space: the result is
      a slice of the input that neither starts nor ends with a space, and all
      that it leaves out is white space. */
  lemma StripSlice(s: string) returns (i: nat, j: nat)
    ensures i <= j <= |s| && Strip(s) == s[i..j]
    ensures forall k :: 0 <= k < i ==> IsSpace(s[k])
    ensures forall k :: j <= k < |s| ==> IsSpace(s[k])
    ensures Strip(s) == [] || (!IsSpace(Strip(s)[0]) && !IsSpace(Strip(s)[|Strip(s)| - 1]))
  {
    var a := StripStart(s);
    var b := StripEnd(a);
    i := |s| - |a|;
    j := i + |b|;
    assert Strip(s) == b;
    TrimmedSlice(s, a, b, i);
  }

  /** A trailing trim b of a leading trim a of s is the slice s[i..i+|b|],
      and what it leaves out at the end is what a leaves out. */
  lemma TrimmedSlice(s: string, a: string, b: string, i: nat)
    requires i + |a| == |s| && a == s[i..]
    requires |b| <= |a| && b == a[..|b|]
    requires forall k :: |b| <= k < |a| ==> IsSpace(a[k])
    requires a == [] || !IsSpace(a[0])
    requires b == [] || !IsSpace(b[|b| - 1])
    ensures b == s[i..i + |b|]
    ensures forall k :: i + |b| <= k < |s| ==> IsSpace(s[k])
    ensures b == [] || (!IsSpace(b[0]) && !IsSpace(b[|b| - 1]))
  {
    forall k | i + |b| <= k < |s| ensures IsSpace(s[k]) {
      assert s[k] == a[k - i];
    }
    if b != [] {
      assert b[0] == a[0];
    }
  }

  /** `s.strip()` computed in one recursion and without a contract, for
      records that carry stripped text: StripRecIsStrip shows it is `Strip`. */
  function StripRec(s: string): string
    decreases |s|
  {
    if s != [] && IsSpace(s[0]) then StripRec(s[1..])
    else if s != [] && IsSpace(s[|s| - 1]) then StripRec(s[..|s| - 1])
    else s
  }

  lemma {:induction false} StripRecIsStrip(s: string)
    ensures StripRec(s) == Strip(s)
    decreases |s|
  {
    if s != [] && IsSpace(s[0]) {
      StripRecIsStrip(s[1..]);
    } else if s != [] && IsSpace(s[|s| - 1]) {
      var t := s[..|s| - 1];
      StripRecIsStrip(t);
      assert StripStart(s) == s;
      if t != [] {
        assert t[0] == s[0];
      }
      assert StripStart(t) == t;
    }
  }

  /** A string that is all white space strips to nothing (`str(x).strip()` is falsy). */
  lemma StripEmpty(s: string)
    ensures Strip(s) == [] <==> forall k :: 0 <= k < |s| ==> IsSpace(s[k])
  {
    var i, j := StripSlice(s);
  }

  /** Stripping twice is stripping once. */
  lemma StripIdempotent(s: string)
    ensures Strip(Strip(s)) == Strip(s)
  {
    var r := Strip(s);
    var i, j := StripSlice(s);
    if r != [] {
      assert !IsSpace(r[0]);
      assert StripStart(r) == r;
      assert !IsSpace(r[|r| - 1]);
    }
  }

  /** sub occurs in s at position i. */
  predicate OccursAt(s: string, sub: string, i: nat) {
    i + |sub| <= |s| && s[i..i + |sub|] == sub
  }

  /** `sub in s`. */
  predicate Contains(s: string, sub: string)
    decreases |s|
  {
    if |sub| > |s| then false
    else s[..|sub|] == sub || Contains(s[1..], sub)
  }

  lemma {:induction false} ContainsAt(s: string, sub: string)
    ensures Contains(s, sub) <==> exists i: nat :: OccursAt(s, sub, i)
    decreases |s|
  {
    if s == [] && sub == [] {
      assert OccursAt(s, sub, 0);
    } else if |sub| <= |s| {
      ContainsAt(s[1..], sub);
      if Contains(s[1..], sub) {
        var i: nat :| OccursAt(s[1..], sub, i);
        assert s[i + 1..i + 1 + |sub|] == s[1..][i..i + |sub|];
        assert OccursAt(s, sub, i + 1);
      }
      if s[..|sub|] == sub {
        assert OccursAt(s, sub, 0);
      }
      if exists i: nat :: OccursAt(s, sub, i) {
        var i: nat :| OccursAt(s, sub, i);
        if i > 0 {
          assert s[1..][i - 1..i - 1 + |sub|] == s[i..i + |sub|];
          assert OccursAt(s[1..], sub, i - 1);
        }
      }
    } else {
      assert forall i: nat :: !OccursAt(s, sub, i);
    }
  }

  /** The empty string is contained in every string. */
  lemma {:induction false} ContainsEmpty(s: string)
    ensures Contains(s, "")
  {
    assert s[..0] == "";
  }

  /** Whatever surrounds an occurrence keeps it. */
  lemma {:induction false} ContainsSurrounded(a: string, sub: string, b: string)
    ensures Contains(a + sub + b, sub)
  {
    ContainsAt(a + sub + b, sub);
    assert (a + sub + b)[|a|..|a| + |sub|] == sub;
    assert OccursAt(a + sub + b, sub, |a|);
  }

  /** s[p..] starts with word w (given in lower case) ignoring case. */
  predicate MatchesIgnoreCase(s: string, p: nat, w: string)
    requires p <= |s|
  {
    p + |w| <= |s| && forall i :: 0 <= i < |w| ==> Lower(s[p + i]) == w[i]
  }

  /** `s.startswith(p)`. */
  predicate StartsWith(s: string, p: string) {
    |p| <= |s| && s[..|p|] == p
  }

  /** `s.endswith(p)`. */
  predicate EndsWith(s: string, p: string) {
    |p| <= |s| && s[|s| - |p|..] == p
  }

  /** Value of a run of decimal digits. */
  function DigitsValue(s: string): (n: nat)
    requires forall i :: 0 <= i < |s| ==> IsDigit(s[i])
    decreases |s|
  {
    if s == [] then 0
    else
      assert IsDigit(s[|s| - 1]);
      DigitsValue(s[..|s| - 1]) * 10 + (s[|s| - 1] as int - '0' as int)
  }

  function DigitChar(d: nat): (c: char)
    requires d < 10
    ensures IsDigit(c) && c as int - '0' as int == d
  {
    (d + '0' as int) as char
  }

  /** `str(n)` for a natural number. */
  function NatToString(n: nat): (s: string)
    ensures |s| > 0 && forall i :: 0 <= i < |s| ==> IsDigit(s[i])
    decreases n
  {
    if n < 10 then [DigitChar(n)] else NatToString(n / 10) + [DigitChar(n % 10)]
  }

  /** `int(str(n)) == n`. */
  lemma {:induction false} NatToStringValue(n: nat)
    ensures DigitsValue(NatToString(n)) == n
    decreases n
  {
    var s := NatToString(n);
    if n < 10 {
      assert s[..0] == [];
    } else {
      NatToStringValue(n / 10);
      assert s[..|s| - 1] == NatToString(n / 10);
    }
  }

  /** `str(i)` for an integer. */
  function IntToString(i: int): (s: string)
    ensures |s| > 0
    ensures i >= 0 ==> s == NatToString(i)
    ensures i < 0 ==> s == "-" + NatToString(-i)
  {
    if i >= 0 then NatToString(i) else "-" + NatToString(-i)
  }

  /** Length of the longest run of digits at the start of s. */
  function DigitRun(s: string): (n: nat)
    ensures n <= |s|
    ensures forall i :: 0 <= i < n ==> IsDigit(s[i])
    ensures n == |s| || !IsDigit(s[n])
  {
    if s != [] && IsDigit(s[0]) then 1 + DigitRun(s[1..]) else 0
  }

  /** Digits followed by a non-digit: the digit run ends there. */
  lemma {:induction false} DigitRunStops(ds: string, u: string)
    requires forall i :: 0 <= i < |ds| ==> IsDigit(ds[i])
    requires u == [] || !IsDigit(u[0])
    ensures DigitRun(ds + u) == |ds|
    decreases |ds|
  {
    if ds != [] {
      assert (ds + u)[1..] == ds[1..] + u;
      DigitRunStops(ds[1..], u);
    } else {
      assert ds + u == u;
    }
  }

  /** Length of the longest run of white space at the start of s. */
  function SpaceRun(s: string): (n: nat)
    ensures n <= |s|
    ensures forall i :: 0 <= i < n ==> IsSpace(s[i])
    ensures n == |s| || !IsSpace(s[n])
  {
    if s != [] && IsSpace(s[0]) then 1 + SpaceRun(s[1..]) else 0
  }

  /** `\b` right after position k of s, where s[k-1] is a word character. */
  predicate WordEndsAt(s: string, k: nat)
    requires k <= |s|
  {
    k == |s| || !IsWordChar(s[k])
  }

  /** The characters at which `str.splitlines` breaks a line (`\r\n` counts once). */
  predicate IsLineBreak(c: char) {
    ('\n' <= c <= '\r') || ('\U{1c}' <= c <= '\U{1e}') || c == '\U{85}' || c == '\U{2028}' || c == '\U{2029}'
  }

  /** Index of the first line break at or after k, or |s|. */
  function NextBreak(s: string, k: nat): (j: nat)
    requires k <= |s|
    ensures k <= j <= |s|
    ensures forall i :: k <= i < j ==> !IsLineBreak(s[i])
    ensures j == |s| || IsLineBreak(s[j])
    decreases |s| - k
  {
    if k == |s| || IsLineBreak(s[k]) then k else NextBreak(s, k + 1)
  }

  /** Position of the first c in s, or |s|. */
  function IndexOf(s: string, c: char): (i: nat)
    ensures i <= |s| && c !in s[..i]
    ensures i < |s| ==> s[i] == c
    ensures i == |s| <==> c !in s
  {
    if s == [] then 0
    else if s[0] == c then 0
    else
      var j := IndexOf(s[1..], c);
      assert s[..j + 1] == [s[0]] + s[1..][..j];
      j + 1
  }

  /** `s.splitlines()`: the lines without their terminators, no trailing empty line. */
  function SplitLines(s: string): (r: seq<string>)
    ensures s == [] ==> r == []
    ensures forall l :: l in r ==> forall i :: 0 <= i < |l| ==> !IsLineBreak(l[i])
    decreases |s|
  {
    if s == [] then []
    else
      var j := NextBreak(s, 0);
      var line := s[..j];
      if j == |s| then [line]
      else
        var next := if s[j] == '\r' && j + 1 < |s| && s[j + 1] == '\n' then j + 2 else j + 1;
        [line] + SplitLines(s[next..])
  }

  /** `sep.join(parts)`. */
  function Join(parts: seq<string>, sep: string): (r: string)
  {
    if parts == [] then [] else if |parts| == 1 then parts[0] else parts[0] + sep + Join(parts[1..], sep)
  }

  /** A text without line breaks is one line. */
  lemma SplitLinesSingle(s: string)
    requires s != [] && forall i :: 0 <= i < |s| ==> !IsLineBreak(s[i])
    ensures SplitLines(s) == [s]
  {
    NextBreakNone(s, 0);
    assert s[..|s|] == s;
  }

  lemma {:induction false} NextBreakNone(s: string, k: nat)
    requires k <= |s| && forall i :: k <= i < |s| ==> !IsLineBreak(s[i])
    ensures NextBreak(s, k) == |s|
    decreases |s| - k
  {
    if k < |s| { NextBreakNone(s, k + 1); }
  }

  /** Joining lines with "\n" and splitting the text again gives the lines back,
      when no line is empty or holds a line break. */
  lemma {:induction false} SplitJoin(parts: seq<string>)
    requires forall l :: l in parts ==> l != [] && forall i :: 0 <= i < |l| ==> !IsLineBreak(l[i])
    ensures SplitLines(Join(parts, "\n")) == parts
    decreases |parts|
  {
    if |parts| == 1 {
      SplitLinesSingle(parts[0]);
    } else if |parts| > 1 {
      var rest := Join(parts[1..], "\n");
      assert Join(parts, "\n") == parts[0] + "\n" + rest;
      assert parts[0] in parts && parts[1] in parts;
      JoinNonEmpty(parts[1..]);
      SplitStep(parts[0], rest);
      forall l | l in parts[1..] ensures l != [] && forall i :: 0 <= i < |l| ==> !IsLineBreak(l[i]) {
        assert l in parts;
      }
      SplitJoin(parts[1..]);
      assert parts == [parts[0]] + parts[1..];
    }
  }

  /** A line, "\n" and a non-empty rest split into the line and the rest's lines. */
  lemma SplitStep(p: string, rest: string)
    requires p != [] && forall i :: 0 <= i < |p| ==> !IsLineBreak(p[i])
    requires rest != []
    ensures SplitLines(p + "\n" + rest) == [p] + SplitLines(rest)
  {
    var s := p + "\n" + rest;
    assert forall i :: 0 <= i < |p| ==> s[i] == p[i];
    assert s[|p|] == '\n';
    NextBreakAt(s, 0, |p|);
    assert s[|p| + 1..] == rest;
    assert s[..|p|] == p;
  }

  lemma NextBreakAt(s: string, k: nat, j: nat)
    requires k <= j < |s| && IsLineBreak(s[j])
    requires forall i :: k <= i < j ==> !IsLineBreak(s[i])
    ensures NextBreak(s, k) == j
    decreases j - k
  {
    if k < j { NextBreakAt(s, k + 1, j); }
  }

  lemma {:induction false} JoinNonEmpty(parts: seq<string>)
    requires parts != [] && parts[0] != []
    ensures Join(parts, "\n") != [] && Join(parts, "\n")[0] == parts[0][0]
  {
    if |parts| > 1 {
      assert Join(parts, "\n") == parts[0] + ("\n" + Join(parts[1..], "\n"));
    }
  }

  /** Digits with single underscores between them, as `int` accepts. */
  predicate IsDigitGroups(s: string) {
    s != [] && IsDigit(s[0]) && IsDigit(s[|s| - 1])
    && (forall k :: 0 <= k < |s| ==> IsDigit(s[k]) || s[k] == '_')
    && (forall k :: 0 <= k < |s| - 1 ==> !(s[k] == '_' && s[k + 1] == '_'))
  }

  /** The digits of s, underscores removed. */
  function DigitsOnly(s: string): (r: string)
    requires forall k :: 0 <= k < |s| ==> IsDigit(s[k]) || s[k] == '_'
    ensures forall k :: 0 <= k < |r| ==> IsDigit(r[k])
    ensures (forall k :: 0 <= k < |s| ==> IsDigit(s[k])) ==> r == s
  {
    if s == [] then []
    else (if s[0] == '_' then [] else [s[0]]) + DigitsOnly(s[1..])
  }

  /** `int(s)` for a text: surrounding white space, an optional sign and
      digit groups; None where `int` raises. */
  function ParseInt(s: string): (r: Option<int>)
  {
    var t := StripRec(s);
    if t != [] && (t[0] == '+' || t[0] == '-') && IsDigitGroups(t[1..]) then
      var n: int := DigitsValue(DigitsOnly(t[1..]));
      Some(if t[0] == '-' then -n else n)
    else if IsDigitGroups(t) then Some(DigitsValue(DigitsOnly(t)))
    else None
  }

  /** A text that is no integer reads as nothing: the sign and digits tests fail. */
  lemma ParseIntNone(s: string)
    requires forall k :: 0 <= k < |s| ==> !IsDigit(s[k])
    ensures ParseInt(s) == None
  {
    StripRecIsStrip(s);
    var i, j := StripSlice(s);
    var t := Strip(s);
    assert forall k :: 0 <= k < |t| ==> t[k] == s[i + k];
    if t != [] && |t| > 1 {
      assert t[1..][0] == t[1];
    }
  }

  /** `int(str(n)) == n`. */
  lemma ParseIntOfNat(n: nat)
    ensures ParseInt(NatToString(n)) == Some(n)
  {
    var s := NatToString(n);
    DigitsStripped(s);
    StripRecIsStrip(s);
    DigitGroupsOfDigits(s);
    NatToStringValue(n);
  }

  /** A run of digits has no surrounding white space. */
  lemma DigitsStripped(s: string)
    requires s != [] && forall k :: 0 <= k < |s| ==> IsDigit(s[k])
    ensures Strip(s) == s
  {
    assert !IsSpace(s[0]);
    assert StripStart(s) == s;
    assert !IsSpace(s[|s| - 1]);
  }

  /** A run of digits is read without change. */
  lemma DigitGroupsOfDigits(s: string)
    requires s != [] && forall k :: 0 <= k < |s| ==> IsDigit(s[k])
    ensures IsDigitGroups(s) && DigitsOnly(s) == s && s[0] != '+' && s[0] != '-'
  {
  }
}
