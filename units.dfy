/** Text normalisation, type and field aliases, the unit parser `_num_to_meters`
    and the edit helpers `_coerce_updates` / `_apply_update` of main.py. */
module Units {
  import opened Wrappers
  import opened Text
  import opened Elements

  predicate IsUmlaut(c: char) {
    c == 'ä' || c == 'ö' || c == 'ü' || c == 'ß'
  }

  /** German umlauts and ß spelled out, as `_norm_text` does with `str.replace`. */
  function ExpandUmlauts(s: string): (r: string)
    ensures forall i :: 0 <= i < |r| ==> !IsUmlaut(r[i])
  {
    if s == [] then []
    else
      var c := s[0];
      var head := if c == 'ä' then "ae" else if c == 'ö' then "oe" else if c == 'ü' then "ue"
                  else if c == 'ß' then "ss" else [c];
      head + ExpandUmlauts(s[1..])
  }

  /** `_norm_text`: strip, lower-case, spell out umlauts. */
  function NormText(s: string): (r: string)
    ensures forall i :: 0 <= i < |r| ==> !IsUmlaut(r[i]) && !('A' <= r[i] <= 'Z')
  {
    var l := LowerStr(Strip(s));
    LowerStrNoUpper(Strip(s));
    ExpandKeepsLower(l);
    ExpandUmlauts(l)
  }

  /** Lower-casing leaves no ASCII capital. */
  lemma LowerStrNoUpper(s: string)
    ensures forall i :: 0 <= i < |LowerStr(s)| ==> !('A' <= LowerStr(s)[i] <= 'Z')
  {
    forall i | 0 <= i < |s| ensures !('A' <= Lower(s[i]) <= 'Z') {
    }
  }

  lemma {:induction false} ExpandKeepsLower(s: string)
    requires forall i :: 0 <= i < |s| ==> !('A' <= s[i] <= 'Z')
    ensures forall i :: 0 <= i < |ExpandUmlauts(s)| ==> !('A' <= ExpandUmlauts(s)[i] <= 'Z')
  {
    if s != [] {
      ExpandKeepsLower(s[1..]);
    }
  }

  /** TYPE_ALIASES (main.py:393-408) as a lookup. */
  function TypeAlias(t0: string): (r: Option<string>)
    ensures r.Some? ==> r.value in {"Rohr", "Baugraben", "Oberflächenbefestigung", "Verbindung"}
  {
    if t0 in {"druckrohr", "leitung", "kanal"} then Some("Rohr")
    else if t0 in {"bg", "graben"} then Some("Baugraben")
    else if t0 in {"oberfläche", "oberflaeche", "pflaster", "gehwegplatten", "mosaiksteine"} then Some("Oberflächenbefestigung")
    else if t0 in {"verbindung", "verbinde", "verbund", "connect"} then Some("Verbindung")
    else None
  }

  /** The canonical element types. */
  predicate IsCanonicalType(t: string) {
    t in {"Rohr", "Baugraben", "Oberflächenbefestigung", "Verbindung", "Durchstich"}
  }

  /** `_normalize_type_aliases`. */
  function NormalizeTypeAlias(t: string): (r: string)
  {
    var t0 := NormText(t);
    if TypeAlias(t0).Some? then TypeAlias(t0).value
    else if Contains(t0, "oberflaeche") || Contains(t0, "oberflaechen") then "Oberflächenbefestigung"
      else if Contains(t0, "durchstich") then "Durchstich"
      else if Contains(t0, "rohr") then "Rohr"
      else if Contains(t0, "baugraben") || Contains(t0, "graben") then "Baugraben"
      else t
  }

  /** The alias mapping yields a canonical type or leaves the text alone. */
  lemma NormalizeTypeAliasRange(t: string)
    ensures IsCanonicalType(NormalizeTypeAlias(t)) || NormalizeTypeAlias(t) == t
  {
  }

  /** Text of ASCII letters only normalises to its lower-case form. */
  lemma PlainNormText(s: string)
    requires s != [] && forall i :: 0 <= i < |s| ==> IsAsciiLetter(s[i])
    ensures NormText(s) == LowerStr(s)
  {
    PlainStrip(s);
    PlainLower(s);
    PlainExpand(LowerStr(s));
  }

  lemma PlainStrip(s: string)
    requires s != [] && forall i :: 0 <= i < |s| ==> IsAsciiLetter(s[i])
    ensures Strip(s) == s
  {
    assert !IsSpace(s[0]) && !IsSpace(s[|s| - 1]);
    assert StripStart(s) == s;
    assert StripEnd(s) == s;
  }

  lemma PlainLower(s: string)
    requires forall i :: 0 <= i < |s| ==> IsAsciiLetter(s[i])
    ensures forall i :: 0 <= i < |LowerStr(s)| ==> IsAsciiLetter(LowerStr(s)[i])
  {
  }

  lemma PlainExpand(l: string)
    requires forall i :: 0 <= i < |l| ==> IsAsciiLetter(l[i])
    ensures ExpandUmlauts(l) == l
  {
    ExpandPlain(l);
  }

  /** Text without umlauts is left as it is. */
  lemma {:induction false} ExpandPlain(s: string)
    requires forall i :: 0 <= i < |s| ==> !IsUmlaut(s[i])
    ensures ExpandUmlauts(s) == s
  {
    if s != [] { ExpandPlain(s[1..]); }
  }

  lemma {:induction false} ExpandAppend(s: string, t: string)
    ensures ExpandUmlauts(s + t) == ExpandUmlauts(s) + ExpandUmlauts(t)
    decreases |s|
  {
    if s != [] {
      assert (s + t)[0] == s[0] && (s + t)[1..] == s[1..] + t;
      ExpandAppend(s[1..], t);
    } else {
      assert s + t == t;
    }
  }

  // ---------------------------------------------------------------------------
  // _num_to_meters

  /** x / 10^k: the value of k fraction digits whose digit string reads as x. */
  function Scaled(x: real, k: nat): (r: real)
    ensures x >= 0.0 ==> r >= 0.0
  {
    if k == 0 then x else Scaled(x, k - 1) / 10.0
  }

  predicate IsNumChar(c: char) {
    IsDigit(c) || c == '.'
  }

  /** Length of the run of digits and dots at the start of s. */
  function NumRun(s: string): (n: nat)
    ensures n <= |s|
    ensures forall i :: 0 <= i < n ==> IsNumChar(s[i])
    ensures n == |s| || !IsNumChar(s[n])
  {
    if s != [] && IsNumChar(s[0]) then 1 + NumRun(s[1..]) else 0
  }

  /** A full match of `[0-9]*\.?[0-9]+` and its value as `float` reads it. */
  function ParseNum(r: string): (v: Option<real>)
    ensures v.Some? <==> NumberShape(r)
    ensures v.Some? ==> v.value >= 0.0
    ensures (r != [] && forall i :: 0 <= i < |r| ==> IsDigit(r[i])) ==> v == Some(DigitsValue(r) as real)
  {
    var d := DigitRun(r);
    if d == |r| then
      if d > 0 then Some(DigitsValue(r) as real) else None
    else
      var frac := r[d + 1..];
      if r[d] == '.' && frac != [] && DigitRun(frac) == |frac| then
        Some(DigitsValue(r[..d]) as real + Scaled(DigitsValue(frac) as real, |frac|))
      else None
  }

  /** r is all of `[0-9]*\.?[0-9]+`: digits, or digits, a point and at least one digit. */
  predicate NumberShape(r: string) {
    var d := DigitRun(r);
    if d == |r| then d > 0 else r[d] == '.' && d + 1 < |r| && DigitRun(r[d + 1..]) == |r| - (d + 1)
  }

  /** `re.match(r"^dn\s*(\d+)\b", s)`: the diameter in millimetres. */
  function MatchDn(s: string): (r: Option<nat>)
  {
    if !StartsWith(s, "dn") then None
    else
      var rest := s[2..];
      var t := rest[SpaceRun(rest)..];
      var d := DigitRun(t);
      if d > 0 && WordEndsAt(t, d) then Some(DigitsValue(t[..d])) else None
  }

  /** The units a plain number may carry. */
  datatype Unit = Metre | Centimetre | Millimetre

  /** The unit in `(mm|cm|m)?$`, after optional white space; none means metres. */
  function UnitOf(u: string): Option<Unit> {
    var t := u[SpaceRun(u)..];
    if t == "" || t == "m" then Some(Metre)
    else if t == "cm" then Some(Centimetre)
    else if t == "mm" then Some(Millimetre)
    else None
  }

  /** A value in the given unit, in metres. */
  function InMetres(v: real, unit: Unit): (r: real)
    ensures v >= 0.0 ==> r >= 0.0
  {
    match unit
    case Metre => v
    case Centimetre => v / 100.0
    case Millimetre => v / 1000.0
  }

  /** `re.match(r"^[+-]?([0-9]*\.?[0-9]+)\s*(mm|cm|m)?$", s)`: the value in metres.
      The sign is matched but lies outside the group, so it is dropped. */
  function MatchPlain(s: string): (r: Option<real>)
    ensures r.Some? ==> r.value >= 0.0
  {
    var t := if s != [] && (s[0] == '+' || s[0] == '-') then s[1..] else s;
    var f := NumRun(t);
    WithUnit(ParseNum(t[..f]), t[f..])
  }

  /** A parsed number and the rest of the text, which must be a unit or nothing. */
  function WithUnit(num: Option<real>, rest: string): (r: Option<real>)
    requires num.Some? ==> num.value >= 0.0
    ensures r.Some? ==> r.value >= 0.0
  {
    match num
    case None => None
    case Some(v) =>
      match UnitOf(rest)
      case None => None
      case Some(u) => Some(InMetres(v, u))
  }

  /** The number of `[+-]?([0-9]*\.?[0-9]+)\s*mm` when it matches at position p. */
  function MmAt(s: string, p: nat): (r: Option<real>)
    requires p <= |s|
    ensures r.Some? <==> MmMatchAt(s, SignEnd(s, p))
    ensures r.Some? ==> r.value >= 0.0
  {
    MmNumberAt(s, SignEnd(s, p))
  }

  /** Position p, or the one after it when a sign stands there. */
  function SignEnd(s: string, p: nat): (q: nat)
    requires p <= |s|
    ensures p <= q <= |s|
  {
    if p < |s| && (s[p] == '+' || s[p] == '-') then p + 1 else p
  }

  /** The number of `([0-9]*\.?[0-9]+)\s*mm` when it matches at position q. */
  function MmNumberAt(s: string, q: nat): (r: Option<real>)
    requires q <= |s|
    ensures r.Some? <==> MmMatchAt(s, q)
    ensures r.Some? ==> r.value >= 0.0
  {
    var f := q + NumRunAt(s, q);
    if MmMatchAt(s, q) then ShapeSlice(s, q, f); ParseNum(s[q..f]) else None
  }

  /** Whether `([0-9]*\.?[0-9]+)\s*mm` matches at position q. The search scans
      positions with this test, which reads s by index and leaves the number unparsed. */
  predicate MmMatchAt(s: string, q: nat)
    requires q <= |s|
  {
    var f := q + NumRunAt(s, q);
    var g := f + SpaceRunAt(s, f);
    g + 2 <= |s| && s[g] == 'm' && s[g + 1] == 'm' && NumberShapeAt(s, q, f)
  }

  /** NumRun(s[i..]), by index. */
  function NumRunAt(s: string, i: nat): (n: nat)
    requires i <= |s|
    ensures i + n <= |s|
    decreases |s| - i
  {
    if i < |s| && IsNumChar(s[i]) then 1 + NumRunAt(s, i + 1) else 0
  }

  /** SpaceRun(s[i..]), by index. */
  function SpaceRunAt(s: string, i: nat): (n: nat)
    requires i <= |s|
    ensures i + n <= |s|
    decreases |s| - i
  {
    if i < |s| && IsSpace(s[i]) then 1 + SpaceRunAt(s, i + 1) else 0
  }

  /** DigitRun(s[i..e]), by index. */
  function DigitRunAt(s: string, i: nat, e: nat): (n: nat)
    requires i <= e <= |s|
    ensures i + n <= e
    decreases e - i
  {
    if i < e && IsDigit(s[i]) then 1 + DigitRunAt(s, i + 1, e) else 0
  }

  /** NumberShape(s[q..f]), by index. */
  predicate NumberShapeAt(s: string, q: nat, f: nat)
    requires q <= f <= |s|
  {
    var d := DigitRunAt(s, q, f);
    if q + d == f then d > 0
    else s[q + d] == '.' && q + d + 1 < f && q + d + 1 + DigitRunAt(s, q + d + 1, f) == f
  }

  lemma {:induction false} DigitRunSlice(s: string, i: nat, e: nat)
    requires i <= e <= |s|
    ensures DigitRunAt(s, i, e) == DigitRun(s[i..e])
    decreases e - i
  {
    if i < e {
      assert s[i..e][0] == s[i] && s[i..e][1..] == s[i + 1..e];
      DigitRunSlice(s, i + 1, e);
    }
  }

  lemma ShapeSlice(s: string, q: nat, f: nat)
    requires q <= f <= |s|
    ensures NumberShapeAt(s, q, f) <==> NumberShape(s[q..f])
  {
    var r := s[q..f];
    DigitRunSlice(s, q, f);
    var d := DigitRun(r);
    if d < |r| {
      assert r[d] == s[q + d];
      if d + 1 < |r| {
        assert r[d + 1..] == s[q + d + 1..f];
        DigitRunSlice(s, q + d + 1, f);
      }
    }
  }

  /** Where `re.search(r"[+-]?([0-9]*\.?[0-9]+)\s*mm", s)` finds its leftmost match
      from position p on. */
  function MmPos(s: string, p: nat): (k: Option<nat>)
    requires p <= |s|
    ensures k.Some? ==> p <= k.value <= |s| && MmMatchAt(s, SignEnd(s, k.value))
    decreases |s| - p
  {
    if MmMatchAt(s, SignEnd(s, p)) then Some(p)
    else if p == |s| then None
    else MmPos(s, p + 1)
  }

  /** The number of the leftmost match from position p on. */
  function SearchMm(s: string, p: nat): (r: Option<real>)
    requires p <= |s|
    ensures r.Some? ==> r.value >= 0.0
    ensures r.Some? <==> MmPos(s, p).Some?
  {
    match MmPos(s, p)
    case Some(k) => MmAt(s, k)
    case None => None
  }

  /** `_num_to_meters`: numbers are taken as metres; text is normalised, a decimal
      comma becomes a point, and it is read as `dnNNN`, as a number with an
      optional unit m/cm/mm, or as any number followed by mm. */
  function NumToMeters(x: Scalar): (r: Option<real>)
    ensures x.Int? ==> r == Some(x.i as real)
    ensures x.Float? ==> r == Some(x.f)
    ensures x.Bool? ==> r == Some(if x.b then 1.0 else 0.0)
    ensures x.Str? && r.Some? ==> r.value >= 0.0
  {
    match x
    case Int(i) => Some(i as real)
    case Float(f) => Some(f)
    case Bool(b) => Some(if b then 1.0 else 0.0)
    case Str(t) => ReadLength(Strip(CommaToPoint(NormText(t))))
  }

  /** The three patterns `_num_to_meters` tries, in order, on prepared text. */
  function ReadLength(s: string): (r: Option<real>)
    ensures r.Some? ==> r.value >= 0.0
  {
    match MatchDn(s)
    case Some(n) => Some(n as real / 1000.0)
    case None => ReadPlainOrMm(s)
  }

  /** The plain number pattern, else the mm search. */
  function ReadPlainOrMm(s: string): (r: Option<real>)
    ensures r.Some? ==> r.value >= 0.0
  {
    match MatchPlain(s)
    case Some(v) => Some(v)
    case None => ReadMm(s)
  }

  /** The first number followed by mm, in metres. */
  function ReadMm(s: string): (r: Option<real>)
    ensures r.Some? ==> r.value >= 0.0
  {
    match SearchMm(s, 0)
    case Some(v) => Some(v / 1000.0)
    case None => None
  }

  function CommaToPoint(s: string): (r: string)
    ensures |r| == |s|
    ensures forall i :: 0 <= i < |s| ==> r[i] == (if s[i] == ',' then '.' else s[i])
  {
    if s == [] then [] else [if s[0] == ',' then '.' else s[0]] + CommaToPoint(s[1..])
  }

  /** Text never yields a negative length: a leading minus sign is matched and
      dropped, so "-12" reads as 12 metres. */
  lemma NumToMetersDropsSign(ds: string)
    requires ds != [] && forall i :: 0 <= i < |ds| ==> IsDigit(ds[i])
    ensures NumToMeters(Str("-" + ds)) == Some(DigitsValue(ds) as real)
  {
    var t := "-" + ds;
    SignedDigitsNormal(t);
    NoDn(t);
    PlainSigned(ds);
  }

  lemma SignedDigitsNormal(t: string)
    requires SignedDigits(t)
    ensures Strip(CommaToPoint(NormText(t))) == t
  {
    StripDigits(t);
    LowerDigits(t);
    ExpandDigits(LowerStr(t));
    CommaDigits(t);
  }

  lemma NoDn(t: string)
    requires SignedDigits(t)
    ensures MatchDn(t).None?
  {
    if |t| >= 2 {
      assert t[..2] != "dn" by { assert t[0] != 'd'; }
    }
  }

  lemma PlainSigned(ds: string)
    requires ds != [] && forall i :: 0 <= i < |ds| ==> IsDigit(ds[i])
    ensures MatchPlain("-" + ds) == Some(DigitsValue(ds) as real)
  {
    var s := "-" + ds;
    assert s[1..] == ds;
    NumRunDigits(ds);
    MatchPlainSigned(s, DigitsValue(ds) as real);
  }

  /** A sign followed by a number and nothing else matches with the
      number's value. */
  lemma MatchPlainSigned(s: string, v: real)
    requires |s| >= 1 && s[0] == '-'
    requires 1 + NumRun(s[1..]) == |s| && ParseNum(s[1..]) == Some(v)
    ensures MatchPlain(s) == Some(v)
  {
    var t := s[1..];
    assert t[..|t|] == t;
    assert UnitOf(t[|t|..]) == Some(Metre) by {
      assert t[|t|..] == [];
      NoUnitIsMetres();
    }
  }

  /** No unit means metres. */
  lemma NoUnitIsMetres()
    ensures UnitOf([]) == Some(Metre)
  {
    assert SpaceRun([]) == 0;
  }

  predicate SignedDigits(t: string) {
    t != [] && (forall i :: 1 <= i < |t| ==> IsDigit(t[i])) && (t[0] == '-' || IsDigit(t[0]))
  }

  lemma StripDigits(t: string)
    requires SignedDigits(t)
    ensures Strip(t) == t
  {
    assert !IsSpace(t[0]) && !IsSpace(t[|t| - 1]);
  }

  lemma LowerDigits(t: string)
    requires SignedDigits(t)
    ensures LowerStr(t) == t
  {
  }

  lemma ExpandDigits(t: string)
    requires SignedDigits(t)
    ensures ExpandUmlauts(t) == t
  {
    ExpandPlain(t);
  }

  lemma CommaDigits(t: string)
    requires SignedDigits(t)
    ensures CommaToPoint(t) == t
  {
  }

  lemma {:induction false} NumRunDigits(ds: string)
    requires forall i :: 0 <= i < |ds| ==> IsDigit(ds[i])
    ensures NumRun(ds) == |ds|
  {
    if ds != [] { NumRunDigits(ds[1..]); }
  }

  /** Characters that `_norm_text`, the comma replacement and `strip` leave
      alone, apart from the comma itself. */
  predicate IsPlainChar(c: char) {
    IsDigit(c) || ('a' <= c <= 'z') || c == '.' || c == ','
  }

  predicate PlainText(t: string) {
    t != [] && forall i :: 0 <= i < |t| ==> IsPlainChar(t[i])
  }

  /** Plain text reaches the matchers with only its commas turned into points. */
  lemma PreparedPlain(t: string)
    requires PlainText(t)
    ensures Strip(CommaToPoint(NormText(t))) == CommaToPoint(t)
  {
    StripPlain(t);
    LowerPlain(t);
    ExpandPlain(t);
    assert NormText(t) == t;
    CommaPlain(t);
    StripPlain(CommaToPoint(t));
  }

  lemma StripPlain(t: string)
    requires PlainText(t)
    ensures Strip(t) == t
  {
    assert !IsSpace(t[0]) && !IsSpace(t[|t| - 1]);
  }

  lemma LowerPlain(t: string)
    requires PlainText(t)
    ensures LowerStr(t) == t
  {
    var l := LowerStr(t);
    forall i | 0 <= i < |t| ensures l[i] == t[i] {
      assert !('A' <= t[i] <= 'Z') && t[i] < '\U{c0}' && t[i] != '\U{1e9e}';
    }
  }

  lemma CommaPlain(t: string)
    requires PlainText(t)
    ensures PlainText(CommaToPoint(t))
  {
  }

  /** Digits followed by a non-number character: the number run ends there. */
  lemma {:induction false} NumRunStops(ds: string, u: string)
    requires forall i :: 0 <= i < |ds| ==> IsDigit(ds[i])
    requires u == [] || !IsNumChar(u[0])
    ensures NumRun(ds + u) == |ds|
  {
    if ds != [] {
      assert (ds + u)[1..] == ds[1..] + u;
      NumRunStops(ds[1..], u);
    } else {
      assert ds + u == u;
    }
  }

  /** A number with one of the units m, cm, mm or none, as `_num_to_meters`
      reads it once the text is prepared. */
  lemma NumberWithUnit(n: nat, u: string, unit: Unit)
    requires UnitSpelling(u, unit)
    ensures NumToMeters(Str(NatToString(n) + u)) == Some(InMetres(n as real, unit))
  {
    UnitSpellingFacts(u, unit);
    var ds := NatToString(n);
    var s := ds + u;
    UnitTextPlain(ds, u);
    DigitStartNoDn(s);
    NatToStringValue(n);
    MatchPlainUnit(ds, u, n, unit);
    ViaPlain(s, s, InMetres(n as real, unit));
  }

  /** Digits and a lower-case unit pass the preparation unchanged. */
  lemma UnitTextPlain(ds: string, u: string)
    requires ds != [] && forall i :: 0 <= i < |ds| ==> IsDigit(ds[i])
    requires forall i :: 0 <= i < |u| ==> 'a' <= u[i] <= 'z'
    ensures Strip(CommaToPoint(NormText(ds + u))) == ds + u
  {
    var s := ds + u;
    forall i | 0 <= i < |s| ensures IsPlainChar(s[i]) && s[i] != ',' {
      if i < |ds| { assert s[i] == ds[i]; } else { assert s[i] == u[i - |ds|]; }
    }
    PreparedPlain(s);
    CommaToPointFree(s);
  }

  /** Prepared text that is no `dnNNN` but a plain number reads as that number. */
  lemma ViaPlain(t: string, s: string, v: real)
    requires Strip(CommaToPoint(NormText(t))) == s
    requires MatchDn(s).None? && MatchPlain(s) == Some(v)
    ensures NumToMeters(Str(t)) == Some(v)
  {
    ReadPlain(s, v);
  }

  lemma ReadPlain(s: string, v: real)
    requires MatchDn(s).None? && MatchPlain(s) == Some(v)
    ensures ReadLength(s) == Some(v)
  {
  }

  lemma DigitStartNoDn(s: string)
    requires s != [] && IsDigit(s[0])
    ensures MatchDn(s).None?
  {
    if |s| >= 2 { assert s[..2][0] == s[0]; }
  }

  lemma MatchPlainUnit(ds: string, u: string, n: nat, unit: Unit)
    requires ds != [] && forall i :: 0 <= i < |ds| ==> IsDigit(ds[i])
    requires n == DigitsValue(ds)
    requires u == [] || u[0] == 'm' || u[0] == 'c'
    requires UnitOf(u) == Some(unit)
    ensures MatchPlain(ds + u) == Some(InMetres(n as real, unit))
  {
    var s := ds + u;
    NumRunStops(ds, u);
    assert s[..|ds|] == ds && s[|ds|..] == u;
    MatchPlainAt(s, |ds|, n as real, unit);
  }

  /** An unsigned number run followed by a unit matches the plain pattern. */
  lemma MatchPlainAt(s: string, f: nat, v: real, unit: Unit)
    requires s != [] && s[0] != '+' && s[0] != '-'
    requires NumRun(s) == f && ParseNum(s[..f]) == Some(v) && UnitOf(s[f..]) == Some(unit)
    ensures MatchPlain(s) == Some(InMetres(v, unit))
  {
    assert MatchPlain(s) == WithUnit(Some(v), s[f..]);
  }

  lemma CommaToPointFree(s: string)
    requires forall i :: 0 <= i < |s| ==> s[i] != ','
    ensures CommaToPoint(s) == s
  {
  }

  /** A bare number is metres. */
  lemma NumToMetersBare(n: nat)
    ensures NumToMeters(Str(NatToString(n))) == Some(n as real)
  {
    var e: string := [];
    assert NatToString(n) + e == NatToString(n);
    NumberWithUnit(n, e, Metre);
  }

  /** `n m` is n metres. */
  lemma NumToMetersMetres(n: nat)
    ensures NumToMeters(Str(NatToString(n) + "m")) == Some(n as real)
  {
    NumberWithUnit(n, "m", Metre);
  }

  /** `n cm` is n/100 metres. */
  lemma NumToMetersCentimetres(n: nat)
    ensures NumToMeters(Str(NatToString(n) + "cm")) == Some(n as real / 100.0)
  {
    NumberWithUnit(n, "cm", Centimetre);
    UnitFactors(n as real);
  }

  /** `n mm` is n/1000 metres. */
  lemma NumToMetersMillimetres(n: nat)
    ensures NumToMeters(Str(NatToString(n) + "mm")) == Some(n as real / 1000.0)
  {
    NumberWithUnit(n, "mm", Millimetre);
    UnitFactors(n as real);
  }

  lemma UnitFactors(x: real)
    ensures InMetres(x, Centimetre) == x / 100.0 && InMetres(x, Millimetre) == x / 1000.0
  {
  }

  /** The spellings of the units directly after a number: none, m, cm or mm. */
  predicate UnitSpelling(u: string, unit: Unit) {
    ((u == "" || u == "m") && unit == Metre)
    || (u == "cm" && unit == Centimetre)
    || (u == "mm" && unit == Millimetre)
  }

  lemma UnitSpellingFacts(u: string, unit: Unit)
    requires UnitSpelling(u, unit)
    ensures u == [] || u[0] == 'm' || u[0] == 'c'
    ensures UnitOf(u) == Some(unit)
    ensures forall i :: 0 <= i < |u| ==> 'a' <= u[i] <= 'z'
  {
    NoUnitIsMetres();
    assert SpaceRun("m") == 0 && SpaceRun("cm") == 0 && SpaceRun("mm") == 0;
    assert "m"[0..] == "m" && "cm"[0..] == "cm" && "mm"[0..] == "mm";
  }

  /** `dnNNN` is a nominal diameter in millimetres. */
  lemma NumToMetersDn(n: nat)
    ensures NumToMeters(Str("dn" + NatToString(n))) == Some(n as real / 1000.0)
  {
    var ds := NatToString(n);
    var s := "dn" + ds;
    var e: string := [];
    assert s + e == s;
    WordsDigitsPlain("dn", ds, e);
    MatchDnDigits(ds);
    NatToStringValue(n);
    ViaDn(s, s, n);
  }

  /** Prepared text that starts as `dnNNN` reads as NNN millimetres. */
  lemma ViaDn(t: string, s: string, n: nat)
    requires Strip(CommaToPoint(NormText(t))) == s
    requires MatchDn(s) == Some(n)
    ensures NumToMeters(Str(t)) == Some(n as real / 1000.0)
  {
    ReadDn(s, n);
  }

  lemma ReadDn(s: string, n: nat)
    requires MatchDn(s) == Some(n)
    ensures ReadLength(s) == Some(n as real / 1000.0)
  {
  }

  lemma MatchDnDigits(ds: string)
    requires ds != [] && forall i :: 0 <= i < |ds| ==> IsDigit(ds[i])
    ensures MatchDn("dn" + ds) == Some(DigitsValue(ds))
  {
    var s := "dn" + ds;
    assert s[..2] == "dn" && s[2..] == ds;
    assert SpaceRun(ds) == 0;
    assert ds[0..] == ds && ds[..|ds|] == ds;
    DigitRunAll(ds);
  }

  /** Lower-case letters and digits pass the preparation unchanged. */
  lemma WordsDigitsPlain(w: string, ds: string, u: string)
    requires w + ds + u != []
    requires forall i :: 0 <= i < |w| ==> 'a' <= w[i] <= 'z'
    requires forall i :: 0 <= i < |ds| ==> IsDigit(ds[i])
    requires forall i :: 0 <= i < |u| ==> 'a' <= u[i] <= 'z'
    ensures Strip(CommaToPoint(NormText(w + ds + u))) == w + ds + u
  {
    var s := w + ds + u;
    forall i | 0 <= i < |s| ensures IsPlainChar(s[i]) && s[i] != ',' {
      if i < |w| { assert s[i] == w[i]; }
      else if i < |w| + |ds| { assert s[i] == ds[i - |w|]; }
      else { assert s[i] == u[i - |w| - |ds|]; }
    }
    PreparedPlain(s);
    CommaToPointFree(s);
  }

  /** A decimal comma reads as a decimal point. */
  lemma NumToMetersComma(ds: string, es: string)
    requires ds != [] && forall i :: 0 <= i < |ds| ==> IsDigit(ds[i])
    requires forall i :: 0 <= i < |es| ==> IsDigit(es[i])
    ensures NumToMeters(Str(ds + "," + es)) == NumToMeters(Str(ds + "." + es))
  {
    DecimalPrepared(ds, es, ",");
    DecimalPrepared(ds, es, ".");
  }

  /** Digits, a decimal mark and digits are prepared to the point form. */
  lemma DecimalPrepared(ds: string, es: string, mark: string)
    requires ds != [] && forall i :: 0 <= i < |ds| ==> IsDigit(ds[i])
    requires forall i :: 0 <= i < |es| ==> IsDigit(es[i])
    requires mark == "," || mark == "."
    ensures Strip(CommaToPoint(NormText(ds + mark + es))) == ds + "." + es
  {
    var c, p := ds + mark + es, ds + "." + es;
    forall i | 0 <= i < |c| ensures IsPlainChar(c[i]) && CommaToPoint(c)[i] == p[i] {
      if i < |ds| { assert c[i] == ds[i] == p[i]; }
      else if i == |ds| { assert c[i] == mark[0] && p[i] == '.'; }
      else { assert c[i] == es[i - |ds| - 1] == p[i]; }
    }
    assert CommaToPoint(c) == p;
    PreparedPlain(c);
  }

  /** Text that is neither `dnNNN` nor a plain number is searched for a number
      followed by mm: "ca" followed by "90mm" reads as 0.09 m. */
  lemma NumToMetersMmFallback(w: string, n: nat)
    requires w != [] && forall i :: 0 <= i < |w| ==> 'a' <= w[i] <= 'z'
    ensures NumToMeters(Str(w + NatToString(n) + "mm")) == Some(n as real / 1000.0)
  {
    var s := w + NatToString(n) + "mm";
    FallbackMatches(w, n);
    ViaSearch(s, n);
  }

  /** Letters, a number and mm: only the mm search matches. */
  lemma FallbackMatches(w: string, n: nat)
    requires w != [] && forall i :: 0 <= i < |w| ==> 'a' <= w[i] <= 'z'
    ensures OnlyMmMatches(w + NatToString(n) + "mm", n as real)
  {
    var ds := NatToString(n);
    var s := w + ds + "mm";
    WordsDigitsPlain(w, ds, "mm");
    LetterPrefixNoDn(w, ds);
    LetterPrefixNotPlain(s);
    FallbackSearch(w, n);
  }

  lemma FallbackSearch(w: string, n: nat)
    requires w != [] && forall i :: 0 <= i < |w| ==> 'a' <= w[i] <= 'z'
    ensures SearchMm(w + NatToString(n) + "mm", 0) == Some(n as real)
  {
    var ds := NatToString(n);
    var s := w + ds + "mm";
    PrefixLetters(w, ds + "mm");
    assert w + (ds + "mm") == s;
    LettersNoMm(s, 0, |w|);
    SearchMmSkips(s, |w|, 0);
    NatToStringValue(n);
    MmAfterLetters(w, ds, n);
    assert MmPos(s, 0) == Some(|w|);
  }

  /** Text that `_num_to_meters` leaves as it is and in which only the mm
      search finds the number v. */
  predicate OnlyMmMatches(s: string, v: real) {
    Strip(CommaToPoint(NormText(s))) == s
    && MatchDn(s).None? && MatchPlain(s).None? && SearchMm(s, 0) == Some(v)
  }

  /** Such text reads as n millimetres. */
  lemma ViaSearch(s: string, n: nat)
    requires OnlyMmMatches(s, n as real)
    ensures NumToMeters(Str(s)) == Some(n as real / 1000.0)
  {
    ReadSearch(s, n as real);
  }

  lemma ReadSearch(s: string, v: real)
    requires MatchDn(s).None? && MatchPlain(s).None? && SearchMm(s, 0) == Some(v)
    ensures ReadLength(s) == Some(v / 1000.0)
  {
    ReadMmOf(s, v);
    assert ReadPlainOrMm(s) == Some(v / 1000.0);
  }

  lemma ReadMmOf(s: string, v: real)
    requires SearchMm(s, 0) == Some(v)
    ensures ReadMm(s) == Some(v / 1000.0)
  {
    var r := ReadMm(s);
    assert r.Some? && r.value == v / 1000.0;
    SomeOf(r, v / 1000.0);
  }

  lemma SomeOf(r: Option<real>, x: real)
    requires r.Some? && r.value == x
    ensures r == Some(x)
  {
  }

  lemma LetterPrefixNotPlain(s: string)
    requires s != [] && 'a' <= s[0] <= 'z'
    ensures MatchPlain(s).None?
  {
    assert NumRun(s) == 0;
    assert s[..0] == [];
  }

  lemma LetterPrefixNoDn(w: string, ds: string)
    requires w != [] && forall i :: 0 <= i < |w| ==> 'a' <= w[i] <= 'z'
    requires ds != [] && forall i :: 0 <= i < |ds| ==> IsDigit(ds[i])
    ensures MatchDn(w + ds + "mm").None?
  {
    var s := w + ds + "mm";
    if StartsWith(s, "dn") {
      var rest := s[2..];
      assert SpaceRun(rest) == 0 by { assert !IsSpace(rest[0]); }
      assert rest[0..] == rest;
      if |w| > 2 {
        assert DigitRun(rest) == 0 by { assert rest[0] == w[2]; }
      } else {
        assert |w| == 2 by { assert s[1] == 'n'; }
        assert rest == ds + "mm";
        DigitRunStops(ds, "mm");
        assert rest[|ds|] == 'm';
      }
    }
  }

  /** No match of the mm pattern starts at a position from p up to k. */
  predicate NoMmIn(s: string, p: nat, k: nat)
    requires p <= k <= |s|
    decreases k - p
  {
    p == k || (!MmMatchAt(s, SignEnd(s, p)) && NoMmIn(s, p + 1, k))
  }

  /** The search passes over positions where no match starts. */
  lemma {:induction false} SearchMmSkips(s: string, k: nat, p: nat)
    requires p <= k < |s| && NoMmIn(s, p, k)
    ensures MmPos(s, p) == MmPos(s, k)
    decreases k - p
  {
    if p < k {
      SearchMmStep(s, p);
      SearchMmSkips(s, k, p + 1);
    }
  }

  /** No match of the mm pattern starts at a letter. */
  lemma {:induction false} LettersNoMm(s: string, p: nat, k: nat)
    requires p <= k <= |s| && forall i :: p <= i < k ==> 'a' <= s[i] <= 'z'
    ensures NoMmIn(s, p, k)
    decreases k - p
  {
    if p < k {
      LetterNoMm(s, p);
      LettersNoMm(s, p + 1, k);
      NoMmInStep(s, p, k);
    }
  }

  lemma PrefixLetters(w: string, rest: string)
    requires forall i :: 0 <= i < |w| ==> 'a' <= w[i] <= 'z'
    ensures forall i :: 0 <= i < |w| ==> 'a' <= (w + rest)[i] <= 'z'
  {
  }

  lemma NoMmInStep(s: string, p: nat, k: nat)
    requires p < k <= |s| && !MmMatchAt(s, SignEnd(s, p)) && NoMmIn(s, p + 1, k)
    ensures NoMmIn(s, p, k)
  {
  }

  /** No number, so no match of the mm pattern, starts at a letter. */
  lemma LetterNoMm(s: string, p: nat)
    requires p < |s| && 'a' <= s[p] <= 'z'
    ensures !MmMatchAt(s, SignEnd(s, p))
  {
    assert SignEnd(s, p) == p;
    assert NumRunAt(s, p) == 0;
    assert DigitRunAt(s, p, p) == 0;
  }

  /** Without a match at p the search goes on at p + 1. */
  lemma SearchMmStep(s: string, p: nat)
    requires p < |s| && !MmMatchAt(s, SignEnd(s, p))
    ensures MmPos(s, p) == MmPos(s, p + 1)
  {
  }

  /** The digits after the letters, followed by mm, are the leftmost match from there. */
  lemma MmAfterLetters(w: string, ds: string, n: nat)
    requires ds != [] && forall i :: 0 <= i < |ds| ==> IsDigit(ds[i])
    requires n == DigitsValue(ds)
    ensures MmPos(w + ds + "mm", |w|) == Some(|w|)
    ensures MmAt(w + ds + "mm", |w|) == Some(n as real)
  {
    var s := w + ds + "mm";
    DigitsThenMm(w, ds);
    MmNumberHere(s, |w|, |w| + |ds|);
    DigitsSlice(w, ds, n);
    MmFoundAt(s, |w|, n as real);
  }

  /** The layout of letters, digits and "mm", by index. */
  lemma DigitsThenMm(w: string, ds: string)
    requires ds != [] && forall i :: 0 <= i < |ds| ==> IsDigit(ds[i])
    ensures var s := w + ds + "mm"; var f := |w| + |ds|;
      f + 2 == |s| && s[f] == 'm' && s[f + 1] == 'm'
      && forall j :: |w| <= j < f ==> IsDigit(s[j])
  {
    var s := w + ds + "mm";
    forall j | |w| <= j < |w| + |ds| ensures IsDigit(s[j]) {
      assert s[j] == ds[j - |w|];
    }
  }

  /** The digits, cut back out of the text, read as their value. */
  lemma DigitsSlice(w: string, ds: string, n: nat)
    requires ds != [] && forall i :: 0 <= i < |ds| ==> IsDigit(ds[i])
    requires n == DigitsValue(ds)
    ensures ParseNum((w + ds + "mm")[|w|..|w| + |ds|]) == Some(n as real)
  {
    assert (w + ds + "mm")[|w|..|w| + |ds|] == ds;
  }

  /** A match at k with no sign before it is found first from k. */
  lemma MmFoundAt(s: string, k: nat, v: real)
    requires k < |s| && IsDigit(s[k])
    requires MmNumberAt(s, k) == Some(v)
    ensures MmPos(s, k) == Some(k) && MmAt(s, k) == Some(v)
  {
    assert SignEnd(s, k) == k;
  }

  /** Digits from k to f, then "mm" at the end: the mm pattern matches at k. */
  lemma MmNumberHere(s: string, k: nat, f: nat)
    requires k < f && f + 2 == |s| && s[f] == 'm' && s[f + 1] == 'm'
    requires forall j :: k <= j < f ==> IsDigit(s[j])
    ensures MmMatchAt(s, k) && MmNumberAt(s, k) == ParseNum(s[k..f])
  {
    NumRunAtStops(s, k, f);
    assert SpaceRunAt(s, f) == 0;
    DigitRunAtAll(s, k, f);
  }

  lemma {:induction false} NumRunAtStops(s: string, i: nat, f: nat)
    requires i <= f < |s| && !IsNumChar(s[f])
    requires forall j :: i <= j < f ==> IsDigit(s[j])
    ensures NumRunAt(s, i) == f - i
    decreases f - i
  {
    if i < f {
      NumRunAtStops(s, i + 1, f);
    }
  }

  lemma {:induction false} DigitRunAtAll(s: string, i: nat, f: nat)
    requires i <= f <= |s|
    requires forall j :: i <= j < f ==> IsDigit(s[j])
    ensures DigitRunAt(s, i, f) == f - i
    decreases f - i
  {
    if i < f {
      DigitRunAtAll(s, i + 1, f);
    }
  }

  // ---------------------------------------------------------------------------
  // _coerce_updates (main.py:581) and _apply_update

  /** The element fields an edit can set (`_ALLOWED_EDIT_FIELDS`, main.py:420). */
  datatype Field = Length | Width | Depth | Diameter | Offset | DepthLeft | DepthRight | Gok
                 | Material | Pattern

  /** The numeric fields, which `_coerce_updates` parses with `_num_to_meters`. */
  predicate IsNumeric(f: Field) {
    !(f.Material? || f.Pattern?)
  }

  /** A coerced value: metres for the numeric fields, text for the others. */
  datatype FieldValue = Meters(m: real) | Words(w: string)

  /** FIELD_ALIASES after its update at main.py:422-427, keyed as `_norm_text`
      leaves a key. */
  const FieldAliases: map<string, Field> := map[
    "l" := Length, "länge" := Length, "laenge" := Length,
    "b" := Width, "breite" := Width,
    "t" := Depth, "tiefe" := Depth,
    "dn" := Diameter, "durchmesser" := Diameter, "ø" := Diameter, "diameter" := Diameter,
    "randzone" := Offset, "offset" := Offset,
    "material" := Material, "pattern" := Pattern,
    "gok" := Gok, "geländeoberkante" := Gok, "gelaendeoberkante" := Gok, "okg" := Gok,
    "ok gelände" := Gok, "ok gelaende" := Gok,
    "tl" := DepthLeft, "t_l" := DepthLeft, "tiefe_links" := DepthLeft, "tlinks" := DepthLeft,
    "tr" := DepthRight, "t_r" := DepthRight, "tiefe_rechts" := DepthRight, "trechts" := DepthRight]

  /** `_ALLOWED_EDIT_FIELDS` (main.py:420): the field names a key may spell. */
  const FieldNames: map<string, Field> := map[
    "length" := Length, "width" := Width, "depth" := Depth, "diameter" := Diameter,
    "material" := Material, "offset" := Offset, "pattern" := Pattern,
    "depth_left" := DepthLeft, "depth_right" := DepthRight, "gok" := Gok]

  /** `FIELD_ALIASES.get(_norm_text(k), k)` followed by the membership tests of
      `_coerce_updates`: an alias names its field, and a key that is no alias
      counts only when it is spelled exactly as a field name. */
  function CanonicalKey(k: string): (r: Option<Field>)
  {
    var nk := NormText(k);
    if nk in FieldAliases then Some(FieldAliases[nk])
    else if k in FieldNames then Some(FieldNames[k])
    else None
  }

  /** A value of the request: None is a JSON `null`. */
  type UpdateValue = Option<Scalar>

  /** `str(v)`: a `null` is written "None". */
  function UpdateText(v: UpdateValue, fmt: real -> string): string
  {
    match v
    case None => "None"
    case Some(x) => ScalarText(x, fmt)
  }

  /** `_num_to_meters(v)`: a `null` is not an int or a float, so it goes the
      way of text, as `str(None)`. */
  function UpdateMeters(v: UpdateValue): Option<real>
  {
    match v
    case None => NumToMeters(Str("None"))
    case Some(x) => NumToMeters(x)
  }

  /** The field and value one input entry contributes, if any. */
  function CoercedEntry(k: string, v: UpdateValue, fmt: real -> string): (r: Option<(Field, FieldValue)>)
    ensures r.Some? ==> CanonicalKey(k) == Some(r.value.0) && (IsNumeric(r.value.0) <==> r.value.1.Meters?)
    ensures CanonicalKey(k).None? ==> r.None?
  {
    match CanonicalKey(k)
    case None => None
    case Some(f) =>
      if IsNumeric(f) then
        match UpdateMeters(v)
        case Some(m) => Some((f, Meters(m)))
        case None => None
      else Some((f, Words(UpdateText(v, fmt))))
  }

  /** A text field takes `str(v)`; a numeric field takes the parsed metres and an
      unparsable value is skipped. */
  lemma CoercedEntryValue(k: string, v: Scalar, fmt: real -> string)
    requires CanonicalKey(k).Some?
    ensures var f := CanonicalKey(k).value;
            CoercedEntry(k, Some(v), fmt)
            == if !IsNumeric(f) then Some((f, Words(ScalarText(v, fmt))))
               else if NumToMeters(v).Some? then Some((f, Meters(NumToMeters(v).value)))
               else None
  {
  }

  /** A `null` for a numeric field is skipped, because "none" holds no
      length; a `null` for a text field is stored as the text "None". */
  lemma CoercedNull(k: string, fmt: real -> string)
    requires CanonicalKey(k).Some?
    ensures var f := CanonicalKey(k).value;
            CoercedEntry(k, None, fmt) == if IsNumeric(f) then None else Some((f, Words("None")))
  {
    NullNoLength();
  }

  /** `_num_to_meters(None)` is None: "None" is normalised to "none", which
      is not `dnNNN`, not a plain number and holds no number before mm. */
  lemma NullNoLength()
    ensures NumToMeters(Str("None")) == None
  {
    NonePrepared();
    NoneReadsNothing("none");
  }

  /** "None" normalised, with commas turned into points and stripped. */
  lemma NonePrepared()
    ensures Strip(CommaToPoint(NormText("None"))) == "none"
  {
    NoneNorm("None", "none");
    NoneFixed("none");
  }

  lemma NoneNorm(t: string, s: string)
    requires t == "None" && s == "none"
    ensures NormText(t) == s
  {
    assert forall i :: 0 <= i < |t| ==> IsAsciiLetter(t[i]);
    PlainNormText(t);
    assert LowerStr(t) == s by {
      forall i | 0 <= i < 4 ensures LowerStr(t)[i] == s[i] {
        assert Lower(t[i]) == s[i];
      }
    }
  }

  lemma NoneFixed(s: string)
    requires s == "none"
    ensures Strip(CommaToPoint(s)) == s
  {
    CommaToPointFree(s);
    assert forall i :: 0 <= i < |s| ==> IsAsciiLetter(s[i]);
    PlainStrip(s);
  }

  /** None of the three patterns matches "none". */
  lemma NoneReadsNothing(s: string)
    requires s == "none"
    ensures ReadLength(s).None?
  {
    assert MatchDn(s).None? by { assert s[0] != 'd'; }
    LetterPrefixNotPlain(s);
    NoneHoldsNoMm(s);
  }

  /** The mm search finds nothing in "none". */
  lemma NoneHoldsNoMm(s: string)
    requires s == "none"
    ensures SearchMm(s, 0).None?
  {
    LettersNoMm(s, 0, 3);
    SearchMmSkips(s, 3, 0);
    LetterNoMm(s, 3);
    assert MmPos(s, 3) == MmPos(s, 4);
    assert !MmMatchAt(s, SignEnd(s, 4));
  }

  /** The entries of the request, coerced one by one. */
  function CoercedEntries(upd: seq<(string, UpdateValue)>, fmt: real -> string): (es: seq<Option<(Field, FieldValue)>>)
    ensures |es| == |upd|
    ensures forall i :: 0 <= i < |upd| ==> es[i] == CoercedEntry(upd[i].0, upd[i].1, fmt)
  {
    seq(|upd|, i requires 0 <= i < |upd| => CoercedEntry(upd[i].0, upd[i].1, fmt))
  }

  /** Entries folded into a dictionary in order: a later entry for the same key
      overwrites an earlier one, and an empty entry changes nothing. */
  function LastWins<K, V>(es: seq<Option<(K, V)>>): (m: map<K, V>)
    decreases |es|
  {
    if es == [] then map[]
    else
      var n := |es| - 1;
      match es[n]
      case Some(kv) => LastWins(es[..n])[kv.0 := kv.1]
      case None => LastWins(es[..n])
  }

  /** Every key of a non-empty entry is in the fold. */
  lemma {:induction false} LastWinsCovers<K, V>(es: seq<Option<(K, V)>>, i: nat)
    requires i < |es| && es[i].Some?
    ensures es[i].value.0 in LastWins(es)
    decreases |es|
  {
    var n := |es| - 1;
    if i < n {
      assert es[..n][i] == es[i];
      LastWinsCovers(es[..n], i);
    }
  }

  /** Every pair in the fold comes from some entry. */
  lemma {:induction false} LastWinsOnlyFrom<K, V>(es: seq<Option<(K, V)>>, k: K)
    requires k in LastWins(es)
    ensures exists i :: 0 <= i < |es| && es[i] == Some((k, LastWins(es)[k]))
    decreases |es|
  {
    var n := |es| - 1;
    if es[n].Some? && es[n].value.0 == k {
      assert es[n] == Some((k, LastWins(es)[k]));
    } else {
      LastWinsOnlyFrom(es[..n], k);
      var i :| 0 <= i < n && es[..n][i] == Some((k, LastWins(es[..n])[k]));
      assert es[i] == es[..n][i];
    }
  }

  /** The last entry for a key decides its value. */
  lemma {:induction false} LastWinsLast<K, V>(es: seq<Option<(K, V)>>, i: nat)
    requires i < |es| && es[i].Some?
    requires forall j :: i < j < |es| && es[j].Some? ==> es[j].value.0 != es[i].value.0
    ensures es[i].value.0 in LastWins(es) && LastWins(es)[es[i].value.0] == es[i].value.1
    decreases |es|
  {
    var n := |es| - 1;
    LastWinsCovers(es, i);
    if i < n {
      assert es[..n][i] == es[i];
      forall j | i < j < n && es[..n][j].Some? ensures es[..n][j].value.0 != es[..n][i].value.0 {
        assert es[..n][j] == es[j];
      }
      LastWinsLast(es[..n], i);
    }
  }

  /** `_coerce_updates` (main.py:581): the request's entries in order; a later entry
      for the same field overwrites an earlier one. */
  function CoerceUpdates(upd: seq<(string, UpdateValue)>, fmt: real -> string): (out: map<Field, FieldValue>)
  {
    LastWins(CoercedEntries(upd, fmt))
  }

  /** Numeric fields hold metres and text fields hold text. */
  lemma CoerceKinds(upd: seq<(string, UpdateValue)>, fmt: real -> string, f: Field)
    requires f in CoerceUpdates(upd, fmt)
    ensures IsNumeric(f) <==> CoerceUpdates(upd, fmt)[f].Meters?
  {
    var es := CoercedEntries(upd, fmt);
    LastWinsOnlyFrom(es, f);
  }

  /** Every entry that yields a value puts its field into the result. */
  lemma CoerceCovers(upd: seq<(string, UpdateValue)>, fmt: real -> string, i: nat)
    requires i < |upd| && CoercedEntry(upd[i].0, upd[i].1, fmt).Some?
    ensures CanonicalKey(upd[i].0).value in CoerceUpdates(upd, fmt)
  {
    LastWinsCovers(CoercedEntries(upd, fmt), i);
  }

  /** A field is present only when some entry names it and yields a value. */
  lemma CoerceOnlyFrom(upd: seq<(string, UpdateValue)>, fmt: real -> string, f: Field)
    requires f in CoerceUpdates(upd, fmt)
    ensures exists i :: 0 <= i < |upd| && CanonicalKey(upd[i].0) == Some(f)
                        && CoercedEntry(upd[i].0, upd[i].1, fmt) == Some((f, CoerceUpdates(upd, fmt)[f]))
  {
    var es := CoercedEntries(upd, fmt);
    LastWinsOnlyFrom(es, f);
    var i :| 0 <= i < |es| && es[i] == Some((f, LastWins(es)[f]));
    var e := CoercedEntry(upd[i].0, upd[i].1, fmt);
    assert e == es[i];
    assert e.Some? && e.value.0 == f;
  }

  /** The last entry that yields a value for a field decides it. */
  lemma CoerceLastWins(upd: seq<(string, UpdateValue)>, fmt: real -> string, i: nat)
    requires i < |upd| && CoercedEntry(upd[i].0, upd[i].1, fmt).Some?
    requires forall j :: i < j < |upd| && CoercedEntry(upd[j].0, upd[j].1, fmt).Some?
                         ==> CoercedEntry(upd[j].0, upd[j].1, fmt).value.0 != CoercedEntry(upd[i].0, upd[i].1, fmt).value.0
    ensures var (f, v) := CoercedEntry(upd[i].0, upd[i].1, fmt).value;
            f in CoerceUpdates(upd, fmt) && CoerceUpdates(upd, fmt)[f] == v
  {
    LastWinsLast(CoercedEntries(upd, fmt), i);
  }

  /** The alias keys spelled with umlauts ("länge", "ok gelände", ...) are never
      reached, because `_norm_text` has already spelled the umlauts out. */
  lemma UmlautAliasesUnreachable(k: string)
    ensures NormText(k) != "länge" && NormText(k) != "geländeoberkante" && NormText(k) != "ok gelände"
  {
    assert IsUmlaut("länge"[1]) && IsUmlaut("geländeoberkante"[3]) && IsUmlaut("ok gelände"[6]);
  }

  /** `_apply_update`: every field in `updates` is overwritten, nothing else changes. */
  function ApplyUpdate(e: Element, updates: map<Field, FieldValue>): (r: Element)
    ensures r.kind == e.kind && r.forTrench == e.forTrench && r.between == e.between
            && r.trenchIndex == e.trenchIndex && r.seqNo == e.seqNo && r.group == e.group
            && r.fullSpan == e.fullSpan && r.lines == e.lines
    ensures Length !in updates ==> r.length == e.length
    ensures Width !in updates ==> r.width == e.width
    ensures Depth !in updates ==> r.depth == e.depth
    ensures DepthLeft !in updates ==> r.depthLeft == e.depthLeft
    ensures DepthRight !in updates ==> r.depthRight == e.depthRight
    ensures Diameter !in updates ==> r.diameter == e.diameter
    ensures Offset !in updates ==> r.offset == e.offset
    ensures Gok !in updates ==> r.gok == e.gok
    ensures Material !in updates ==> r.material == e.material
    ensures Pattern !in updates ==> r.pattern == e.pattern
    ensures Length in updates && updates[Length].Meters? ==> r.length == Some(updates[Length].m)
    ensures Width in updates && updates[Width].Meters? ==> r.width == Some(updates[Width].m)
    ensures Depth in updates && updates[Depth].Meters? ==> r.depth == Some(updates[Depth].m)
    ensures DepthLeft in updates && updates[DepthLeft].Meters? ==> r.depthLeft == Some(updates[DepthLeft].m)
    ensures DepthRight in updates && updates[DepthRight].Meters? ==> r.depthRight == Some(updates[DepthRight].m)
    ensures Diameter in updates && updates[Diameter].Meters? ==> r.diameter == Some(updates[Diameter].m)
    ensures Offset in updates && updates[Offset].Meters? ==> r.offset == Some(updates[Offset].m)
    ensures Gok in updates && updates[Gok].Meters? ==> r.gok == Some(Float(updates[Gok].m))
    ensures Material in updates && updates[Material].Words? ==> r.material == Some(updates[Material].w)
    ensures Pattern in updates && updates[Pattern].Words? ==> r.pattern == Some(updates[Pattern].w)
  {
    e.(length := NumField(updates, Length, e.length),
       width := NumField(updates, Width, e.width),
       depth := NumField(updates, Depth, e.depth),
       depthLeft := NumField(updates, DepthLeft, e.depthLeft),
       depthRight := NumField(updates, DepthRight, e.depthRight),
       diameter := NumField(updates, Diameter, e.diameter),
       offset := NumField(updates, Offset, e.offset),
       gok := if Gok in updates && updates[Gok].Meters? then Some(Float(updates[Gok].m)) else e.gok,
       material := TextField(updates, Material, e.material),
       pattern := TextField(updates, Pattern, e.pattern))
  }

  function NumField(u: map<Field, FieldValue>, f: Field, previous: Option<real>): Option<real>
  {
    if f in u && u[f].Meters? then Some(u[f].m) else previous
  }

  function TextField(u: map<Field, FieldValue>, f: Field, previous: Option<string>): Option<string>
  {
    if f in u && u[f].Words? then Some(u[f].w) else previous
  }

  /** A coerced update lands in full: every value it carries has the kind of its
      field, so `_apply_update` writes every one of them. */
  lemma CoercedApplies(upd: seq<(string, UpdateValue)>, fmt: real -> string, e: Element)
    ensures var u := CoerceUpdates(upd, fmt);
            var r := ApplyUpdate(e, u);
            (Length in u ==> u[Length].Meters? && r.length == Some(u[Length].m))
            && (Width in u ==> u[Width].Meters? && r.width == Some(u[Width].m))
            && (Depth in u ==> u[Depth].Meters? && r.depth == Some(u[Depth].m))
            && (Diameter in u ==> u[Diameter].Meters? && r.diameter == Some(u[Diameter].m))
            && (Offset in u ==> u[Offset].Meters? && r.offset == Some(u[Offset].m))
            && (Gok in u ==> u[Gok].Meters? && r.gok == Some(Float(u[Gok].m)))
            && (Material in u ==> u[Material].Words? && r.material == Some(u[Material].w))
            && (Pattern in u ==> u[Pattern].Words? && r.pattern == Some(u[Pattern].w))
  {
    var u := CoerceUpdates(upd, fmt);
    forall f | f in u ensures IsNumeric(f) <==> u[f].Meters? {
      CoerceKinds(upd, fmt, f);
    }
    ApplyWellKinded(e, u);
  }

  /** An update whose numeric fields hold metres and whose text fields hold text
      is written in full. */
  lemma ApplyWellKinded(e: Element, u: map<Field, FieldValue>)
    requires forall f :: f in u ==> (IsNumeric(f) <==> u[f].Meters?)
    ensures var r := ApplyUpdate(e, u);
            (Length in u ==> u[Length].Meters? && r.length == Some(u[Length].m))
            && (Width in u ==> u[Width].Meters? && r.width == Some(u[Width].m))
            && (Depth in u ==> u[Depth].Meters? && r.depth == Some(u[Depth].m))
            && (Diameter in u ==> u[Diameter].Meters? && r.diameter == Some(u[Diameter].m))
            && (Offset in u ==> u[Offset].Meters? && r.offset == Some(u[Offset].m))
            && (Gok in u ==> u[Gok].Meters? && r.gok == Some(Float(u[Gok].m)))
            && (Material in u ==> u[Material].Words? && r.material == Some(u[Material].w))
            && (Pattern in u ==> u[Pattern].Words? && r.pattern == Some(u[Pattern].w))
  {
    assert IsNumeric(Length) && IsNumeric(Width) && IsNumeric(Depth) && IsNumeric(Diameter);
    assert IsNumeric(Offset) && IsNumeric(Gok) && !IsNumeric(Material) && !IsNumeric(Pattern);
  }

  // ---------------------------------------------------------------------------
  // _explicit_trench_from_instruction

  /** The trench number after keyword w at p, when `\b` w `\s*([1-9]\d*)\b` matches there. */
  function TrenchNumberAfter(s: string, p: nat, w: string): (r: Option<nat>)
    requires p <= |s|
    ensures r.Some? ==> r.value >= 1
  {
    if !MatchesIgnoreCase(s, p, w) then None
    else
      var a := p + |w| + SpaceRunAt(s, p + |w|);
      var d := DigitRunAt(s, a, |s|);
      if d > 0 && s[a] != '0' && WordEndsAt(s, a + d) then
        TrenchDigitsPositive(s, a, d, s[a..a + d]);
        Some(DigitsValue(s[a..a + d]))
      else None
  }

  /** The digit run from a, led by a non-zero digit, is digits and reads as a
      positive number. */
  lemma TrenchDigitsPositive(s: string, a: nat, d: nat, t: string)
    requires a < |s| && d > 0 && d == DigitRunAt(s, a, |s|) && s[a] != '0' && t == s[a..a + d]
    ensures forall i :: 0 <= i < |t| ==> IsDigit(t[i])
    ensures DigitsValue(t) >= 1
  {
    DigitRunAtDigits(s, a, |s|);
    LeadingDigitPositive(t);
  }

  /** The run DigitRunAt counts is made of digits. */
  lemma {:induction false} DigitRunAtDigits(s: string, i: nat, e: nat)
    requires i <= e <= |s|
    ensures forall j :: i <= j < i + DigitRunAt(s, i, e) ==> IsDigit(s[j])
    decreases e - i
  {
    if i < e && IsDigit(s[i]) {
      DigitRunAtDigits(s, i + 1, e);
    }
  }

  lemma {:induction false} LeadingDigitPositive(t: string)
    requires t != [] && t[0] != '0' && forall i :: 0 <= i < |t| ==> IsDigit(t[i])
    ensures DigitsValue(t) >= 1
    decreases |t|
  {
    if |t| > 1 {
      LeadingDigitPositive(t[..|t| - 1]);
      assert t[..|t| - 1][0] == t[0];
    } else {
      assert t[..0] == [];
    }
  }

  /** The match of `\b(?:bg|baugraben)\s*([1-9]\d*)\b` at position p (re.I). */
  function TrenchRefAt(s: string, p: nat): (r: Option<nat>)
    requires p <= |s|
    ensures r.Some? ==> r.value >= 1
  {
    if p > 0 && IsWordChar(s[p - 1]) then None
    else
      var bg := TrenchNumberAfter(s, p, "bg");
      if bg.Some? then bg else TrenchNumberAfter(s, p, "baugraben")
  }

  /** k is the leftmost position from p where the pattern matches, and r is what it reads there. */
  predicate FirstRefAt(s: string, p: nat, k: nat, r: Option<nat>)
  {
    p <= k <= |s| && TrenchRefAt(s, k) == r && forall j :: p <= j < k ==> TrenchRefAt(s, j).None?
  }

  /** `_explicit_trench_from_instruction`: the leftmost match from position p. */
  function ExplicitTrench(s: string, p: nat): (r: Option<nat>)
    requires p <= |s|
    ensures r.Some? ==> r.value >= 1
    ensures r.Some? ==> exists k: nat :: FirstRefAt(s, p, k, r)
    ensures r.None? ==> forall k :: p <= k <= |s| ==> TrenchRefAt(s, k).None?
    decreases |s| - p
  {
    var here := TrenchRefAt(s, p);
    if here.Some? then
      assert FirstRefAt(s, p, p, here);
      here
    else if p == |s| then None
    else
      var r := ExplicitTrench(s, p + 1);
      TrenchRefExtends(s, p, p + 1, r);
      r
  }

  /** No reference at p: the leftmost one from p + 1 is the leftmost one from p. */
  lemma TrenchRefExtends(s: string, p: nat, q: nat, r: Option<nat>)
    requires p < |s| && q == p + 1 && TrenchRefAt(s, p).None?
    requires r.Some? ==> exists k: nat :: FirstRefAt(s, q, k, r)
    requires r.None? ==> forall k :: q <= k <= |s| ==> TrenchRefAt(s, k).None?
    ensures r.Some? ==> exists k: nat :: FirstRefAt(s, p, k, r)
    ensures r.None? ==> forall k :: p <= k <= |s| ==> TrenchRefAt(s, k).None?
  {
    if r.Some? {
      var k: nat :| FirstRefAt(s, q, k, r);
      forall j | p <= j < k ensures TrenchRefAt(s, j).None? {
        if j > p {
          assert q <= j < k;
        }
      }
      assert FirstRefAt(s, p, k, r);
    }
  }

  /** "BG n" names trench n. */
  lemma ExplicitTrenchBg(n: nat)
    requires n >= 1
    ensures ExplicitTrench("BG " + NatToString(n), 0) == Some(n)
  {
    var s := "BG " + NatToString(n);
    BgNumber(s, NatToString(n), n, "bg");
    assert TrenchRefAt(s, 0) == Some(n);
  }

  /** The number after "BG " is read in full. */
  lemma BgNumber(s: string, t: string, n: nat, w: string)
    requires n >= 1 && t == NatToString(n) && s == "BG " + t && w == "bg"
    ensures TrenchNumberAfter(s, 0, w) == Some(n)
  {
    assert MatchesIgnoreCase(s, 0, w) by {
      assert s[0] == 'B' && s[1] == 'G' && w[0] == 'b' && w[1] == 'g';
    }
    assert SpaceRunAt(s, 2) == 1 by { assert IsSpace(s[2]) && !IsSpace(s[3]); }
    forall j | 3 <= j < |s| ensures IsDigit(s[j]) {
      assert s[j] == t[j - 3];
    }
    DigitRunAtAll(s, 3, |s|);
    NatToStringLead(n);
    assert s[3] == t[0];
    assert s[3..|s|] == t;
    NatToStringValue(n);
  }

  lemma {:induction false} DigitRunAll(t: string)
    requires forall i :: 0 <= i < |t| ==> IsDigit(t[i])
    ensures DigitRun(t) == |t|
  {
    if t != [] { DigitRunAll(t[1..]); }
  }

  lemma {:induction false} NatToStringLead(n: nat)
    requires n >= 1
    ensures NatToString(n)[0] != '0'
    decreases n
  {
    if n >= 10 {
      NatToStringLead(n / 10);
    }
  }
}
