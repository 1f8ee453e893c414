/** The element records of a session: trenches (Baugraben), pipes (Rohr),
    surfaces (Oberflächenbefestigung), passages (Durchstich), connections
    (Verbindung) and the manual Aufmaß override.  A record is a JSON object; each
    key the system reads is an optional field here (a missing key and a JSON
    null are both `None`). */
module Elements {
  import opened Wrappers
  import opened Text

  /** A JSON scalar as Python sees it after `json.loads`. */
  datatype Scalar = Int(i: int) | Float(f: real) | Str(s: string) | Bool(b: bool)

  datatype Element = Element(
    kind: string,                  // "type"; "" when absent
    trenchIndex: Option<int>,      // "trench_index"
    forTrench: Option<int>,        // "for_trench"
    between: Option<int>,          // "between": seam between trench k and k+1
    group: Option<seq<Option<Scalar>>>, // "group" when it is a list; None for a null member
    seqNo: Option<int>,            // "seq"
    length: Option<real>,
    width: Option<real>,
    depth: Option<real>,
    depthLeft: Option<real>,       // "depth_left"
    depthRight: Option<real>,      // "depth_right"
    diameter: Option<real>,
    offset: Option<real>,          // border zone (Randzone)
    gok: Option<Scalar>,           // ground level offset (Geländeoberkante)
    material: Option<string>,
    pattern: Option<string>,
    fullSpan: Option<Scalar>,      // "full_span"
    lines: Option<seq<string>>     // "lines" of an Aufmaß override, when a list
  )

  /** A record holding only a type. */
  function OfKind(kind: string): (e: Element)
    ensures e.kind == kind && e.between.None? && e.forTrench.None? && e.trenchIndex.None?
  {
    Element(kind, None, None, None, None, None, None, None, None, None, None, None, None,
            None, None, None, None, None)
  }

  /** `e.get("type", "").lower()`. */
  function TypeOf(e: Element): (t: string)
    ensures |t| == |e.kind|
  {
    LowerStr(e.kind)
  }

  predicate IsTrench(e: Element) { Contains(TypeOf(e), "baugraben") }
  predicate IsPipe(e: Element) { Contains(TypeOf(e), "rohr") }
  predicate IsPassage(e: Element) { Contains(TypeOf(e), "durchstich") }
  predicate IsConnection(e: Element) { Contains(TypeOf(e), "verbindung") }

  /** The surface test of the normaliser and the lookups: either spelling. */
  predicate IsSurface(e: Element) {
    Contains(TypeOf(e), "oberflächenbefest") || Contains(TypeOf(e), "oberflaechenbefest")
  }

  /** The surface test of the drawing generator: only the spelling with ä. */
  predicate IsDrawnSurface(e: Element) { Contains(TypeOf(e), "oberflächenbefest") }

  predicate IsOverride(e: Element) { TypeOf(e) == "aufmass_override" }

  /** `int(e.get(key, default))` for the integer fields. */
  function IntOr(v: Option<int>, default: int): (r: int)
    ensures v.Some? ==> r == v.value
    ensures v.None? ==> r == default
  {
    v.GetOr(default)
  }

  /** `float(e.get(key, 0) or 0)`. */
  function RealOr0(v: Option<real>): (r: real)
    ensures v.Some? ==> r == v.value
    ensures v.None? ==> r == 0.0
  {
    v.GetOr(0.0)
  }

  /** Python truthiness of a scalar. */
  predicate Truthy(v: Scalar) {
    match v
    case Int(i) => i != 0
    case Float(f) => f != 0.0
    case Str(s) => s != []
    case Bool(b) => b
  }

  /** `str(v)` for a scalar; `fmt` is Python's text form of a float. */
  function ScalarText(v: Scalar, fmt: real -> string): (t: string)
    ensures v.Str? ==> t == v.s
    ensures v.Int? ==> t == IntToString(v.i)
    ensures v.Bool? ==> t == (if v.b then "True" else "False")
  {
    match v
    case Int(i) => IntToString(i)
    case Float(f) => fmt(f)
    case Str(s) => s
    case Bool(b) => if b then "True" else "False"
  }

  /** `int(x)` for a float: the fraction is cut off toward zero. */
  function Trunc(f: real): (n: int)
    ensures f >= 0.0 ==> n as real <= f < n as real + 1.0
    ensures f < 0.0 ==> n as real - 1.0 < f <= n as real
  {
    if f >= 0.0 then f.Floor else -((-f).Floor)
  }

  /** `int(x)` for a JSON value x (None is `null`): integers as they are,
      booleans as 1/0, floats truncated, text read as an integer literal;
      None where `int` raises. */
  function IntOf(x: Option<Scalar>): (r: Option<int>)
    ensures x.Some? && x.value.Int? ==> r == Some(x.value.i)
    ensures x.Some? && x.value.Bool? ==> r == Some(if x.value.b then 1 else 0)
    ensures x.Some? && x.value.Float? ==> r == Some(Trunc(x.value.f))
    ensures x.None? ==> r.None?
  {
    match x
    case None => None
    case Some(Int(i)) => Some(i)
    case Some(Bool(b)) => Some(if b then 1 else 0)
    case Some(Float(f)) => Some(Trunc(f))
    case Some(Str(s)) => ParseInt(s)
  }

  /** The words differ, so no keyword of one class is mistaken for another's. */
  lemma OverrideIsNoTrench(e: Element)
    requires IsOverride(e)
    ensures !IsTrench(e) && !IsPipe(e) && !IsPassage(e) && !IsConnection(e) && !IsSurface(e)
  {
    var t := TypeOf(e);
    OverrideLetters(t);
    NotContains(t, "baugraben", 'b');
    NotContains(t, "rohr", 'h');
    NotContains(t, "durchstich", 'h');
    NotContains(t, "verbindung", 'b');
    NotContains(t, "oberflächenbefest", 'b');
    NotContains(t, "oberflaechenbefest", 'b');
  }

  /** "aufmass_override" has neither a 'b' nor an 'h'. */
  lemma OverrideLetters(t: string)
    requires t == "aufmass_override"
    ensures 'b' !in t && 'h' !in t
  {
    assert forall i :: 0 <= i < |t| ==> t[i] != 'b' && t[i] != 'h';
  }

  /** A word holding a character that s lacks is not contained in s. */
  lemma NotContains(s: string, sub: string, c: char)
    requires c in sub && c !in s
    ensures !Contains(s, sub)
  {
    ContainsAt(s, sub);
    var k :| 0 <= k < |sub| && sub[k] == c;
    forall i: nat | i + |sub| <= |s| ensures !OccursAt(s, sub, i) {
      assert s[i..i + |sub|][k] == s[i + k] != c;
    }
  }
}
