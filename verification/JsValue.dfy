/** The value trees inside a jspb message (protobuf-3.20.0/js/message.js), and the structural
    comparison of such trees. */
module JsValue {

  /** A property of a plain object. */
  datatype Field = Field(name: string, value: Value)

  /** A JavaScript value as it occurs in a message array.  A plain object is an extension object:
      it lists its properties in order, each name once. */
  datatype Value =
    | Undefined
    | Null
    | Bool(b: bool)
    | Num(n: int)
    | NaN
    | Str(s: string)
    | Bytes(bytes: seq<bv8>)
    | Arr(elems: seq<Value>)
    | Obj(fields: seq<Field>)

  predicate IsNullish(v: Value) {
    v.Undefined? || v.Null?
  }

  /** goog.isObject. */
  predicate IsObject(v: Value) {
    v.Bytes? || v.Arr? || v.Obj?
  }

  function Max(a: int, b: int): int { if a < b then b else a }

  function At(s: seq<Value>, i: nat): Value {
    if i < |s| then s[i] else Undefined
  }

  /** Property access on a plain object. */
  function Get(fs: seq<Field>, name: string): (v: Value)
    ensures v != Undefined ==> Field(name, v) in fs
  {
    if fs == [] then Undefined
    else if fs[0].name == name then fs[0].value
    else Get(fs[1..], name)
  }

  predicate DistinctNames(fs: seq<Field>) {
    forall i, j :: 0 <= i < j < |fs| ==> fs[i].name != fs[j].name
  }

  /** Property names occur once, and inside an array an extension object stands at the end. */
  predicate WellFormed(v: Value) {
    match v
    case Arr(elems) =>
      && (forall i :: 0 <= i < |elems| - 1 ==> !elems[i].Obj?)
      && forall i :: 0 <= i < |elems| ==> WellFormed(elems[i])
    case Obj(fields) =>
      DistinctNames(fields) && forall i :: 0 <= i < |fields| ==> WellFormed(fields[i].value)
    case _ => true
  }

  // ---------------------------------------------------------------- sizes

  function Size(v: Value): (n: nat)
    ensures n >= 1
  {
    match v
    case Arr(elems) => 1 + SizeAll(elems)
    case Obj(fields) => 1 + SizeFields(fields)
    case _ => 1
  }

  function SizeAll(s: seq<Value>): nat {
    if s == [] then 0 else Size(s[0]) + SizeAll(s[1..])
  }

  function SizeFields(fs: seq<Field>): nat {
    if fs == [] then 0 else Size(fs[0].value) + SizeFields(fs[1..])
  }

  lemma {:induction false} SizeAt(s: seq<Value>, i: nat)
    requires i < |s|
    ensures Size(s[i]) <= SizeAll(s)
  {
    if i > 0 { SizeAt(s[1..], i - 1); }
  }

  lemma {:induction false} SizeGet(fs: seq<Field>, name: string)
    ensures Get(fs, name) == Undefined || Size(Get(fs, name)) <= SizeFields(fs)
  {
    if fs != [] { SizeGet(fs[1..], name); }
  }

  // ---------------------------------------------------------------- comparison

  /** The extension object at the end of an array; no properties if there is none. */
  function Ext(elems: seq<Value>): (fs: seq<Field>) {
    if elems != [] && elems[|elems| - 1].Obj? then elems[|elems| - 1].fields else []
  }

  /** Element `i` with the extension object blanked out. */
  function Plain(elems: seq<Value>, i: nat): Value {
    if At(elems, i).Obj? then Undefined else At(elems, i)
  }

  predicate HasName(fs: seq<Field>, name: string) {
    exists i :: 0 <= i < |fs| && fs[i].name == name
  }

  lemma ExtSize(elems: seq<Value>)
    ensures SizeFields(Ext(elems)) <= SizeAll(elems)
  {
    if elems != [] { SizeAt(elems, |elems| - 1); }
  }

  lemma PlainSize(elems: seq<Value>, i: nat)
    ensures i < |elems| ==> Size(Plain(elems, i)) <= SizeAll(elems)
    ensures i >= |elems| ==> Plain(elems, i) == Undefined
  {
    if i < |elems| { SizeAt(elems, i); }
  }

  lemma {:induction false} NamedSize(fs: seq<Field>, name: string)
    requires HasName(fs, name)
    ensures Size(Get(fs, name)) <= SizeFields(fs)
  {
    if fs[0].name != name {
      var i :| 0 <= i < |fs| && fs[i].name == name;
      assert fs[1..][i - 1].name == name;
      NamedSize(fs[1..], name);
    }
  }

  /** `==` between values on which it does not coerce; objects are never the same object here. */
  predicate LooseEq(a: Value, b: Value) {
    (IsNullish(a) && IsNullish(b)) || (!IsObject(a) && !a.NaN? && a == b)
  }

  /** String(v) is "NaN", for a value that is not an object. */
  predicate PrintsNaN(v: Value) {
    v.NaN? || v == Str("NaN")
  }

  /** `==` and String do not coerce between kinds of values here. */
  predicate SameKind(a: Value, b: Value) {
    || IsNullish(a) || IsNullish(b)
    || (IsObject(a) && IsObject(b))
    || (a.Bool? && b.Bool?)
    || ((a.Num? || a.NaN?) && (b.Num? || b.NaN?))
    || (a.Str? && b.Str?)
    || (a.NaN? && b.Str?) || (a.Str? && b.NaN?)
  }

  /** All comparisons that CompareFields comes to are between values of the same kind. */
  ghost predicate Comparable(a: Value, b: Value)
    decreases Size(a) + Size(b), 0
  {
    && SameKind(a, b)
    && (a.Arr? && b.Arr? ==>
          && (forall i :: 0 <= i < Max(|a.elems|, |b.elems|) ==>
                (PlainSize(a.elems, i); PlainSize(b.elems, i); Comparable(Plain(a.elems, i), Plain(b.elems, i))))
          && (ExtSize(a.elems); ExtSize(b.elems); ComparableExts(Ext(a.elems), Ext(b.elems))))
    && (a.Obj? && b.Obj? ==> ComparableExts(a.fields, b.fields))
  }

  ghost predicate ComparableExts(f: seq<Field>, g: seq<Field>)
    decreases SizeFields(f) + SizeFields(g) + 1, 1
  {
    forall n :: HasName(f, n) || HasName(g, n) ==>
      (NamedSizes(f, g, n); Comparable(Get(f, n), Get(g, n)))
  }

  lemma NamedSizes(f: seq<Field>, g: seq<Field>, n: string)
    requires HasName(f, n) || HasName(g, n)
    ensures Size(Get(f, n)) + Size(Get(g, n)) <= SizeFields(f) + SizeFields(g) + 1
  {
    if HasName(f, n) { NamedSize(f, n); }
    if HasName(g, n) { NamedSize(g, n); }
    SizeGet(f, n);
    SizeGet(g, n);
  }

  /** compareFields.  The identity of two objects is not looked at: an object compares equal to
      itself anyway (see CompareReflexive). */
  predicate CompareFields(a: Value, b: Value)
    decreases Size(a) + Size(b), 0
  {
    if LooseEq(a, b) then true
    else if !IsObject(a) || !IsObject(b) then
      (a.NaN? || b.NaN?) && PrintsNaN(a) && PrintsNaN(b)
    else
      match (a, b)
      case (Bytes(s), Bytes(t)) => s == t
      case (Arr(s), Arr(t)) =>
        && (forall i :: 0 <= i < Max(|s|, |t|) ==>
              (PlainSize(s, i); PlainSize(t, i); CompareFields(Plain(s, i), Plain(t, i))))
        && (ExtSize(s); ExtSize(t); CompareExtensions(Ext(s), Ext(t)))
      case (Obj(f), Obj(g)) => CompareExtensions(f, g)
      case _ => false
  }

  /** compareExtensions: every property that either has. */
  predicate CompareExtensions(f: seq<Field>, g: seq<Field>)
    decreases SizeFields(f) + SizeFields(g) + 1, 1
  {
    && (forall i :: 0 <= i < |f| ==>
          (assert HasName(f, f[i].name); NamedSizes(f, g, f[i].name);
           CompareFields(Get(f, f[i].name), Get(g, f[i].name))))
    && (forall i :: 0 <= i < |g| ==>
          (assert HasName(g, g[i].name); NamedSizes(f, g, g[i].name);
           CompareFields(Get(f, g[i].name), Get(g, g[i].name))))
  }
}
