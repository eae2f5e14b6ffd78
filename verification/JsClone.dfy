/** The comparison of jspb values as an equivalence, and the deep clone as a faithful copy. */
module JsClone {
  import opened JsValue
  import opened JsNormal

  /** Values with the same normal form never need coercion to be compared. */
  lemma {:induction false} SameNormalIsComparable(a: Value, b: Value)
    requires WellFormed(a) && WellFormed(b) && Normalize(a) == Normalize(b)
    ensures Comparable(a, b)
    decreases Size(a) + Size(b), 0
  {
    if a.Arr? && b.Arr? {
      SameNormalArrays(a.elems, b.elems);
    } else if a.Obj? && b.Obj? {
      SameNormalExts(a.fields, b.fields);
    }
  }

  lemma {:induction false} SameNormalArrays(s: seq<Value>, t: seq<Value>)
    requires WellFormed(Arr(s)) && WellFormed(Arr(t)) && Normalize(Arr(s)) == Normalize(Arr(t))
    ensures Comparable(Arr(s), Arr(t))
    decreases SizeAll(s) + SizeAll(t) + 1, 2
  {
    hide Normalize, NormalizeAll, NormalizeFields, Comparable, WellFormed, Trim;
    NormalArray(s);
    NormalArray(t);
    TrimEqualIff(NormalizeAll(s), NormalizeAll(t));
    PartsWellFormed(s);
    PartsWellFormed(t);
    forall i | 0 <= i < Max(|s|, |t|) ensures Comparable(Plain(s, i), Plain(t, i)) {
      PlainSize(s, i);
      PlainSize(t, i);
      NormalizeAllAt(s, i);
      NormalizeAllAt(t, i);
      assert NAt(NormalizeAll(s), i) == NAt(NormalizeAll(t), i);
      SameNormalIsComparable(Plain(s, i), Plain(t, i));
    }
    ExtSize(s);
    ExtSize(t);
    SameNormalExts(Ext(s), Ext(t));
    PartsComparable(s, t);
  }

  lemma {:induction false} SameNormalExts(f: seq<Field>, g: seq<Field>)
    requires WellFormed(Obj(f)) && WellFormed(Obj(g)) && NormalizeFields(f) == NormalizeFields(g)
    ensures ComparableExts(f, g)
    decreases SizeFields(f) + SizeFields(g) + 1, 1
  {
    forall n | HasName(f, n) || HasName(g, n) ensures Comparable(Get(f, n), Get(g, n)) {
      NamedSizes(f, g, n);
      GetWellFormed(f, n);
      GetWellFormed(g, n);
      NormalizeFieldsAt(f, n);
      NormalizeFieldsAt(g, n);
      SameNormalIsComparable(Get(f, n), Get(g, n));
    }
  }

  lemma {:induction false} CompareReflexive(a: Value)
    requires WellFormed(a)
    ensures CompareFields(a, a)
  {
    SameNormalIsComparable(a, a);
    CompareDecidesNormalEquality(a, a);
  }

  lemma CompareSymmetric(a: Value, b: Value)
    requires WellFormed(a) && WellFormed(b) && Comparable(a, b) && CompareFields(a, b)
    ensures CompareFields(b, a)
  {
    hide CompareFields, Normalize, Comparable, WellFormed;
    CompareDecidesNormalEquality(a, b);
    SameNormalIsComparable(b, a);
    CompareDecidesNormalEquality(b, a);
  }

  lemma CompareTransitive(a: Value, b: Value, c: Value)
    requires WellFormed(a) && WellFormed(b) && WellFormed(c) && Comparable(a, b) && Comparable(b, c)
    requires CompareFields(a, b) && CompareFields(b, c)
    ensures CompareFields(a, c)
  {
    hide CompareFields, Normalize, Comparable, WellFormed;
    CompareDecidesNormalEquality(a, b);
    CompareDecidesNormalEquality(b, c);
    SameNormalIsComparable(a, c);
    CompareDecidesNormalEquality(a, c);
  }

  // ---------------------------------------------------------------- cloning

  /** clone_, on an array, a byte array or a plain object. */
  function Clone(v: Value): (r: Value)
    requires IsObject(v)
    decreases v, 0
  {
    match v
    case Arr(elems) => Arr(CloneAll(elems))
    case Bytes(bytes) => Bytes(bytes)
    case Obj(fields) => Obj(CloneFields(fields))
  }

  /** What becomes of an element: null leaves a hole, objects are cloned. */
  function CloneElem(o: Value): Value
    decreases o, 1
  {
    if IsNullish(o) then Undefined else if IsObject(o) then Clone(o) else o
  }

  function CloneAll(s: seq<Value>): (r: seq<Value>)
    ensures |r| == |s|
  {
    if s == [] then [] else [CloneElem(s[0])] + CloneAll(s[1..])
  }

  function CloneFields(fs: seq<Field>): (r: seq<Field>) {
    if fs == [] then []
    else if IsNullish(fs[0].value) then CloneFields(fs[1..])
    else [Field(fs[0].name, CloneElem(fs[0].value))] + CloneFields(fs[1..])
  }

  lemma {:induction false} CloneAllAt(s: seq<Value>, i: nat)
    requires i < |s|
    ensures CloneAll(s)[i] == CloneElem(s[i])
  {
    if i > 0 { CloneAllAt(s[1..], i - 1); }
  }

  lemma {:induction false} CloneFieldsNames(fs: seq<Field>, i: nat)
    requires i < |CloneFields(fs)|
    ensures exists j :: 0 <= j < |fs| && fs[j].name == CloneFields(fs)[i].name
                        && CloneFields(fs)[i].value == CloneElem(fs[j].value)
  {
    if IsNullish(fs[0].value) {
      CloneFieldsNames(fs[1..], i);
      var j :| 0 <= j < |fs| - 1 && fs[1..][j].name == CloneFields(fs)[i].name
               && CloneFields(fs)[i].value == CloneElem(fs[1..][j].value);
      assert fs[j + 1] == fs[1..][j];
    } else if i > 0 {
      CloneFieldsNames(fs[1..], i - 1);
      var j :| 0 <= j < |fs| - 1 && fs[1..][j].name == CloneFields(fs[1..])[i - 1].name
               && CloneFields(fs[1..])[i - 1].value == CloneElem(fs[1..][j].value);
      assert fs[j + 1] == fs[1..][j];
    }
  }

  lemma {:induction false} CloneFieldsDistinct(fs: seq<Field>)
    requires DistinctNames(fs)
    ensures DistinctNames(CloneFields(fs))
  {
    if fs != [] {
      CloneFieldsDistinct(fs[1..]);
      forall i | 0 <= i < |CloneFields(fs[1..])| ensures CloneFields(fs[1..])[i].name != fs[0].name {
        CloneFieldsNames(fs[1..], i);
      }
    }
  }

  /** Cloning the element keeps its normal form. */
  ghost predicate Kept(o: Value) {
    Normalize(CloneElem(o)) == Normalize(o) && WellFormed(CloneElem(o))
  }

  /** A clone is well formed and has the normal form of its source. */
  lemma {:induction false} CloneKeepsNormal(v: Value)
    requires IsObject(v) && WellFormed(v)
    ensures WellFormed(Clone(v)) && Normalize(Clone(v)) == Normalize(v)
    decreases v
  {
    match v
    case Bytes(_) =>
    case Arr(s) =>
      forall i | 0 <= i < |s| ensures Kept(s[i]) {
        if IsObject(s[i]) { CloneKeepsNormal(s[i]); }
      }
      ClonedArray(s);
    case Obj(fs) =>
      forall i | 0 <= i < |fs| ensures Kept(fs[i].value) {
        if IsObject(fs[i].value) { CloneKeepsNormal(fs[i].value); }
      }
      ClonedObject(fs);
  }

  lemma ClonedArray(s: seq<Value>)
    requires WellFormed(Arr(s)) && forall i :: 0 <= i < |s| ==> Kept(s[i])
    ensures WellFormed(Arr(CloneAll(s))) && Normalize(Arr(CloneAll(s))) == Normalize(Arr(s))
  {
    hide Kept, Normalize, NormalizeAll, NormalizeFields, Trim, CloneAll;
    ClonedElements(s);
    NormalArray(s);
    NormalArray(CloneAll(s));
    if s != [] { ClonedExt(s); }
    forall i | 0 <= i < |s| ensures WellFormed(CloneAll(s)[i]) && (CloneAll(s)[i].Obj? <==> s[i].Obj?) {
      ClonedElement(s, i);
    }
  }

  lemma ClonedElement(s: seq<Value>, i: nat)
    requires i < |s| && Kept(s[i])
    ensures WellFormed(CloneAll(s)[i]) && (CloneAll(s)[i].Obj? <==> s[i].Obj?)
    ensures Normalize(Plain(CloneAll(s), i)) == Normalize(Plain(s, i))
  {
    CloneAllAt(s, i);
  }

  lemma ClonedElements(s: seq<Value>)
    requires forall i :: 0 <= i < |s| ==> Kept(s[i])
    ensures Trim(NormalizeAll(CloneAll(s))) == Trim(NormalizeAll(s))
  {
    hide Kept, Trim, NormalizeAll, Normalize, CloneAll, WellFormed;
    var p, q := NormalizeAll(CloneAll(s)), NormalizeAll(s);
    forall i | 0 <= i < |s| ensures NAt(p, i) == NAt(q, i) {
      NormalizeAllAt(s, i);
      NormalizeAllAt(CloneAll(s), i);
      ClonedElement(s, i);
    }
    TrimEqualIff(p, q);
  }

  lemma KeptProperties(v: Value)
    requires Kept(v)
    ensures CloneElem(v).Obj? <==> v.Obj?
    ensures v.Obj? ==> NormalizeFields(CloneElem(v).fields) == NormalizeFields(v.fields)
  {
    hide NormalizeFields, CloneFields;
  }

  lemma ClonedExt(s: seq<Value>)
    requires s != [] && Kept(s[|s| - 1])
    ensures NormalizeFields(Ext(CloneAll(s))) == NormalizeFields(Ext(s))
  {
    hide Kept, CloneAll, CloneElem, NormalizeFields;
    CloneAllAt(s, |s| - 1);
    KeptProperties(s[|s| - 1]);
  }

  lemma {:induction false} ClonedFields(fs: seq<Field>)
    requires forall i :: 0 <= i < |fs| ==> Kept(fs[i].value)
    ensures NormalizeFields(CloneFields(fs)) == NormalizeFields(fs)
  {
    if fs != [] {
      assert Kept(fs[0].value);
      ClonedFields(fs[1..]);
    }
  }

  lemma ClonedObject(fs: seq<Field>)
    requires WellFormed(Obj(fs)) && forall i :: 0 <= i < |fs| ==> Kept(fs[i].value)
    ensures WellFormed(Obj(CloneFields(fs))) && Normalize(Obj(CloneFields(fs))) == Normalize(Obj(fs))
  {
    ClonedFields(fs);
    CloneFieldsDistinct(fs);
    forall i | 0 <= i < |CloneFields(fs)| ensures WellFormed(CloneFields(fs)[i].value) {
      CloneFieldsNames(fs, i);
      var j :| 0 <= j < |fs| && CloneFields(fs)[i].value == CloneElem(fs[j].value);
      assert Kept(fs[j].value);
    }
  }

  /** The clone of any well-formed tree compares equal to its source, both ways. */
  lemma CloneComparesEqual(v: Value)
    requires IsObject(v) && WellFormed(v)
    ensures CompareFields(v, Clone(v)) && CompareFields(Clone(v), v)
  {
    hide CompareFields, Normalize, Comparable, WellFormed, Clone;
    CloneKeepsNormal(v);
    SameNormalIsComparable(v, Clone(v));
    SameNormalIsComparable(Clone(v), v);
    CompareDecidesNormalEquality(v, Clone(v));
    CompareDecidesNormalEquality(Clone(v), v);
  }
}
