/** What the structural comparison of jspb values decides: equality of normal forms, in which null
    and undefined are the same, arrays end with their last set element, and properties that are
    not set do not count. */
module JsNormal {
  import opened JsValue

  datatype Normal =
    | Unset
    | NBool(b: bool)
    | NNum(n: int)
    | NStr(s: string)
    | NBytes(bytes: seq<bv8>)
    | NArr(body: seq<Normal>, ext: map<string, Normal>)
    | NObj(ext: map<string, Normal>)

  /** NaN is written as the string it prints as. */
  function Normalize(v: Value): Normal {
    match v
    case Undefined => Unset
    case Null => Unset
    case Bool(b) => NBool(b)
    case Num(n) => NNum(n)
    case NaN => NStr("NaN")
    case Str(s) => NStr(s)
    case Bytes(bytes) => NBytes(bytes)
    case Arr(elems) => NArr(Trim(NormalizeAll(elems)), if elems != [] then NormalizeExt(elems[|elems| - 1]) else map[])
    case Obj(fields) => NObj(NormalizeFields(fields))
  }

  function NormalizeExt(v: Value): map<string, Normal> {
    if v.Obj? then NormalizeFields(v.fields) else map[]
  }

  function NormalizeAll(s: seq<Value>): (r: seq<Normal>)
    ensures |r| == |s|
  {
    if s == [] then []
    else [if s[0].Obj? then Unset else Normalize(s[0])] + NormalizeAll(s[1..])
  }

  function NormalizeFields(fs: seq<Field>): map<string, Normal> {
    if fs == [] then map[]
    else
      var rest := NormalizeFields(fs[1..]);
      if Normalize(fs[0].value) == Unset then rest else rest[fs[0].name := Normalize(fs[0].value)]
  }

  /** A sequence without its trailing unset elements. */
  function Trim(s: seq<Normal>): (r: seq<Normal>)
    ensures r != [] ==> r[|r| - 1] != Unset
    ensures |r| <= |s| && forall i :: 0 <= i < |r| ==> r[i] == s[i]
    ensures forall i :: |r| <= i < |s| ==> s[i] == Unset
  {
    if s == [] || s[|s| - 1] != Unset then s else Trim(s[..|s| - 1])
  }

  function NAt(s: seq<Normal>, i: nat): Normal {
    if i < |s| then s[i] else Unset
  }

  ghost predicate AgreeEverywhere(s: seq<Normal>, t: seq<Normal>) {
    forall i :: 0 <= i < Max(|s|, |t|) ==> NAt(s, i) == NAt(t, i)
  }

  lemma TrimNotLonger(s: seq<Normal>, t: seq<Normal>)
    requires AgreeEverywhere(s, t)
    ensures |Trim(s)| <= |Trim(t)|
  {
    hide Trim;
    var n := |Trim(s)| - 1;
    assert n >= 0 ==> NAt(s, n) == NAt(t, n);
  }

  /** Trimmed sequences are equal when they agree at every index, unset beyond their ends. */
  lemma TrimEqualIff(s: seq<Normal>, t: seq<Normal>)
    ensures Trim(s) == Trim(t) <==> AgreeEverywhere(s, t)
  {
    hide Trim;
    var p, q := Trim(s), Trim(t);
    if AgreeEverywhere(s, t) {
      TrimNotLonger(s, t);
      TrimNotLonger(t, s);
      forall i | 0 <= i < |p| ensures p[i] == q[i] { assert NAt(s, i) == NAt(t, i); }
    }
    if p == q {
      forall i | 0 <= i < Max(|s|, |t|) ensures NAt(s, i) == NAt(t, i) {
        assert NAt(s, i) == NAt(p, i) && NAt(t, i) == NAt(q, i);
      }
    }
  }

  lemma {:induction false} NormalizeAllAt(s: seq<Value>, i: nat)
    ensures NAt(NormalizeAll(s), i) == Normalize(Plain(s, i))
  {
    if s != [] && i > 0 {
      NormalizeAllAt(s[1..], i - 1);
      assert At(s[1..], i - 1) == At(s, i);
    }
  }

  lemma {:induction false} NormalizeFieldsAt(fs: seq<Field>, n: string)
    requires DistinctNames(fs)
    ensures n in NormalizeFields(fs) <==> Normalize(Get(fs, n)) != Unset
    ensures n in NormalizeFields(fs) ==> NormalizeFields(fs)[n] == Normalize(Get(fs, n))
  {
    if fs != [] {
      NormalizeFieldsAt(fs[1..], n);
      if fs[0].name == n { NotAgain(fs, n); }
    }
  }

  lemma NotAgain(fs: seq<Field>, n: string)
    requires DistinctNames(fs) && fs != [] && fs[0].name == n
    ensures Get(fs[1..], n) == Undefined
  {
    Absent(fs[1..], n);
  }

  lemma {:induction false} Absent(fs: seq<Field>, n: string)
    requires forall i :: 0 <= i < |fs| ==> fs[i].name != n
    ensures Get(fs, n) == Undefined
  {
    if fs != [] { Absent(fs[1..], n); }
  }

  /** Two values compare as their normal forms do. */
  ghost predicate Agrees(a: Value, b: Value) {
    CompareFields(a, b) <==> Normalize(a) == Normalize(b)
  }

  lemma ExtensionsAgree(f: seq<Field>, g: seq<Field>)
    requires DistinctNames(f) && DistinctNames(g)
    requires forall n :: HasName(f, n) || HasName(g, n) ==> Agrees(Get(f, n), Get(g, n))
    ensures CompareExtensions(f, g) <==> NormalizeFields(f) == NormalizeFields(g)
  {
    hide CompareFields, Normalize, NormalizeFields;
    var p, q := NormalizeFields(f), NormalizeFields(g);
    forall n ensures (n in p <==> Normalize(Get(f, n)) != Unset) && (n in p ==> p[n] == Normalize(Get(f, n)))
             ensures (n in q <==> Normalize(Get(g, n)) != Unset) && (n in q ==> q[n] == Normalize(Get(g, n)))
    {
      NormalizeFieldsAt(f, n);
      NormalizeFieldsAt(g, n);
    }
    if CompareExtensions(f, g) {
      forall n ensures Normalize(Get(f, n)) == Normalize(Get(g, n)) {
        if HasName(f, n) || HasName(g, n) {
          assert Agrees(Get(f, n), Get(g, n));
        } else {
          Absent(f, n);
          Absent(g, n);
        }
      }
      assert p == q;
    }
    if p == q {
      forall i | 0 <= i < |f| ensures CompareFields(Get(f, f[i].name), Get(g, f[i].name)) {
        assert HasName(f, f[i].name);
        assert Agrees(Get(f, f[i].name), Get(g, f[i].name));
      }
      forall i | 0 <= i < |g| ensures CompareFields(Get(f, g[i].name), Get(g, g[i].name)) {
        assert HasName(g, g[i].name);
        assert Agrees(Get(f, g[i].name), Get(g, g[i].name));
      }
    }
  }

  lemma ArraysAgree(s: seq<Value>, t: seq<Value>)
    requires WellFormed(Arr(s)) && WellFormed(Arr(t))
    requires forall i :: 0 <= i < Max(|s|, |t|) ==> Agrees(Plain(s, i), Plain(t, i))
    requires CompareExtensions(Ext(s), Ext(t)) <==> NormalizeFields(Ext(s)) == NormalizeFields(Ext(t))
    ensures Agrees(Arr(s), Arr(t))
  {
    hide CompareExtensions, NormalizeFields, WellFormed;
    var p, q := NormalizeAll(s), NormalizeAll(t);
    TrimEqualIff(p, q);
    forall i | 0 <= i < Max(|s|, |t|)
      ensures NAt(p, i) == NAt(q, i) <==> CompareFields(Plain(s, i), Plain(t, i))
    {
      NormalizeAllAt(s, i);
      NormalizeAllAt(t, i);
      assert Agrees(Plain(s, i), Plain(t, i));
    }
    NormalArray(s);
    NormalArray(t);
    CompareArrays(s, t);
  }

  lemma NormalArray(s: seq<Value>)
    ensures Normalize(Arr(s)) == NArr(Trim(NormalizeAll(s)), NormalizeFields(Ext(s)))
  {
  }

  lemma CompareArrays(s: seq<Value>, t: seq<Value>)
    ensures CompareFields(Arr(s), Arr(t)) <==>
            && (forall i :: 0 <= i < Max(|s|, |t|) ==> CompareFields(Plain(s, i), Plain(t, i)))
            && CompareExtensions(Ext(s), Ext(t))
  {
  }

  // ---------------------------------------------------------------- the theorem

  lemma PrimitivesAgree(a: Value, b: Value)
    requires SameKind(a, b) && !(IsObject(a) && IsObject(b))
    ensures Agrees(a, b)
  {
  }

  lemma PartsWellFormed(s: seq<Value>)
    requires WellFormed(Arr(s))
    ensures forall i: nat :: WellFormed(Plain(s, i))
    ensures WellFormed(Obj(Ext(s)))
  {
  }

  lemma PartsComparable(s: seq<Value>, t: seq<Value>)
    ensures Comparable(Arr(s), Arr(t)) <==>
            && (forall i :: 0 <= i < Max(|s|, |t|) ==> Comparable(Plain(s, i), Plain(t, i)))
            && ComparableExts(Ext(s), Ext(t))
  {
  }

  /** On well-formed trees that compare without coercion, compareFields decides equality of
      normal forms. */
  lemma {:induction false} CompareDecidesNormalEquality(a: Value, b: Value)
    requires WellFormed(a) && WellFormed(b) && Comparable(a, b)
    ensures CompareFields(a, b) <==> Normalize(a) == Normalize(b)
    decreases Size(a) + Size(b), 0
  {
    if a.Arr? && b.Arr? {
      hide CompareFields, Normalize, WellFormed, Comparable;
      ArraysDecide(a.elems, b.elems);
    } else if a.Obj? && b.Obj? {
      ExtensionsDecide(a.fields, b.fields);
    } else if !(IsObject(a) && IsObject(b)) {
      PrimitivesAgree(a, b);
    }
  }

  lemma {:induction false} ArraysDecide(s: seq<Value>, t: seq<Value>)
    requires WellFormed(Arr(s)) && WellFormed(Arr(t)) && Comparable(Arr(s), Arr(t))
    ensures Agrees(Arr(s), Arr(t))
    decreases SizeAll(s) + SizeAll(t) + 1, 2
  {
    hide CompareFields, Normalize, NormalizeFields, CompareExtensions, WellFormed, Comparable;
    PartsComparable(s, t);
    PartsWellFormed(s);
    PartsWellFormed(t);
    forall i | 0 <= i < Max(|s|, |t|) ensures Agrees(Plain(s, i), Plain(t, i)) {
      PlainSize(s, i);
      PlainSize(t, i);
      CompareDecidesNormalEquality(Plain(s, i), Plain(t, i));
    }
    ExtSize(s);
    ExtSize(t);
    ExtensionsDecide(Ext(s), Ext(t));
    ArraysAgree(s, t);
  }

  lemma {:induction false} ExtensionsDecide(f: seq<Field>, g: seq<Field>)
    requires WellFormed(Obj(f)) && WellFormed(Obj(g)) && ComparableExts(f, g)
    ensures CompareExtensions(f, g) <==> NormalizeFields(f) == NormalizeFields(g)
    decreases SizeFields(f) + SizeFields(g) + 1, 1
  {
    hide CompareFields, Normalize, NormalizeFields, CompareExtensions;
    forall n | HasName(f, n) || HasName(g, n) ensures Agrees(Get(f, n), Get(g, n)) {
      NamedSizes(f, g, n);
      GetWellFormed(f, n);
      GetWellFormed(g, n);
      CompareDecidesNormalEquality(Get(f, n), Get(g, n));
    }
    ExtensionsAgree(f, g);
  }

  lemma {:induction false} GetWellFormed(fs: seq<Field>, n: string)
    requires forall i :: 0 <= i < |fs| ==> WellFormed(fs[i].value)
    ensures WellFormed(Get(fs, n))
  {
    if fs != [] { GetWellFormed(fs[1..], n); }
  }
}
