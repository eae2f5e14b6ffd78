/** The order of strings character by character, and sorting by it. */
module StringOrder {

  /** The sign of strcmp. */
  function StrCmp(a: string, b: string): (r: int)
    ensures r == 0 <==> a == b
  {
    if a == [] && b == [] then 0
    else if a == [] then -1
    else if b == [] then 1
    else if a[0] < b[0] then -1
    else if a[0] > b[0] then 1
    else
      var r := StrCmp(a[1..], b[1..]);
      assert r == 0 ==> a == [a[0]] + a[1..] == [b[0]] + b[1..] == b;
      r
  }

  lemma {:induction false} StrCmpAntisymmetric(a: string, b: string)
    ensures StrCmp(a, b) < 0 <==> StrCmp(b, a) > 0
  {
    if a != [] && b != [] { StrCmpAntisymmetric(a[1..], b[1..]); }
  }

  lemma {:induction false} StrCmpTransitive(a: string, b: string, c: string)
    requires StrCmp(a, b) <= 0 && StrCmp(b, c) <= 0
    ensures StrCmp(a, c) <= 0 && (StrCmp(a, b) < 0 || StrCmp(b, c) < 0 ==> StrCmp(a, c) < 0)
  {
    if a != [] && b != [] && c != [] && a[0] == b[0] == c[0] {
      StrCmpTransitive(a[1..], b[1..], c[1..]);
    }
  }

  ghost predicate Sorted(s: seq<string>) {
    forall i, j :: 0 <= i < j < |s| ==> StrCmp(s[i], s[j]) <= 0
  }

  ghost predicate StrictlySorted(s: seq<string>) {
    forall i, j :: 0 <= i < j < |s| ==> StrCmp(s[i], s[j]) < 0
  }

  /** What a library sort makes of `s`: see SortIsUnique. */
  function Sort(s: seq<string>): (r: seq<string>)
    ensures multiset(r) == multiset(s)
  {
    if s == [] then []
    else
      assert s == [s[0]] + s[1..];
      Insert(s[0], Sort(s[1..]))
  }

  function Insert(x: string, s: seq<string>): (r: seq<string>)
    ensures multiset(r) == multiset{x} + multiset(s)
  {
    if s == [] || StrCmp(x, s[0]) <= 0 then [x] + s
    else
      assert s == [s[0]] + s[1..];
      [s[0]] + Insert(x, s[1..])
  }

  lemma {:induction false} InsertSorted(x: string, s: seq<string>)
    requires Sorted(s)
    ensures Sorted(Insert(x, s))
  {
    if s == [] {
    } else if StrCmp(x, s[0]) <= 0 {
      forall j | 0 <= j < |s| ensures StrCmp(x, s[j]) <= 0 {
        if j > 0 { StrCmpTransitive(x, s[0], s[j]); }
      }
    } else {
      InsertSorted(x, s[1..]);
      StrCmpAntisymmetric(s[0], x);
      var r := Insert(x, s[1..]);
      forall j | 0 <= j < |r| ensures StrCmp(s[0], r[j]) <= 0 {
        assert r[j] in multiset(r);
        if r[j] != x {
          assert r[j] in s[1..];
        }
      }
    }
  }

  lemma {:induction false} SortSorts(s: seq<string>)
    ensures Sorted(Sort(s))
  {
    if s != [] {
      SortSorts(s[1..]);
      InsertSorted(s[0], Sort(s[1..]));
    }
  }

  lemma SameNames(s: seq<string>, t: seq<string>, x: string)
    requires multiset(s) == multiset(t)
    ensures x in s <==> x in t
  {
    assert x in s <==> x in multiset(s);
    assert x in t <==> x in multiset(t);
  }

  /** There is only one way to sort strings, whatever routine does it. */
  lemma {:induction false} SortIsUnique(s: seq<string>, t: seq<string>)
    requires Sorted(t) && multiset(t) == multiset(s)
    ensures t == Sort(s)
  {
    SortSorts(s);
    SortedAreEqual(t, Sort(s));
  }

  lemma {:induction false} SortedAreEqual(s: seq<string>, t: seq<string>)
    requires Sorted(s) && Sorted(t) && multiset(s) == multiset(t)
    ensures s == t
  {
    hide StrCmp;
    assert |multiset(s)| == |s| && |multiset(t)| == |t|;
    if s != [] {
      SameFirst(s, t);
      assert s == [s[0]] + s[1..] && t == [s[0]] + t[1..];
      assert multiset(s[1..]) == multiset(s) - multiset{s[0]};
      assert multiset(t[1..]) == multiset(t) - multiset{s[0]};
      SortedAreEqual(s[1..], t[1..]);
    }
  }

  lemma SameFirst(s: seq<string>, t: seq<string>)
    requires Sorted(s) && Sorted(t) && multiset(s) == multiset(t) && s != [] && t != []
    ensures s[0] == t[0]
  {
    hide StrCmp;
    SameNames(s, t, s[0]);
    SameNames(s, t, t[0]);
    FirstIsLeast(s, t[0]);
    FirstIsLeast(t, s[0]);
    StrCmpAntisymmetric(t[0], s[0]);
    assert StrCmp(s[0], t[0]) == 0;
  }

  lemma FirstIsLeast(s: seq<string>, x: string)
    requires Sorted(s) && x in s
    ensures StrCmp(s[0], x) <= 0
  {
    var i :| 0 <= i < |s| && s[i] == x;
    assert i == 0 || StrCmp(s[0], s[i]) <= 0;
  }
}
