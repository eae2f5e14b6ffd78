/** Sequences without repetition. */
module Seqs {

  ghost predicate NoDup<T>(s: seq<T>) {
    forall i, j :: 0 <= i < j < |s| ==> s[i] != s[j]
  }

  /** `s` without the occurrences of `x`. */
  function Without<T(==)>(s: seq<T>, x: T): (r: seq<T>)
    ensures x !in r
    ensures x !in s ==> r == s
    ensures forall y :: y in r ==> y in s
    ensures forall y :: y in s && y != x ==> y in r
  {
    if s == [] then []
    else if s[0] == x then Without(s[1..], x)
    else [s[0]] + Without(s[1..], x)
  }

  /** Without drops exactly the one position at which a repetition-free sequence holds the element. */
  lemma {:induction false} WithoutAt<T>(s: seq<T>, k: nat)
    requires k < |s| && NoDup(s)
    ensures Without(s, s[k]) == s[..k] + s[k + 1..]
  {
    if k == 0 {
      assert s[0] !in s[1..];
    } else {
      WithoutAt(s[1..], k - 1);
      assert s[1..][..k - 1] == s[1..k];
      assert s[..k] == [s[0]] + s[1..k];
      assert s[1..][k..] == s[k + 1..];
    }
  }

  function Shifted(p: seq<nat>): (r: seq<nat>)
    ensures |r| == |p| && forall i :: 0 <= i < |p| ==> r[i] == p[i] + 1
  {
    seq(|p|, i requires 0 <= i < |p| => p[i] + 1)
  }

  /** Position `i` of `r` is position `pos[i]` of `s`, in the same order. */
  ghost predicate Picks<T>(s: seq<T>, r: seq<T>, pos: seq<nat>) {
    && |pos| == |r|
    && (forall i :: 0 <= i < |r| ==> pos[i] < |s| && r[i] == s[pos[i]])
    && forall i, j :: 0 <= i < j < |pos| ==> pos[i] < pos[j]
  }

  lemma PicksFromTail<T>(s: seq<T>, r: seq<T>, pos: seq<nat>)
    requires s != [] && Picks(s[1..], r, pos)
    ensures Picks(s, r, Shifted(pos)) && Picks(s, [s[0]] + r, [0] + Shifted(pos))
  {
    hide Shifted;
    var p := Shifted(pos);
    forall i | 0 <= i < |r| ensures p[i] < |s| && r[i] == s[p[i]] { assert s[1..][pos[i]] == s[pos[i] + 1]; }
  }

  lemma PicksBehind<T>(a: seq<T>, b: seq<T>, r: seq<T>, p: seq<nat>) returns (pos: seq<nat>)
    requires Picks(b, r, p)
    ensures Picks(a + b, a + r, pos)
  {
    pos := seq(|a + r|, i requires 0 <= i < |a + r| => if i < |a| then i else |a| + p[i - |a|]);
    forall i | 0 <= i < |a + r| ensures pos[i] < |a + b| && (a + r)[i] == (a + b)[pos[i]] {
      if i >= |a| { assert r[i - |a|] == b[p[i - |a|]]; }
    }
  }

  /** Without keeps the order. */
  lemma {:induction false} WithoutPositions<T>(s: seq<T>, x: T) returns (pos: seq<nat>)
    ensures Picks(s, Without(s, x), pos)
  {
    if s == [] {
      pos := [];
    } else {
      hide Picks, Shifted;
      var p := WithoutPositions(s[1..], x);
      PicksFromTail(s, Without(s[1..], x), p);
      pos := if s[0] == x then Shifted(p) else [0] + Shifted(p);
    }
  }

  lemma {:induction false} NoDupSize<T>(s: seq<T>, xs: set<T>)
    requires NoDup(s) && forall x :: x in s ==> x in xs
    ensures |s| <= |xs|
  {
    if s != [] {
      var n := |s| - 1;
      NoDupSize(s[..n], xs - {s[n]});
    }
  }

  lemma {:induction false} NoDupBelow(s: seq<nat>, n: nat)
    requires NoDup(s) && forall i :: 0 <= i < |s| ==> s[i] < n
    ensures |s| <= n
  {
    if s != [] {
      assert s[0] < n;
      if n - 1 in s {
        var k :| 0 <= k < |s| && s[k] == n - 1;
        NoDupBelow(s[..k] + s[k + 1..], n - 1);
      } else {
        NoDupBelow(s, n - 1);
      }
    }
  }

  /** `s` without the elements of `xs`. */
  function WithoutAll<T(==)>(s: seq<T>, xs: seq<T>): seq<T>
    decreases xs
  {
    if xs == [] then s else WithoutAll(Without(s, xs[0]), xs[1..])
  }

  lemma {:induction false} WithoutAppend<T>(s: seq<T>, y: T, x: T)
    requires x != y
    ensures Without(s + [y], x) == Without(s, x) + [y]
  {
    if s != [] {
      assert (s + [y])[1..] == s[1..] + [y];
      WithoutAppend(s[1..], y, x);
    }
  }

  lemma {:induction false} WithoutAllKeepsLast<T>(s: seq<T>, xs: seq<T>, y: T)
    requires y !in xs
    ensures WithoutAll(s + [y], xs) == WithoutAll(s, xs) + [y]
    decreases xs
  {
    if xs != [] {
      assert xs[0] != y;
      WithoutAppend(s, y, xs[0]);
      WithoutAllKeepsLast(Without(s, xs[0]), xs[1..], y);
    }
  }

  /** Moving the elements of `q` to the end of `a` one by one moves them there in order. */
  lemma MoveFirstToEnd<T>(a: seq<T>, q: seq<T>)
    requires q != [] && NoDup(q)
    ensures WithoutAll(a, q) + q == WithoutAll(Without(a, q[0]) + [q[0]], q[1..]) + q[1..]
  {
    hide Without;
    var b := Without(a, q[0]);
    WithoutAllKeepsLast(b, q[1..], q[0]);
    Associative(WithoutAll(b, q[1..]), q);
  }

  lemma Associative<T>(a: seq<T>, q: seq<T>)
    requires q != []
    ensures a + [q[0]] + q[1..] == a + q
  {
    assert [q[0]] + q[1..] == q;
  }
}
