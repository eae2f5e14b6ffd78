/** The operations of the wheel do not depend on what its items are: giving the items other names
    and then operating is the same as operating and then giving the names. */
module Renaming {
  import opened Seqs
  import opened WheelModel

  function Rename<A, B>(s: seq<A>, name: A -> B): (r: seq<B>)
    ensures |r| == |s| && forall i :: 0 <= i < |s| ==> r[i] == name(s[i])
  {
    seq(|s|, i requires 0 <= i < |s| => name(s[i]))
  }

  function RenameSlots<A, B>(slots: seq<seq<A>>, name: A -> B): (r: seq<seq<B>>)
    ensures |r| == |slots| && forall j :: 0 <= j < |slots| ==> r[j] == Rename(slots[j], name)
  {
    seq(|slots|, j requires 0 <= j < |slots| => Rename(slots[j], name))
  }

  function RenameWheel<A, B>(w: Wheel<A>, name: A -> B): Wheel<B> {
    Wheel(w.start, w.idx, RenameSlots(w.slots, name))
  }

  lemma RenameAppend<A, B>(s: seq<A>, t: seq<A>, name: A -> B)
    ensures Rename(s + t, name) == Rename(s, name) + Rename(t, name)
  {
  }

  lemma RenameTail<A, B>(s: seq<A>, name: A -> B)
    requires s != []
    ensures Rename(s[1..], name) == Rename(s, name)[1..]
  {
  }

  /** The name of `x` tells it apart from the other elements. */
  ghost predicate Distinguishes<A, B>(s: seq<A>, x: A, name: A -> B) {
    forall i :: 0 <= i < |s| && name(s[i]) == name(x) ==> s[i] == x
  }

  lemma {:induction false} RenameWithout<A, B>(s: seq<A>, x: A, name: A -> B)
    requires Distinguishes(s, x, name)
    ensures Rename(Without(s, x), name) == Without(Rename(s, name), name(x))
  {
    hide Rename;
    if s != [] {
      var r, rest := Rename(s, name), Without(s[1..], x);
      RenameTail(s, name);
      assert Distinguishes(s[1..], x, name);
      RenameWithout(s[1..], x, name);
      assert r[0] == name(s[0]) && Rename(rest, name) == Without(r[1..], name(x));
      if s[0] != x {
        RenameAppend([s[0]], rest, name);
        assert Rename([s[0]], name) == [r[0]];
      }
    }
  }

  lemma RenameCancel<A, B>(w: Wheel<A>, x: A, name: A -> B)
    requires forall j :: 0 <= j < |w.slots| ==> Distinguishes(w.slots[j], x, name)
    ensures RenameWheel(Cancel(w, x), name) == Cancel(RenameWheel(w, name), name(x))
  {
    hide Without;
    var p, q := RenameWheel(Cancel(w, x), name).slots, Cancel(RenameWheel(w, name), name(x)).slots;
    forall j | 0 <= j < |w.slots| ensures p[j] == q[j] { RenameWithout(w.slots[j], x, name); }
  }

  lemma RenameAdd<A, B>(w: Wheel<A>, x: A, expire: nat, now: nat, name: A -> B)
    requires |w.slots| > 0
    ensures RenameWheel(AddTimeout(w, x, expire, now).0, name) ==
            AddTimeout(RenameWheel(w, name), name(x), expire, now).0
    ensures AddTimeout(w, x, expire, now).1 == AddTimeout(RenameWheel(w, name), name(x), expire, now).1
  {
    var w0 := Started(w, now);
    if w0.start <= now <= expire {
      var j := (w0.idx + SlotFor(|w0.slots|, w0.start, expire)) % |w0.slots|;
      RenameAppend(w0.slots[j], [x], name);
      assert Rename([x], name) == [name(x)];
      var slots, named := w0.slots, RenameSlots(w0.slots, name);
      assert RenameSlots(slots[j := slots[j] + [x]], name) == named[j := named[j] + [name(x)]];
    }
  }

  lemma {:induction false} RenameGather<A, B>(w: Wheel<A>, n: nat, name: A -> B)
    requires |w.slots| > 0
    ensures Rename(Gather(w, n), name) == Gather(RenameWheel(w, name), n)
  {
    if n > 0 {
      RenameGather(w, n - 1, name);
      RenameAppend(Gather(w, n - 1), At(w, n - 1), name);
    }
  }

  lemma RenameTake<A, B>(w: Wheel<A>, now: nat, name: A -> B)
    requires |w.slots| > 0
    ensures RenameWheel(TakeAll(w, now).0, name) == TakeAll(RenameWheel(w, name), now).0
    ensures Rename(TakeAll(w, now).1, name) == TakeAll(RenameWheel(w, name), now).1
  {
    var w0 := Started(w, now);
    if w0.start <= now {
      var cnt := TakeCount(|w0.slots|, w0.start, now);
      if cnt >= 0 {
        RenameGather(w0, cnt, name);
        assert RenameSlots(Cleared(w0, cnt), name) == Cleared(RenameWheel(w0, name), cnt);
      }
    }
  }

  /** Names given to elements that do not occur make no difference. */
  lemma RenameAgrees<A, B>(s: seq<A>, f: A -> B, g: A -> B)
    requires forall i :: 0 <= i < |s| ==> f(s[i]) == g(s[i])
    ensures Rename(s, f) == Rename(s, g)
  {
  }

  lemma RenameWheelAgrees<A, B>(w: Wheel<A>, f: A -> B, g: A -> B)
    requires forall j, i :: 0 <= j < |w.slots| && 0 <= i < |w.slots[j]| ==> f(w.slots[j][i]) == g(w.slots[j][i])
    ensures RenameWheel(w, f) == RenameWheel(w, g)
  {
    forall j | 0 <= j < |w.slots| ensures Rename(w.slots[j], f) == Rename(w.slots[j], g) {
      RenameAgrees(w.slots[j], f, g);
    }
    assert RenameSlots(w.slots, f) == RenameSlots(w.slots, g);
  }
}
