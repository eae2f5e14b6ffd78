/** The timer wheel of libco/co_routine.cpp on the heap: an array of intrusive lists, updated in
    place.  Each operation is shown to do what WheelModel says. */
module TimerWheel {
  import opened Seqs
  import opened Links
  import opened Scheduler
  import WheelModel

  type Item = Node<Timer>
  type ItemLink = Link<Timer>

  class TimeoutWheel {
    const slots: seq<ItemLink>
    var start: nat
    var idx: int
    /** All lists of timer items, the slots among them, and all timer items. */
    ghost var lists: set<ItemLink>
    ghost var nodes: set<Item>

    /** AllocTimeout: `iSize` empty slots. */
    constructor (iSize: nat, now: nat, ghost others: set<ItemLink>)
      requires iSize > 0 && forall l :: l in others ==> l.Valid() && l.items == []
      ensures Valid() && idx == 0 && fresh(slots) && nodes == {} && others <= lists && fresh(lists - others)
      ensures Abs() == WheelModel.Wheel(now, 0, seq(iSize, _ => []))
    {
      var s: seq<ItemLink> := [];
      while |s| < iSize
        invariant |s| <= iSize && NoDup(s) && fresh(s)
        invariant forall l :: l in s ==> l.Valid() && l.items == []
      {
        var l := new Link<Timer>();
        s := s + [l];
      }
      slots, start, idx, lists, nodes := s, now, 0, others + set l | l in s, {};
    }

    ghost predicate Valid()
      reads this, lists, nodes
    {
      World(lists, nodes) && SlotsAreLists()
    }

    ghost predicate SlotsAreLists()
      reads this
    {
      |slots| > 0 && NoDup(slots) && forall i :: 0 <= i < |slots| ==> slots[i] in lists
    }

    ghost function Slots(): (r: seq<seq<Item>>)
      reads slots
      ensures |r| == |slots|
    {
      seq(|slots|, i requires 0 <= i < |slots| reads slots => slots[i].items)
    }

    /** The wheel as a value. */
    ghost function Abs(): WheelModel.Wheel<Item>
      reads this, slots
    {
      WheelModel.Wheel(start, idx, Slots())
    }

    /** A start of 0 stands for a wheel that has not been started. */
    method Start(allNow: nat)
      modifies `start, `idx
      ensures Abs() == WheelModel.Started(old(Abs()), allNow)
    {
      if start == 0 {
        start := allNow;
        idx := 0;
      }
    }

    method AddTimeout(apItem: Item, allNow: nat) returns (ret: int)
      requires Valid() && idx >= 0 && apItem.link == null && apItem in nodes
      modifies `start, `idx, slots, nodes`next, apItem`prev, apItem`link
      ensures Valid() && idx >= 0
      ensures (Abs(), ret) == WheelModel.AddTimeout(old(Abs()), apItem, apItem.payload.expire, allNow)
      ensures forall l :: l in lists && l !in slots ==> l.items == old(l.items)
      ensures ret != 0 ==> apItem.link == null
    {
      hide World, Slots;
      Start(allNow);
      if allNow < start {
        return 390;
      }
      ghost var w := Abs();
      if apItem.payload.expire < allNow {
        return 397;
      }
      var diff := apItem.payload.expire - start;
      if diff >= |slots| {
        diff := |slots| - 1;
      }
      var j := (idx + diff) % |slots|;
      AppendTo(j, apItem);
      assert Abs() == w.(slots := w.slots[j := w.slots[j] + [apItem]]);
      return 0;
    }

    method AppendTo(j: nat, apItem: Item)
      requires Valid() && j < |slots| && apItem.link == null && apItem in nodes
      modifies slots, nodes`next, apItem`prev, apItem`link
      ensures Valid()
      ensures Slots() == old(Slots())[j := old(Slots())[j] + [apItem]]
      ensures forall l :: l in lists && l !in slots ==> l.items == old(l.items)
    {
      hide World;
      AddTailIn(slots[j], apItem, lists, nodes);
      ghost var now, was := Slots(), old(Slots());
      assert now == was[j := was[j] + [apItem]];
    }

    /** Moves the items of the first `cnt` slots to `apResult`. */
    method MoveFirst(cnt: nat, apResult: ItemLink)
      requires Valid() && idx >= 0 && cnt <= |slots| && apResult in lists && apResult !in slots
      modifies slots, apResult, nodes`prev, nodes`next, nodes`link
      ensures Valid()
      ensures Slots() == WheelModel.Cleared(old(Abs()), cnt)
      ensures apResult.items == old(apResult.items) + WheelModel.Gather(old(Abs()), cnt)
      ensures forall l :: l in lists && l !in slots && l != apResult ==> l.items == old(l.items)
    {
      hide World, Slots, WheelModel.Cleared, WheelModel.Gather;
      ghost var w, result := Abs(), apResult.items;
      WheelModel.NoneCleared(w);
      for i := 0 to cnt
        invariant Valid()
        invariant Slots() == WheelModel.Cleared(w, i)
        invariant apResult.items == result + WheelModel.Gather(w, i)
        invariant forall l :: l in lists && l !in slots && l != apResult ==> l.items == old(l.items)
      {
        WheelModel.ClearedStep(w, i);
        var j := (idx + i) % |slots|;
        ghost var g, was := WheelModel.Gather(w, i), Slots();
        MoveSlot(j, apResult);
        assert result + g + was[j] == result + (g + was[j]);
      }
    }

    method MoveSlot(j: nat, apResult: ItemLink)
      requires Valid() && j < |slots| && apResult in lists && apResult !in slots
      modifies slots, apResult, nodes`prev, nodes`next, nodes`link
      ensures Valid() && Slots() == old(Slots())[j := []]
      ensures apResult.items == old(apResult.items) + old(Slots())[j]
      ensures forall l :: l in lists && l !in slots && l != apResult ==> l.items == old(l.items)
    {
      hide World;
      ghost var was := Slots();
      JoinIn(apResult, slots[j], lists, nodes);
      assert Slots() == was[j := []];
    }

    /** Moves the items of every slot up to `allNow` to `apResult`. */
    method TakeAllTimeout(allNow: nat, apResult: ItemLink)
      requires Valid() && idx >= 0 && apResult in lists && apResult !in slots
      modifies `start, `idx, slots, apResult, nodes`prev, nodes`next, nodes`link
      ensures Valid()
      ensures Abs() == WheelModel.TakeAll(old(Abs()), allNow).0
      ensures apResult.items == old(apResult.items) + WheelModel.TakeAll(old(Abs()), allNow).1
      ensures forall l :: l in lists && l !in slots && l != apResult ==> l.items == old(l.items)
    {
      hide World, WheelModel.Cleared, WheelModel.Gather;
      Start(allNow);
      if allNow < start {
        return;
      }
      var cnt := WheelModel.ToInt32(allNow - start + 1);
      if cnt > |slots| {
        cnt := |slots|;
      }
      if cnt < 0 {
        return;
      }
      MoveFirst(cnt, apResult);
      start := allNow;
      idx := idx + (cnt - 1);
    }
  }
}
