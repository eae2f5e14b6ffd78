/** The timer wheel of libco/co_routine.cpp as a value: `start` is the time of the slot at
    `idx`, and slot `(idx + k) % size` stands for time `start + k`.  Items are named by
    identifiers; their deadlines are kept in stamps (see WheelInv). */
module WheelModel {
  import opened Division
  import opened Seqs

  const INT_MAX := 0x7FFF_FFFF
  const TWO_32 := 0x1_0000_0000

  /** AddTimeout reports the source line it failed at; 0 is success. */
  const ERR_CLOCK_BEFORE_START := 390
  const ERR_ALREADY_EXPIRED := 397

  datatype Wheel<Id> = Wheel(start: nat, idx: int, slots: seq<seq<Id>>)

  /** What is known about an item since it was last put in the wheel: its deadline, the time
      of the slot it went to, and the position of that insertion among all insertions. */
  datatype Stamp = Stamp(expire: nat, due: nat, serial: nat)

  ghost predicate InWheel<Id>(w: Wheel<Id>, id: Id) {
    exists j :: 0 <= j < |w.slots| && id in w.slots[j]
  }

  /** How many slots after the start slot `j` lies. */
  function Offset(idx: int, j: int, size: nat): (o: nat)
    requires size > 0
    ensures o < size
  {
    (j - idx) % size
  }

  /** The slot `k` places after the start. */
  function At<Id>(w: Wheel<Id>, k: nat): seq<Id>
    requires |w.slots| > 0
  {
    w.slots[(w.idx + k) % |w.slots|]
  }

  /** C's narrowing of an unsigned value to `int`. */
  function ToInt32(x: nat): (r: int)
    ensures -INT_MAX - 1 <= r <= INT_MAX
    ensures (x - r) % TWO_32 == 0
    ensures x <= INT_MAX ==> r == x
  {
    var m := x % TWO_32;
    if m <= INT_MAX then m else m - TWO_32
  }

  function Min(a: int, b: int): int { if a <= b then a else b }

  /** A start time of 0 means that the wheel has not been started yet. */
  function Started<Id>(w: Wheel<Id>, now: nat): Wheel<Id> {
    if w.start == 0 then w.(start := now, idx := 0) else w
  }

  /** The slot number, counted from the start, that a deadline goes to. */
  function SlotFor(size: nat, start: nat, expire: nat): (k: nat)
    requires size > 0 && start <= expire
    ensures k < size && start + k <= expire
    ensures start + k == expire <==> expire - start < size
  {
    if expire - start >= size then size - 1 else expire - start
  }

  /** AddTimeout: the new wheel and the error code. */
  function AddTimeout<Id>(w: Wheel<Id>, id: Id, expire: nat, now: nat): (r: (Wheel<Id>, int))
    requires |w.slots| > 0
  {
    var w := Started(w, now);
    if now < w.start then (w, ERR_CLOCK_BEFORE_START)
    else if expire < now then (w, ERR_ALREADY_EXPIRED)
    else
      var j := (w.idx + SlotFor(|w.slots|, w.start, expire)) % |w.slots|;
      (w.(slots := w.slots[j := w.slots[j] + [id]]), 0)
  }

  /** The number of slots a take at `now` visits, as the code computes it; negative for none. */
  function TakeCount(size: nat, start: nat, now: nat): int
    requires start <= now
  {
    Min(ToInt32(now - start + 1), size)
  }

  /** The items of the first `n` slots after the start, in slot order. */
  function Gather<Id>(w: Wheel<Id>, n: nat): (r: seq<Id>)
    requires |w.slots| > 0
  {
    if n == 0 then [] else Gather(w, n - 1) + At(w, n - 1)
  }

  /** The slots once the first `n` after the start have been emptied. */
  function Cleared<Id>(w: Wheel<Id>, n: int): (r: seq<seq<Id>>)
    requires |w.slots| > 0
    ensures |r| == |w.slots|
  {
    seq(|w.slots|, j requires 0 <= j < |w.slots| =>
      if Offset(w.idx, j, |w.slots|) < n then [] else w.slots[j])
  }

  /** TakeAllTimeout: the new wheel and the items taken. */
  function TakeAll<Id>(w: Wheel<Id>, now: nat): (r: (Wheel<Id>, seq<Id>))
    requires |w.slots| > 0
  {
    var w := Started(w, now);
    if now < w.start then (w, [])
    else
      var cnt := TakeCount(|w.slots|, w.start, now);
      if cnt < 0 then (w, [])
      else (Wheel(now, w.idx + cnt - 1, Cleared(w, cnt)), Gather(w, cnt))
  }

  /** Removing an item, wherever in the wheel it is. */
  function Cancel<Id(==)>(w: Wheel<Id>, id: Id): (r: Wheel<Id>)
  {
    w.(slots := seq(|w.slots|, j requires 0 <= j < |w.slots| => Without(w.slots[j], id)))
  }

  function CancelAll<Id(==)>(w: Wheel<Id>, ids: seq<Id>): Wheel<Id>
    decreases ids
  {
    if ids == [] then w else CancelAll(Cancel(w, ids[0]), ids[1..])
  }

  // ---------------------------------------------------------------- the wheel invariant

  /** The items of a slot were inserted in the order they stand in. */
  ghost predicate InOrder<Id>(s: seq<Id>, stamps: map<Id, Stamp>) {
    && (forall i :: 0 <= i < |s| ==> s[i] in stamps)
    && forall i, j :: 0 <= i < j < |s| ==> stamps[s[i]].serial < stamps[s[j]].serial
  }

  /** Every item stands in the slot of its due time, which is its deadline, or earlier when the
      deadline lay beyond the wheel at insertion. */
  ghost predicate WheelInv<Id>(w: Wheel<Id>, stamps: map<Id, Stamp>) {
    && |w.slots| > 0 && w.idx >= 0
    && (forall j :: 0 <= j < |w.slots| ==> InOrder(w.slots[j], stamps))
    && (forall j, id :: 0 <= j < |w.slots| && id in w.slots[j] ==>
          stamps[id].due == w.start + Offset(w.idx, j, |w.slots|) && stamps[id].due <= stamps[id].expire)
  }

  /** Slot numbers and offsets from the start determine each other. */
  lemma OffsetOfSlot(idx: int, k: nat, size: nat)
    requires size > 0 && k < size
    ensures Offset(idx, (idx + k) % size, size) == k
  {
    var q := (idx + k) / size;
    assert (idx + k) % size - idx == -q * size + k;
    Remainder((idx + k) % size - idx, size, -q, k);
  }

  lemma SlotOfOffset(idx: int, j: nat, size: nat)
    requires size > 0 && j < size
    ensures (idx + Offset(idx, j, size)) % size == j
  {
    var q := (j - idx) / size;
    assert idx + Offset(idx, j, size) == -q * size + j;
    Remainder(idx + Offset(idx, j, size), size, -q, j);
  }

  /** Advancing the start by `d` slots brings the slots behind it nearer by `d`. */
  lemma OffsetAfter(idx: int, d: nat, j: nat, size: nat)
    requires size > 0 && j < size && d <= Offset(idx, j, size)
    ensures Offset(idx + d, j, size) == Offset(idx, j, size) - d
  {
    var q := (j - idx) / size;
    assert j - (idx + d) == q * size + (Offset(idx, j, size) - d);
    Remainder(j - (idx + d), size, q, Offset(idx, j, size) - d);
  }

  /** An item is in one slot only. */
  lemma OneSlot<Id>(w: Wheel<Id>, stamps: map<Id, Stamp>, id: Id, i: nat, j: nat)
    requires WheelInv(w, stamps) && i < |w.slots| && j < |w.slots|
    requires id in w.slots[i] && id in w.slots[j]
    ensures i == j
  {
    SlotOfOffset(w.idx, i, |w.slots|);
    SlotOfOffset(w.idx, j, |w.slots|);
  }

  // ---------------------------------------------------------------- adding

  /** AddTimeout fails exactly on a clock behind the start and on a deadline behind the clock. */
  lemma AddFails<Id>(w: Wheel<Id>, id: Id, expire: nat, now: nat)
    requires |w.slots| > 0
    ensures var w0 := Started(w, now);
            AddTimeout(w, id, expire, now).1 == 0 <==> w0.start <= now <= expire
    ensures AddTimeout(w, id, expire, now).1 != 0 ==> AddTimeout(w, id, expire, now).0 == Started(w, now)
  {
  }

  /** The stamp that a successful AddTimeout gives. */
  function NewStamp<Id>(w: Wheel<Id>, expire: nat, serial: nat): (s: Stamp)
    requires |w.slots| > 0 && w.start <= expire
    ensures s.due <= s.expire
    ensures s.due == s.expire <==> expire - w.start < |w.slots|
  {
    Stamp(expire, w.start + SlotFor(|w.slots|, w.start, expire), serial)
  }

  lemma AddKeepsInv<Id>(w: Wheel<Id>, stamps: map<Id, Stamp>, id: Id, expire: nat, now: nat, serial: nat)
    requires WheelInv(w, stamps) && !InWheel(w, id)
    requires 0 < w.start <= now <= expire
    requires forall x :: InWheel(w, x) ==> x in stamps && stamps[x].serial < serial
    ensures var r := AddTimeout(w, id, expire, now).0;
            && WheelInv(r, stamps[id := NewStamp(w, expire, serial)])
            && r.start == w.start && |r.slots| == |w.slots|
            && InWheel(r, id) && forall x :: x != id ==> (InWheel(r, x) <==> InWheel(w, x))
  {
    var size := |w.slots|;
    var k := SlotFor(size, w.start, expire);
    var j := (w.idx + k) % size;
    var r := AddTimeout(w, id, expire, now).0;
    var stamps' := stamps[id := NewStamp(w, expire, serial)];
    OffsetOfSlot(w.idx, k, size);
    assert r.slots[j] == w.slots[j] + [id];
    assert id in r.slots[j];
    forall i | 0 <= i < size ensures InOrder(r.slots[i], stamps') {
      assert id !in w.slots[i];
      assert InOrder(w.slots[i], stamps);
      if i == j {
        forall a | 0 <= a < |w.slots[j]| ensures stamps[w.slots[j][a]].serial < serial {
          assert InWheel(w, w.slots[j][a]);
        }
      }
    }
    forall x | x != id ensures InWheel(r, x) <==> InWheel(w, x) {
      forall i | 0 <= i < size ensures x in r.slots[i] <==> x in w.slots[i] {}
    }
  }

  // ---------------------------------------------------------------- cancelling

  lemma CancelKeepsInv<Id(!new)>(w: Wheel<Id>, stamps: map<Id, Stamp>, id: Id)
    requires WheelInv(w, stamps)
    ensures var r := Cancel(w, id);
            && WheelInv(r, stamps) && !InWheel(r, id)
            && forall x :: x != id ==> (InWheel(r, x) <==> InWheel(w, x))
  {
    var r := Cancel(w, id);
    forall j | 0 <= j < |w.slots| ensures InOrder(r.slots[j], stamps) {
      assert InOrder(w.slots[j], stamps);
      var pos := WithoutPositions(w.slots[j], id);
      forall i | 0 <= i < |r.slots[j]| ensures r.slots[j][i] in stamps {
        assert r.slots[j][i] in w.slots[j];
      }
    }
    forall x | x != id ensures InWheel(r, x) <==> InWheel(w, x) {
      forall j | 0 <= j < |w.slots| ensures x in r.slots[j] <==> x in w.slots[j] {}
    }
  }

  // ---------------------------------------------------------------- taking

  /** The milliseconds since the start fit an `int`, or what is left of them after the narrowing is
      still enough to visit every slot. */
  predicate CountOk(size: nat, start: nat, now: nat) {
    var d := now - start + 1;
    now < start || d <= INT_MAX || size <= d % TWO_32 <= INT_MAX
  }

  /** These are the clock readings for which as many slots are visited as have come due, or all. */
  lemma CountOkIff(size: nat, start: nat, now: nat)
    requires size > 0
    ensures CountOk(size, start, now) <==>
            now < start || TakeCount(size, start, now) == Min(now - start + 1, size)
  {
  }

  /** Items were taken in the order of slot times, and within a slot in the order they came. */
  ghost predicate Chronological<Id>(s: seq<Id>, stamps: map<Id, Stamp>) {
    && (forall i :: 0 <= i < |s| ==> s[i] in stamps)
    && forall i, j :: 0 <= i < j < |s| ==> Earlier(stamps[s[i]], stamps[s[j]])
  }

  predicate Earlier(a: Stamp, b: Stamp) {
    a.due < b.due || (a.due == b.due && a.serial < b.serial)
  }

  lemma {:induction false} GatherHolds<Id>(w: Wheel<Id>, stamps: map<Id, Stamp>, n: nat)
    requires WheelInv(w, stamps) && n <= |w.slots|
    ensures forall id :: id in Gather(w, n) <==> InWheel(w, id) && stamps[id].due < w.start + n
  {
    if n > 0 {
      GatherHolds(w, stamps, n - 1);
      var j := (w.idx + (n - 1)) % |w.slots|;
      OffsetOfSlot(w.idx, n - 1, |w.slots|);
      forall id ensures id in Gather(w, n) <==> InWheel(w, id) && stamps[id].due < w.start + n {
        if InWheel(w, id) && stamps[id].due == w.start + n - 1 {
          var i :| 0 <= i < |w.slots| && id in w.slots[i];
          SlotOfOffset(w.idx, i, |w.slots|);
          assert i == j;
        }
      }
    }
  }

  lemma {:induction false} GatherInOrder<Id>(w: Wheel<Id>, stamps: map<Id, Stamp>, n: nat)
    requires WheelInv(w, stamps) && n <= |w.slots|
    ensures Chronological(Gather(w, n), stamps)
  {
    if n > 0 {
      GatherInOrder(w, stamps, n - 1);
      GatherHolds(w, stamps, n - 1);
      OffsetOfSlot(w.idx, n - 1, |w.slots|);
      var g, s := Gather(w, n - 1), At(w, n - 1);
      assert InOrder(s, stamps);
      forall i, j | 0 <= i < j < |g + s| ensures Earlier(stamps[(g + s)[i]], stamps[(g + s)[j]]) {
        if i < |g| <= j {
          assert g[i] in g && s[j - |g|] in s;
        }
      }
    }
  }

  /** Emptying the slots one by one, as the code does, empties the first `n` of them. */
  lemma ClearedStep<Id>(w: Wheel<Id>, n: nat)
    requires |w.slots| > n
    ensures var j := (w.idx + n) % |w.slots|;
            && Cleared(w, n + 1) == Cleared(w, n)[j := []]
            && Gather(w, n + 1) == Gather(w, n) + Cleared(w, n)[j]
  {
    var size := |w.slots|;
    var j := (w.idx + n) % size;
    OffsetOfSlot(w.idx, n, size);
    var a, b := Cleared(w, n + 1), Cleared(w, n)[j := []];
    forall i | 0 <= i < size ensures a[i] == b[i] {
      if Offset(w.idx, i, size) == n { SlotOfOffset(w.idx, i, size); }
    }
  }

  lemma NoneCleared<Id>(w: Wheel<Id>)
    requires |w.slots| > 0
    ensures Cleared(w, 0) == w.slots && Gather(w, 0) == []
  {
  }

  /** The wheel after the first `cnt` slots have been emptied and the start has been moved on. */
  function Advanced<Id>(w: Wheel<Id>, now: nat, cnt: nat): Wheel<Id>
    requires |w.slots| > 0
  {
    Wheel(now, w.idx + cnt - 1, Cleared(w, cnt))
  }

  /** A slot that is left lies as far behind the new start as its items are due after it. */
  lemma SlotAfter<Id>(w: Wheel<Id>, stamps: map<Id, Stamp>, now: nat, cnt: nat, j: nat)
    requires WheelInv(w, stamps) && w.start <= now && cnt == Min(now - w.start + 1, |w.slots|) && j < |w.slots|
    ensures var r := Advanced(w, now, cnt);
            && r.slots[j] == (if Offset(w.idx, j, |w.slots|) < cnt then [] else w.slots[j])
            && InOrder(r.slots[j], stamps)
            && forall id :: id in r.slots[j] ==>
                 stamps[id].due == now + Offset(r.idx, j, |w.slots|) && now < stamps[id].due <= stamps[id].expire
  {
    hide Offset;
    assert InOrder(w.slots[j], stamps);
    if cnt <= Offset(w.idx, j, |w.slots|) {
      OffsetAfter(w.idx, cnt - 1, j, |w.slots|);
    }
  }

  lemma AdvanceKeepsInv<Id>(w: Wheel<Id>, stamps: map<Id, Stamp>, now: nat, cnt: nat)
    requires WheelInv(w, stamps) && w.start <= now && cnt == Min(now - w.start + 1, |w.slots|)
    ensures WheelInv(Advanced(w, now, cnt), stamps)
  {
    hide Cleared, Offset;
    var r := Advanced(w, now, cnt);
    forall j | 0 <= j < |w.slots|
      ensures InOrder(r.slots[j], stamps)
      ensures forall id :: id in r.slots[j] ==>
                stamps[id].due == now + Offset(r.idx, j, |w.slots|) && stamps[id].due <= stamps[id].expire
    {
      SlotAfter(w, stamps, now, cnt, j);
    }
  }

  lemma AdvanceLeaves<Id>(w: Wheel<Id>, stamps: map<Id, Stamp>, now: nat, cnt: nat, id: Id)
    requires WheelInv(w, stamps) && w.start <= now && cnt == Min(now - w.start + 1, |w.slots|)
    ensures InWheel(w, id) ==> id in stamps
    ensures InWheel(Advanced(w, now, cnt), id) <==> InWheel(w, id) && stamps[id].due > now
  {
    hide Cleared, Offset;
    var r := Advanced(w, now, cnt);
    if InWheel(r, id) {
      var j :| 0 <= j < |w.slots| && id in r.slots[j];
      SlotAfter(w, stamps, now, cnt, j);
    }
    if InWheel(w, id) && stamps[id].due > now {
      var j :| 0 <= j < |w.slots| && id in w.slots[j];
      SlotAfter(w, stamps, now, cnt, j);
      assert id in r.slots[j];
    }
  }

  /** A take moves out exactly the items whose slot time has come, in chronological order, and
      what stays is due later.  In particular no item past its deadline stays behind. */
  lemma TakeIsExact<Id(!new)>(w: Wheel<Id>, stamps: map<Id, Stamp>, now: nat)
    requires WheelInv(w, stamps) && w.start > 0 && CountOk(|w.slots|, w.start, now)
    ensures var (r, taken) := TakeAll(w, now);
            && WheelInv(r, stamps) && |r.slots| == |w.slots|
            && r.start == (if now < w.start then w.start else now)
            && (now < w.start ==> taken == [])
            && Chronological(taken, stamps)
            && (forall id :: id in taken <==> InWheel(w, id) && stamps[id].due <= now)
            && (forall id :: InWheel(r, id) <==> InWheel(w, id) && stamps[id].due > now)
            && (forall id :: InWheel(r, id) ==> stamps[id].expire > now)
  {
    if now >= w.start {
      hide CountOk, TakeCount, Cleared, Gather, Offset, InOrder, Chronological;
      CountOkIff(|w.slots|, w.start, now);
      var cnt := TakeCount(|w.slots|, w.start, now);
      GatherInOrder(w, stamps, cnt);
      GatherHolds(w, stamps, cnt);
      AdvanceKeepsInv(w, stamps, now, cnt);
      forall id ensures InWheel(Advanced(w, now, cnt), id) <==> InWheel(w, id) && stamps[id].due > now {
        AdvanceLeaves(w, stamps, now, cnt, id);
      }
    }
  }

  /** After a take at `now`, no item past its deadline is left in the wheel. */
  ghost predicate TakesAllOverdue<Id(!new)>(w: Wheel<Id>, stamps: map<Id, Stamp>, now: nat)
    requires |w.slots| > 0
  {
    WheelInv(w, stamps) ==>
      forall id :: InWheel(TakeAll(w, now).0, id) ==> now < stamps[id].expire
  }

  /** No item past its deadline stays behind, whatever the wheel holds, exactly for the clock
      readings of CountOk. */
  lemma TakeIsCompleteIff(size: nat, start: nat, now: nat)
    requires size > 0 && start > 0
    ensures CountOk(size, start, now) <==>
            forall w: Wheel<nat>, stamps: map<nat, Stamp> ::
              w.start == start && |w.slots| == size ==> TakesAllOverdue(w, stamps, now)
  {
    if CountOk(size, start, now) {
      forall w: Wheel<nat>, stamps: map<nat, Stamp> | w.start == start && |w.slots| == size
        ensures TakesAllOverdue(w, stamps, now)
      {
        if WheelInv(w, stamps) { TakeIsExact(w, stamps, now); }
      }
    } else {
      var w, stamps := LeftBehind(size, start, now);
      assert !TakesAllOverdue(w, stamps, now);
    }
  }

  /** A wheel holding item 7 alone, `k` slots after the start. */
  function Lone(size: nat, start: nat, k: nat): (w: Wheel<nat>)
    ensures |w.slots| == size && w.start == start && w.idx == 0
    ensures forall j :: 0 <= j < size ==> w.slots[j] == if j == k then [7] else []
  {
    Wheel(start, 0, seq(size, j => if j == k then [7] else []))
  }

  lemma LoneInv(size: nat, start: nat, k: nat, expire: nat)
    requires k < size && start + k <= expire
    ensures WheelInv(Lone(size, start, k), map[7 := Stamp(expire, start + k, 0)])
  {
    Remainder(k, size, 0, k);
  }

  /** The wheel on which a wrong count loses an overdue item: one item in the last slot due. */
  lemma LeftBehind(size: nat, start: nat, now: nat) returns (w: Wheel<nat>, stamps: map<nat, Stamp>)
    requires size > 0 && start > 0 && !CountOk(size, start, now)
    ensures w.start == start && |w.slots| == size && WheelInv(w, stamps)
    ensures InWheel(TakeAll(w, now).0, 7) && stamps[7].expire <= now
  {
    var k := Min(now - start + 1, size) - 1;
    w := Lone(size, start, k);
    stamps := map[7 := Stamp(start + k, start + k, 0)];
    LoneInv(size, start, k, start + k);
    Remainder(k, size, 0, k);
    assert 7 in TakeAll(w, now).0.slots[k];
  }

  /** An example: after a pause of 2^31 ms the count is negative and nothing is taken. */
  lemma LongPauseTakesNothing(w: Wheel<nat>, now: nat)
    requires |w.slots| > 0 && w.start > 0 && now == w.start + INT_MAX
    ensures TakeAll(w, now) == (w, [])
  {
  }

  ghost predicate RestartsSafely<Id(!new)>(w: Wheel<Id>, stamps: map<Id, Stamp>, now: nat) {
    WheelInv(w, stamps) ==> WheelInv(Started(w, now), stamps)
  }

  /** Restarting a wheel whose start is 0 keeps the invariant of every wheel only when the clock
      still reads 0: otherwise items already waiting are moved later. */
  lemma RestartIsSafeIff(size: nat, now: nat)
    requires size > 0
    ensures now == 0 <==>
            forall w: Wheel<nat>, stamps: map<nat, Stamp> ::
              w.start == w.idx == 0 && |w.slots| == size ==> RestartsSafely(w, stamps, now)
  {
    if now != 0 {
      var w, stamps: map<nat, Stamp> := Lone(size, 0, 0), map[7 := Stamp(0, 0, 0)];
      LoneInv(size, 0, 0, 0);
      assert 7 in w.slots[0];
      assert !RestartsSafely(w, stamps, now);
    }
  }
}
