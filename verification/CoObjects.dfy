/** Coroutines, stack memories and the thread environment of libco/co_routine.cpp as objects that
    are updated in place.  A switch of contexts is a step from the first to the second half of
    CoSwap. */
module CoObjects {
  import opened Wrappers
  import opened CoSwitch
  import opened CoRuns

  class StackMemory {
    const buffer: array<Byte>
    var occupyCo: CoRoutine?

    constructor (size: nat)
      ensures occupyCo == null && buffer.Length == size && fresh(buffer)
    {
      buffer := new Byte[size];
      occupyCo := null;
    }
  }

  class CoRoutine {
    const isShareStack: bool
    const stackMem: StackMemory
    var started: bool
    var ended: bool
    var stackSp: nat
    var saveBuffer: array?<Byte>

    constructor (isShareStack: bool, stackMem: StackMemory)
      ensures this.isShareStack == isShareStack && this.stackMem == stackMem
      ensures !started && !ended && stackSp == 0 && saveBuffer == null
    {
      this.isShareStack, this.stackMem := isShareStack, stackMem;
      started, ended, stackSp, saveBuffer := false, false, 0, null;
    }

    /** The saved contents; none if there is no save buffer. */
    ghost function Saved(): Option<seq<Byte>>
      reads this, saveBuffer
    {
      if saveBuffer == null then None else Some(saveBuffer[..])
    }

    /** What a switch to this coroutine may change besides the coroutine itself: its stack memory
        if that is shared, and the save buffer of the coroutine it displaces there. */
    ghost function SharedMem(): set<StackMemory> {
      if isShareStack then {stackMem} else {}
    }

    ghost function SharedBuffer(): set<array<Byte>> {
      if isShareStack then {stackMem.buffer} else {}
    }

    ghost function Displaced(): set<CoRoutine>
      reads stackMem
    {
      if isShareStack && stackMem.occupyCo != null then {stackMem.occupyCo} else {}
    }

    /** save_stack_buffer: a new buffer with the contents from the stack mark on. */
    method SaveStackBuffer()
      requires stackSp <= stackMem.buffer.Length
      modifies `saveBuffer
      ensures saveBuffer != null && fresh(saveBuffer)
      ensures Saved() == Some(stackMem.buffer[stackSp..])
    {
      var mem := stackMem.buffer;
      var len := mem.Length - stackSp;
      var save := new Byte[len];
      for i := 0 to len
        invariant save[..i] == mem[stackSp..stackSp + i]
      {
        save[i] := mem[stackSp + i];
      }
      assert save[..] == save[..len] && mem[stackSp..] == mem[stackSp..stackSp + len];
      saveBuffer := save;
    }
  }

  /** memcpy of `save` to `mem` at `sp`. */
  method CopyBack(mem: array<Byte>, sp: nat, save: array<Byte>)
    requires mem != save && sp + save.Length <= mem.Length
    modifies mem
    ensures mem[..] == Overlay(old(mem[..]), sp, save[..])
  {
    ghost var was := mem[..];
    for i := 0 to save.Length
      invariant mem[..sp] == was[..sp] && mem[sp..sp + i] == save[..i] && mem[sp + i..] == was[sp + i..]
    {
      mem[sp + i] := save[i];
    }
    assert mem[..] == mem[..sp] + mem[sp..sp + save.Length] + mem[sp + save.Length..];
    assert save[..] == save[..save.Length];
  }

  // ---------------------------------------------------------------- objects and their names

  /** Which object plays which part in a state of the machine; `memOf` is the shared memory of a
      coroutine. */
  datatype Cast = Cast(cos: map<Co, CoRoutine>, mems: map<Mem, StackMemory>, memOf: map<Co, Option<Mem>>)

  ghost predicate CastOk(w: Cast) {
    && w.memOf.Keys == w.cos.Keys
    && (forall c, d :: c in w.cos && d in w.cos && w.cos[c] == w.cos[d] ==> c == d)
    && (forall m, n :: m in w.mems && n in w.mems && w.mems[m].buffer == w.mems[n].buffer ==> m == n)
    && (forall c {:trigger MemOfOk(w, c)} :: c in w.cos ==> MemOfOk(w, c))
  }

  /** A coroutine that shares its stack uses a memory of the cast, another one does not. */
  ghost predicate MemOfOk(w: Cast, c: Co)
    requires c in w.cos && c in w.memOf
  {
    match w.memOf[c]
    case Some(m) => w.cos[c].isShareStack && m in w.mems && w.mems[m] == w.cos[c].stackMem
    case None => !w.cos[c].isShareStack && forall m :: m in w.mems ==> w.cos[c].stackMem.buffer != w.mems[m].buffer
  }

  ghost predicate CoIs(o: CoRoutine, mem: Option<Mem>, c: Coroutine)
    reads o, o.saveBuffer
  {
    c == Coroutine(o.started, o.ended, mem, o.stackSp, o.Saved())
  }

  ghost predicate MemIs(w: Cast, o: StackMemory, m: StackMem)
    reads o, o.buffer
  {
    && m.bytes == o.buffer[..]
    && (o.occupyCo == null ==> m.occupant == None)
    && (o.occupyCo != null ==> m.occupant.Some? && m.occupant.value in w.cos && w.cos[m.occupant.value] == o.occupyCo)
  }

  ghost function CoSet(w: Cast): (r: set<CoRoutine>)
    ensures forall c :: c in w.cos ==> w.cos[c] in r
  {
    set c | c in w.cos :: w.cos[c]
  }

  ghost function MemSet(w: Cast): (r: set<StackMemory>)
    ensures forall m :: m in w.mems ==> w.mems[m] in r
  {
    set m | m in w.mems :: w.mems[m]
  }

  ghost function Buffers(w: Cast): (r: set<array<Byte>>)
    ensures forall m :: m in w.mems ==> w.mems[m].buffer in r
  {
    set m | m in w.mems :: w.mems[m].buffer
  }

  ghost function Saves(w: Cast): (r: set<array<Byte>>)
    reads CoSet(w)
    ensures forall c :: c in w.cos && w.cos[c].saveBuffer != null ==> w.cos[c].saveBuffer in r
  {
    set c | c in w.cos && w.cos[c].saveBuffer != null :: w.cos[c].saveBuffer
  }

  ghost predicate CosAre(w: Cast, cos: map<Co, Coroutine>)
    reads CoSet(w), Saves(w)
  {
    cos.Keys == w.cos.Keys == w.memOf.Keys
    && forall c {:trigger cos[c]} :: c in w.cos ==> CoIs(w.cos[c], w.memOf[c], cos[c])
  }

  ghost predicate MemsAre(w: Cast, mems: map<Mem, StackMem>)
    reads MemSet(w), Buffers(w)
  {
    mems.Keys == w.mems.Keys && forall m {:trigger mems[m]} :: m in w.mems ==> MemIs(w, w.mems[m], mems[m])
  }

  /** No save buffer is a stack memory. */
  ghost predicate Apart(w: Cast)
    reads CoSet(w)
  {
    forall c {:trigger w.cos[c].saveBuffer} :: c in w.cos && w.cos[c].saveBuffer != null ==>
      w.cos[c].saveBuffer !in Buffers(w)
  }

  /** The objects are as the state of the machine says. */
  ghost predicate Describes(w: Cast, t: Thread)
    reads CoSet(w), Saves(w), MemSet(w), Buffers(w)
  {
    CastOk(w) && CosAre(w, t.cos) && MemsAre(w, t.mems) && Apart(w)
  }

  /** Coroutines, memories and buffers are different kinds of objects. */
  lemma NoMemory(w: Cast, c: CoRoutine)
    ensures forall o: object :: o in MemSet(w) ==> o != c
    ensures forall o: object :: o in Buffers(w) ==> o != c
  {
  }

  lemma NoCoroutine(w: Cast, m: StackMemory)
    ensures forall o: object :: o in CoSet(w) ==> o != m
    ensures forall o: object :: o in Saves(w) ==> o != m
  {
  }

  lemma NoEnvironment(w: Cast, e: Environment)
    ensures forall o: object :: o in CoSet(w) ==> o != e
    ensures forall o: object :: o in Saves(w) ==> o != e
    ensures forall o: object :: o in MemSet(w) ==> o != e
    ensures forall o: object :: o in Buffers(w) ==> o != e
  {
  }

  lemma NoSave(w: Cast, b: array<Byte>)
    requires Apart(w) && b in Buffers(w)
    ensures forall o: object :: o in CoSet(w) ==> o != b && allocated(o)
    ensures forall o: object :: o in Saves(w) ==> o != b && allocated(o)
  {
  }

  lemma OtherCos(w: Cast, c: Co)
    requires CastOk(w) && c in w.cos
    ensures forall x :: x in w.cos && x != c ==> w.cos[x] != w.cos[c]
  {
  }

  lemma OtherMems(w: Cast, m: Mem)
    requires CastOk(w) && m in w.mems
    ensures forall k :: k in w.mems && k != m ==> w.mems[k] != w.mems[m] && w.mems[k].buffer != w.mems[m].buffer
  {
  }

  lemma DescribedCo(w: Cast, t: Thread, c: Co)
    requires Describes(w, t) && c in w.cos
    ensures c in t.cos && c in w.memOf && CoIs(w.cos[c], w.memOf[c], t.cos[c]) && MemOfOk(w, c)
  {
    assert c in t.cos;
  }

  /** The stack is not part of the description. */
  lemma Restack(w: Cast, t: Thread, u: Thread)
    requires Describes(w, t) && u.cos == t.cos && u.mems == t.mems
    ensures Describes(w, u)
  {
  }

  lemma OneName(w: Cast, t: Thread, x: Co, c: Co)
    requires Describes(w, t) && x in w.cos && c in w.cos
    ensures w.cos[x] == w.cos[c] <==> x == c
  {
  }

  lemma DescribedMem(w: Cast, t: Thread, m: Mem)
    requires Describes(w, t) && m in w.mems
    ensures m in t.mems && MemIs(w, w.mems[m], t.mems[m])
  {
    assert m in t.mems;
  }

  // ---------------------------------------------------------------- the parts of a switch

  /** `curr` records where its stack ends. */
  method Mark(curr: CoRoutine, sp: nat, ghost w: Cast, ghost t: Thread, ghost c: Co)
    requires Describes(w, t) && c in w.cos && w.cos[c] == curr && SpOk(t, c, sp)
    modifies curr`stackSp
    ensures Describes(w, MarkStack(t, c, sp))
  {
    hide MemsAre, CastOk, CoSet, MemSet, Buffers, Saves;
    NoMemory(w, curr);
    OtherCos(w, c);
    ghost var r := MarkStack(t, c, sp);
    curr.stackSp := sp;
    forall x | x in w.cos ensures CoIs(w.cos[x], w.memOf[x], r.cos[x]) {
      assert old(CoIs(w.cos[x], w.memOf[x], t.cos[x]));
    }
  }

  method SetStarted(co: CoRoutine, started: bool, ghost w: Cast, ghost t: Thread, ghost c: Co)
    requires Describes(w, t) && c in w.cos && c in t.cos && w.cos[c] == co
    modifies co`started
    ensures Describes(w, t.(cos := t.cos[c := t.cos[c].(started := started)])) && co.started == started
  {
    hide MemsAre, CastOk, CoSet, MemSet, Buffers, Saves;
    NoMemory(w, co);
    OtherCos(w, c);
    ghost var cos := t.cos[c := t.cos[c].(started := started)];
    co.started := started;
    forall x | x in w.cos ensures CoIs(w.cos[x], w.memOf[x], cos[x]) {
      assert old(CoIs(w.cos[x], w.memOf[x], t.cos[x]));
    }
    assert CosAre(w, cos) && Apart(w);
  }

  method SetEnded(co: CoRoutine, ended: bool, ghost w: Cast, ghost t: Thread, ghost c: Co)
    requires Describes(w, t) && c in w.cos && c in t.cos && w.cos[c] == co
    modifies co`ended
    ensures Describes(w, t.(cos := t.cos[c := t.cos[c].(ended := ended)])) && co.ended == ended
  {
    hide MemsAre, CastOk, CoSet, MemSet, Buffers, Saves;
    NoMemory(w, co);
    OtherCos(w, c);
    ghost var cos := t.cos[c := t.cos[c].(ended := ended)];
    co.ended := ended;
    forall x | x in w.cos ensures CoIs(w.cos[x], w.memOf[x], cos[x]) {
      assert old(CoIs(w.cos[x], w.memOf[x], t.cos[x]));
    }
    assert CosAre(w, cos) && Apart(w);
  }

  /** Changes the flags of a coroutine. */
  method SetFlags(co: CoRoutine, started: bool, ended: bool, ghost w: Cast, ghost t: Thread, ghost c: Co)
    requires Describes(w, t) && c in w.cos && c in t.cos && w.cos[c] == co
    modifies co`started, co`ended
    ensures Describes(w, t.(cos := t.cos[c := t.cos[c].(started := started, ended := ended)]))
    ensures co.started == started && co.ended == ended
  {
    hide Describes, CoSet, MemSet, Buffers, Saves;
    ghost var u := t.(cos := t.cos[c := t.cos[c].(started := started)]);
    SetStarted(co, started, w, t, c);
    SetEnded(co, ended, w, u, c);
    assert u.cos[c := u.cos[c].(ended := ended)] == t.cos[c := t.cos[c].(started := started, ended := ended)];
  }

  /** `pending` becomes the occupant of its stack memory. */
  method TakeOver(pending: CoRoutine, ghost w: Cast, ghost t: Thread, ghost n: Co, ghost m: Mem)
    requires Describes(w, t) && n in w.cos && w.cos[n] == pending && m in t.mems && w.memOf[n] == Some(m)
    modifies pending.stackMem`occupyCo
    ensures Describes(w, t.(mems := t.mems[m := t.mems[m].(occupant := Some(n))]))
  {
    hide CosAre, Apart, CastOk, CoSet, MemSet, Buffers, Saves;
    DescribedCo(w, t, n);
    NoCoroutine(w, pending.stackMem);
    OtherMems(w, m);
    pending.stackMem.occupyCo := pending;
    ghost var r := t.(mems := t.mems[m := t.mems[m].(occupant := Some(n))]);
    forall k | k in w.mems ensures MemIs(w, w.mems[k], r.mems[k]) {
      assert old(MemIs(w, w.mems[k], t.mems[k]));
    }
  }

  method SaveOccupant(occupant: CoRoutine, ghost w: Cast, ghost t: Thread, ghost o: Co)
    requires Describes(w, t) && o in w.cos && w.cos[o] == occupant && Shares(t, o)
    requires t.cos[o].sp <= |MemOf(t, o).bytes|
    modifies occupant`saveBuffer
    ensures Describes(w, SaveStackBuffer(t, o))
  {
    hide MemsAre, CastOk, CoSet, Saves;
    DescribedCo(w, t, o);
    DescribedMem(w, t, t.cos[o].mem.value);
    NoMemory(w, occupant);
    OtherCos(w, o);
    occupant.SaveStackBuffer();
    assert occupant.saveBuffer !in Buffers(w);
    ghost var r := SaveStackBuffer(t, o);
    forall x | x in w.cos ensures CoIs(w.cos[x], w.memOf[x], r.cos[x]) {
      assert old(CoIs(w.cos[x], w.memOf[x], t.cos[x]));
    }
  }

  /** `p` gets back what was saved. */
  method CopyIn(p: CoRoutine, ghost w: Cast, ghost t: Thread, ghost n: Co)
    requires Describes(w, t) && n in w.cos && w.cos[n] == p && Shares(t, n)
    requires t.cos[n].save.Some? && t.cos[n].sp + |t.cos[n].save.value| <= |MemOf(t, n).bytes|
    modifies p.stackMem.buffer
    ensures var c, m := t.cos[n], MemOf(t, n);
            Describes(w, t.(mems := t.mems[c.mem.value := m.(bytes := Overlay(m.bytes, c.sp, c.save.value))]))
  {
    hide CosAre, CastOk, CoSet, MemSet, Saves, Overlay;
    ghost var m := t.cos[n].mem.value;
    DescribedCo(w, t, n);
    DescribedMem(w, t, m);
    OtherMems(w, m);
    NoSave(w, p.stackMem.buffer);
    assert p.saveBuffer != p.stackMem.buffer;
    CopyBack(p.stackMem.buffer, p.stackSp, p.saveBuffer);
    ghost var r := t.mems[m := t.mems[m].(bytes := Overlay(t.mems[m].bytes, t.cos[n].sp, t.cos[n].save.value))];
    forall k | k in w.mems ensures MemIs(w, w.mems[k], r[k]) {
      assert old(MemIs(w, w.mems[k], t.mems[k]));
    }
  }

  // ---------------------------------------------------------------- creating, freeing, resetting

  /** A coroutine that is the occupant of its stack memory gives it up. */
  method GiveUp(co: CoRoutine, ghost w: Cast, ghost t: Thread, ghost c: Co)
    requires Describes(w, t) && c in w.cos && w.cos[c] == co
    modifies co.stackMem`occupyCo
    ensures Describes(w, Vacate(t, c))
  {
    hide CosAre, Apart, CastOk, CoSet, MemSet, Buffers, Saves;
    DescribedCo(w, t, c);
    NoCoroutine(w, co.stackMem);
    ghost var shared := w.memOf[c];
    if shared.Some? {
      OtherMems(w, shared.value);
      DescribedMem(w, t, shared.value);
      if co.stackMem.occupyCo != null { OneName(w, t, t.mems[shared.value].occupant.value, c); }
    }
    if co.stackMem.occupyCo == co {
      co.stackMem.occupyCo := null;
    }
    ghost var r := Vacate(t, c);
    forall k | k in w.mems ensures MemIs(w, w.mems[k], r.mems[k]) {
      assert old(MemIs(w, w.mems[k], t.mems[k]));
      if shared.None? { assert w.mems[k] != co.stackMem; }
    }
  }

  method DropSave(co: CoRoutine, ghost w: Cast, ghost t: Thread, ghost c: Co)
    requires Describes(w, t) && c in w.cos && c in t.cos && w.cos[c] == co
    modifies co`saveBuffer
    ensures Describes(w, t.(cos := t.cos[c := t.cos[c].(save := None)]))
  {
    hide MemsAre, CastOk, CoSet, MemSet, Buffers, Saves;
    NoMemory(w, co);
    OtherCos(w, c);
    ghost var cos := t.cos[c := t.cos[c].(save := None)];
    co.saveBuffer := null;
    forall x | x in w.cos ensures CoIs(w.cos[x], w.memOf[x], cos[x]) {
      assert old(CoIs(w.cos[x], w.memOf[x], t.cos[x]));
    }
    assert CosAre(w, cos) && Apart(w);
  }

  /** co_reset, for a coroutine other than the main one. */
  method CoReset(co: CoRoutine, ghost w: Cast, ghost t: Thread, ghost c: Co)
    requires Describes(w, t) && c in w.cos && c in t.cos && w.cos[c] == co
    modifies co`started, co`ended, co`saveBuffer, co.stackMem`occupyCo
    ensures Describes(w, DoReset(t, c))
  {
    hide CosAre, MemsAre, Apart, CastOk, CoSet, MemSet, Buffers, Saves, Describes;
    DescribedCo(w, t, c);
    if !co.started {
      return;
    }
    SetFlags(co, false, false, w, t, c);
    ghost var u := t.(cos := t.cos[c := t.cos[c].(started := false, ended := false)]);
    ghost var v := u.(cos := u.cos[c := u.cos[c].(save := None)]);
    if co.saveBuffer != null {
      DropSave(co, w, u, c);
    } else {
      assert v.cos == u.cos;
      Restack(w, u, v);
    }
    GiveUp(co, w, v, c);
    Restack(w, Vacate(v, c), DoReset(t, c));
  }

  /** co_free: the coroutine leaves the cast. */
  method CoFree(co: CoRoutine, ghost w: Cast, ghost t: Thread, ghost c: Co) returns (ghost w': Cast)
    requires Describes(w, t) && c in w.cos && w.cos[c] == co && Inv(t)
    modifies co.SharedMem()`occupyCo
    ensures w' == w.(cos := w.cos - {c}, memOf := w.memOf - {c}) && Describes(w', DoFree(t, c))
  {
    hide CosAre, MemsAre, Apart, CastOk, CoSet, MemSet, Buffers, Saves, Describes;
    DescribedCo(w, t, c);
    if co.isShareStack {
      GiveUp(co, w, t, c);
    } else {
      Restack(w, t, Vacate(t, c));
    }
    w' := w.(cos := w.cos - {c}, memOf := w.memOf - {c});
    Unoccupied(t, c);
    CastShrinks(w, Vacate(t, c), c);
    Restack(w', Vacate(t, c).(cos := Vacate(t, c).cos - {c}), DoFree(t, c));
  }

  lemma Unoccupied(t: Thread, c: Co)
    requires Inv(t) && c in t.cos
    ensures forall m :: m in t.mems ==> Vacate(t, c).mems[m].occupant != Some(c)
  {
    forall m | m in t.mems ensures Vacate(t, c).mems[m].occupant != Some(c) { assert MemOk(t, m); }
  }

  lemma CastShrinks(w: Cast, t: Thread, c: Co)
    requires Describes(w, t) && c in w.cos && forall m :: m in t.mems ==> t.mems[m].occupant != Some(c)
    ensures Describes(w.(cos := w.cos - {c}, memOf := w.memOf - {c}), t.(cos := t.cos - {c}))
  {
    var v, r := w.(cos := w.cos - {c}, memOf := w.memOf - {c}), t.cos - {c};
    forall x | x in v.cos ensures MemOfOk(v, x) { assert MemOfOk(w, x); }
    forall x | x in v.cos ensures CoIs(v.cos[x], v.memOf[x], r[x]) { assert CoIs(w.cos[x], w.memOf[x], t.cos[x]); }
    forall m | m in v.mems ensures MemIs(v, v.mems[m], t.mems[m]) { assert MemIs(w, w.mems[m], t.mems[m]); }
    assert Buffers(v) == Buffers(w);
  }

  /** co_create_env: a new coroutine joins the cast, with a shared stack memory or one of its own. */
  method CoCreate(isShareStack: bool, stackMem: StackMemory,
                  ghost w: Cast, ghost t: Thread, ghost c: Co, ghost mem: Option<Mem>)
    returns (co: CoRoutine, ghost w': Cast)
    requires Describes(w, t) && c !in w.cos && (mem.Some? <==> isShareStack)
    requires mem.Some? ==> mem.value in w.mems && w.mems[mem.value] == stackMem
    requires mem.None? ==> stackMem.buffer !in Buffers(w)
    ensures fresh(co) && co.stackMem == stackMem && w' == w.(cos := w.cos[c := co], memOf := w.memOf[c := mem])
    ensures Describes(w', t.(cos := t.cos[c := Coroutine(false, false, mem, 0, None)]))
  {
    hide CosAre, MemsAre, Apart, CastOk, CoSet, MemSet, Buffers, Saves, Describes;
    AllAllocated(w);
    co := new CoRoutine(isShareStack, stackMem);
    w' := w.(cos := w.cos[c := co], memOf := w.memOf[c := mem]);
    Joined(w, t, co, c, mem);
  }

  lemma AllAllocated(w: Cast)
    ensures forall o: object :: o in CoSet(w) ==> allocated(o)
    ensures forall o: object :: o in Saves(w) ==> allocated(o)
    ensures forall o: object :: o in MemSet(w) ==> allocated(o)
    ensures forall o: object :: o in Buffers(w) ==> allocated(o)
  {
  }

  lemma Joined(w: Cast, t: Thread, co: CoRoutine, c: Co, mem: Option<Mem>)
    requires Describes(w, t) && c !in w.cos && (forall x :: x in w.cos ==> w.cos[x] != co)
    requires !co.started && !co.ended && co.stackSp == 0 && co.saveBuffer == null
    requires mem.Some? ==> co.isShareStack && mem.value in w.mems && w.mems[mem.value] == co.stackMem
    requires mem.None? ==> !co.isShareStack && co.stackMem.buffer !in Buffers(w)
    ensures Describes(w.(cos := w.cos[c := co], memOf := w.memOf[c := mem]),
                      t.(cos := t.cos[c := Coroutine(false, false, mem, 0, None)]))
  {
    hide CastOk, CosAre, MemsAre, Apart;
    CastGrows(w, co, c, mem);
    CosGrow(w, t.cos, co, c, mem);
    MemsGrow(w, w.(cos := w.cos[c := co], memOf := w.memOf[c := mem]), t.mems);
  }

  lemma CosGrow(w: Cast, cos: map<Co, Coroutine>, co: CoRoutine, c: Co, mem: Option<Mem>)
    requires CosAre(w, cos) && Apart(w) && c !in w.cos
    requires !co.started && !co.ended && co.stackSp == 0 && co.saveBuffer == null
    ensures var v := w.(cos := w.cos[c := co], memOf := w.memOf[c := mem]);
            CosAre(v, cos[c := Coroutine(false, false, mem, 0, None)]) && Apart(v)
  {
    hide Saves, CoSet;
    var v, r := w.(cos := w.cos[c := co], memOf := w.memOf[c := mem]), cos[c := Coroutine(false, false, mem, 0, None)];
    forall x | x in v.cos ensures CoIs(v.cos[x], v.memOf[x], r[x]) {
      if x != c { assert CoIs(w.cos[x], w.memOf[x], cos[x]); }
    }
    assert Buffers(v) == Buffers(w);
  }

  lemma CastGrows(w: Cast, co: CoRoutine, c: Co, mem: Option<Mem>)
    requires CastOk(w) && c !in w.cos && (forall x :: x in w.cos ==> w.cos[x] != co)
    requires mem.Some? ==> co.isShareStack && mem.value in w.mems && w.mems[mem.value] == co.stackMem
    requires mem.None? ==> !co.isShareStack && co.stackMem.buffer !in Buffers(w)
    ensures CastOk(w.(cos := w.cos[c := co], memOf := w.memOf[c := mem]))
  {
    var v := w.(cos := w.cos[c := co], memOf := w.memOf[c := mem]);
    forall x | x in v.cos ensures MemOfOk(v, x) { if x != c { assert MemOfOk(w, x); } }
  }

  lemma MemsGrow(w: Cast, v: Cast, mems: map<Mem, StackMem>)
    requires MemsAre(w, mems) && v.mems == w.mems && forall x :: x in w.cos ==> x in v.cos && v.cos[x] == w.cos[x]
    ensures MemsAre(v, mems)
  {
    forall m | m in v.mems ensures MemIs(v, v.mems[m], mems[m]) { assert MemIs(w, w.mems[m], mems[m]); }
  }

  /** The running coroutine writes to its stack. */
  method StackWrite(co: CoRoutine, i: nat, b: Byte, ghost w: Cast, ghost t: Thread, ghost c: Co)
    requires Describes(w, t) && c in w.cos && w.cos[c] == co && Shares(t, c) && i < co.stackMem.buffer.Length
    modifies co.stackMem.buffer
    ensures i < |MemOf(t, c).bytes|
    ensures Describes(w, t.(mems := t.mems[t.cos[c].mem.value := MemOf(t, c).(bytes := MemOf(t, c).bytes[i := b])]))
  {
    hide CosAre, CastOk, CoSet, MemSet, Saves;
    ghost var m := t.cos[c].mem.value;
    DescribedCo(w, t, c);
    DescribedMem(w, t, m);
    OtherMems(w, m);
    NoSave(w, co.stackMem.buffer);
    co.stackMem.buffer[i] := b;
    ghost var r := t.mems[m := t.mems[m].(bytes := t.mems[m].bytes[i := b])];
    forall k | k in w.mems ensures MemIs(w, w.mems[k], r[k]) {
      assert old(MemIs(w, w.mems[k], t.mems[k]));
    }
  }

  // ---------------------------------------------------------------- the environment

  /** A switch up to the change of contexts. */
  function SwappedOut(u: Thread, c: Co, n: Co, sp: nat): Thread
    requires SpOk(u, c, sp) && n in u.cos && c != n
    requires u.cos[n].mem.Some? ==> Shares(u, n) && OccupantOk(u, n)
  {
    var t := MarkStack(u, c, sp);
    if t.cos[n].mem == None then t else Occupy(t, n)
  }

  lemma SwapInTwo(u: Thread, c: Co, n: Co, sp: nat, first: bool)
    requires Switchable(u, c, n, sp, first)
    ensures var t := SwappedOut(u, c, n, sp);
            Swap(u, c, n, sp, first) ==
            if u.cos[n].mem == None || first then t
            else assert Shares(t, n); Restore(t, n, MemOf(u, n).occupant)
  {
  }

  class Environment {
    /** The entries of pCallStack in use; the array behind it has room for 128. */
    var callStack: seq<CoRoutine>
    var pendingCo: CoRoutine?
    var occupyCo: CoRoutine?

    /** co_init_curr_thread_env: the main coroutine is at the bottom of the stack. */
    constructor (main: CoRoutine)
      ensures callStack == [main] && pendingCo == null && occupyCo == null
    {
      callStack, pendingCo, occupyCo := [main], null, null;
    }

    /** co_swap up to the switch of contexts. */
    method SwapOut(curr: CoRoutine, pending: CoRoutine, sp: nat,
                   ghost w: Cast, ghost u: Thread, ghost c: Co, ghost n: Co)
      requires Describes(w, u) && c in w.cos && n in w.cos && w.cos[c] == curr && w.cos[n] == pending
      requires SpOk(u, c, sp) && c != n && n in u.cos && (u.cos[n].mem.Some? ==> Shares(u, n) && OccupantOk(u, n))
      modifies `pendingCo, `occupyCo, curr`stackSp, pending.SharedMem()`occupyCo, pending.Displaced()`saveBuffer
      ensures Describes(w, SwappedOut(u, c, n, sp))
      ensures u.cos[n].mem == None ==> pendingCo == null && occupyCo == null
      ensures u.cos[n].mem.Some? ==>
                && pendingCo == pending && (MemOf(u, n).occupant == None <==> occupyCo == null)
                && (occupyCo != null ==>
                      var o := MemOf(u, n).occupant.value; o in w.cos && w.cos[o] == occupyCo)
    {
      hide CosAre, MemsAre, Apart, CastOk, CoSet, MemSet, Buffers, Saves, Describes;
      DescribedCo(w, u, n);
      Mark(curr, sp, w, u, c);
      NoEnvironment(w, this);
      if !pending.isShareStack {
        pendingCo := null;
        occupyCo := null;
      } else {
        pendingCo := pending;
        ghost var m, t := u.cos[n].mem.value, MarkStack(u, c, sp);
        DescribedMem(w, t, m);
        var o := pending.stackMem.occupyCo;
        if o != null { OneName(w, t, t.mems[m].occupant.value, n); }
        occupyCo := o;
        TakeOver(pending, w, t, n, m);
        if o != null && o != pending {
          SaveOccupant(o, w, t.(mems := t.mems[m := t.mems[m].(occupant := Some(n))]), t.mems[m].occupant.value);
        }
      }
    }

    /** co_swap after the switch of contexts, run by the coroutine switched to. */
    method SwapIn(ghost w: Cast, ghost t: Thread, ghost n: Co, ghost before: Option<Co>)
      requires Describes(w, t) && n in w.cos && n in t.cos
      requires pendingCo != null ==>
                 && pendingCo == w.cos[n] && Shares(t, n) && (before == None <==> occupyCo == null)
                 && (before.Some? ==> before.value in w.cos && w.cos[before.value] == occupyCo)
                 && (before.Some? && before.value != n && t.cos[n].save.Some? ==>
                       t.cos[n].sp + |t.cos[n].save.value| <= |MemOf(t, n).bytes|)
      modifies w.cos[n].SharedBuffer()
      ensures Describes(w, if pendingCo == null then t else Restore(t, n, before))
    {
      hide CosAre, MemsAre, Apart, CastOk, CoSet, MemSet, Buffers, Saves, Describes, Overlay;
      DescribedCo(w, t, n);
      if pendingCo != null && before.Some? { OneName(w, t, before.value, n); }
      var o, p := occupyCo, pendingCo;
      if o != null && p != null && o != p {
        if p.saveBuffer != null && p.saveBuffer.Length > 0 {
          CopyIn(p, w, t, n);
        }
      }
    }

    /** co_swap does to the objects what Swap does to the state that describes them; a coroutine
        started for the first time does not run the second half. */
    method CoSwap(curr: CoRoutine, pending: CoRoutine, sp: nat, first: bool,
                  ghost w: Cast, ghost u: Thread, ghost c: Co, ghost n: Co)
      requires Describes(w, u) && c in w.cos && n in w.cos && w.cos[c] == curr && w.cos[n] == pending
      requires Switchable(u, c, n, sp, first)
      modifies `pendingCo, `occupyCo, curr`stackSp
      modifies pending.SharedMem()`occupyCo, pending.SharedBuffer(), pending.Displaced()`saveBuffer
      ensures Describes(w, Swap(u, c, n, sp, first))
    {
      hide CosAre, MemsAre, Apart, CastOk, CoSet, MemSet, Buffers, Saves, Describes, Swap;
      SwapInTwo(u, c, n, sp, first);
      SwapOut(curr, pending, sp, w, u, c, n);
      if !first {
        SwapIn(w, SwappedOut(u, c, n, sp), n, if u.cos[n].mem == None then None else MemOf(u, n).occupant);
      }
    }

    ghost predicate StackIs(w: Cast, stack: seq<Co>)
      reads this
    {
      |stack| == |callStack| && forall i :: 0 <= i < |stack| ==> stack[i] in w.cos && w.cos[stack[i]] == callStack[i]
    }

    /** The running coroutine. */
    function Top(): CoRoutine
      requires |callStack| >= 1
      reads this
    {
      callStack[|callStack| - 1]
    }

    /** The coroutine that resumed the running one. */
    function Below(): CoRoutine
      requires |callStack| >= 2
      reads this
    {
      callStack[|callStack| - 2]
    }

    /** co_resume. */
    method CoResume(co: CoRoutine, sp: nat, ghost w: Cast, ghost t: Thread, ghost c: Co)
      requires StackIs(w, t.stack) && Describes(w, t) && c in w.cos && w.cos[c] == co
      requires Inv(t) && Enabled(t, Resume(c, sp))
      modifies this, co`started, Top()`stackSp
      modifies co.SharedMem()`occupyCo, co.SharedBuffer(), co.Displaced()`saveBuffer
      ensures Describes(w, Step(t, Resume(c, sp))) && StackIs(w, Step(t, Resume(c, sp)).stack)
    {
      hide CosAre, MemsAre, Apart, CastOk, CoSet, MemSet, Buffers, Saves, Describes, Swap, Inv, DoResume;
      ghost var e := Resume(c, sp);
      SwitchIsSwap(t, e);
      StackStep(t, e);
      DescribedCo(w, t, c);
      ghost var u := Prepared(t, e);
      var curr := Top();
      var first := !co.started;
      if !co.started {
        SetStarted(co, true, w, t, c);
        Restack(w, t.(cos := u.cos), u);
      } else {
        assert u.cos == t.cos;
        Restack(w, t, u);
      }
      NoEnvironment(w, this);
      callStack := callStack + [co];
      CoSwap(curr, co, sp, first, w, u, Current(t), c);
    }

    /** co_yield_env. */
    method CoYieldEnv(sp: nat, ghost w: Cast, ghost t: Thread)
      requires StackIs(w, t.stack) && Describes(w, t) && Inv(t) && Enabled(t, Yield(sp))
      modifies this, Top()`stackSp
      modifies Below().SharedMem()`occupyCo, Below().SharedBuffer(), Below().Displaced()`saveBuffer
      ensures Describes(w, Step(t, Yield(sp))) && StackIs(w, Step(t, Yield(sp)).stack)
    {
      hide CosAre, MemsAre, Apart, CastOk, CoSet, MemSet, Buffers, Saves, Describes, Swap, Inv, DoYield;
      ghost var e := Yield(sp);
      SwitchIsSwap(t, e);
      StackStep(t, e);
      var last := Below();
      var curr := Top();
      ghost var u := Prepared(t, e);
      Restack(w, t, u);
      NoEnvironment(w, this);
      callStack := callStack[..|callStack| - 1];
      CoSwap(curr, last, sp, false, w, u, Current(t), Target(t, e));
    }

    /** The end of CoRoutineFunc. */
    method CoFinish(sp: nat, ghost w: Cast, ghost t: Thread)
      requires StackIs(w, t.stack) && Describes(w, t) && Inv(t) && Enabled(t, Finish(sp))
      modifies this, Top()`stackSp, Top()`ended
      modifies Below().SharedMem()`occupyCo, Below().SharedBuffer(), Below().Displaced()`saveBuffer
      ensures Describes(w, Step(t, Finish(sp))) && StackIs(w, Step(t, Finish(sp)).stack)
    {
      hide CosAre, MemsAre, Apart, CastOk, CoSet, MemSet, Buffers, Saves, Describes, Swap, Inv, DoYield;
      var co := Top();
      ghost var c := Current(t);
      DescribedCo(w, t, c);
      EndedKeepsInv(t);
      SetEnded(co, true, w, t, c);
      assert Ended(t).cos == t.cos[c := t.cos[c].(ended := true)];
      CoYieldEnv(sp, w, Ended(t));
    }
  }
}
