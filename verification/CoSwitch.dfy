/** Coroutine switching in libco/co_routine.cpp: the call stack of a thread, and stack memories
    shared by several coroutines, whose contents are copied out and in as coroutines alternate.
    A switch of contexts is atomic here, and the running coroutine may write anything to the
    stack memory it runs on. */
module CoSwitch {
  import opened Wrappers
  import opened Seqs

  type Co = nat
  type Mem = nat
  type Byte = bv8

  const CALL_STACK_SIZE := 128

  /** stCoRoutine_t; `mem` is the shared stack memory, None for a coroutine with a stack of its
      own, and `sp` the distance of stack_sp from the start of the buffer. */
  datatype Coroutine = Coroutine(started: bool, ended: bool, mem: Option<Mem>, sp: nat, save: Option<seq<Byte>>)

  /** stStackMem_t. */
  datatype StackMem = StackMem(occupant: Option<Co>, bytes: seq<Byte>)

  /** A thread: pCallStack, all coroutines and stack memories.  `frames` is what each switched-out
      coroutine had on its shared stack at that moment; the code does not know it. */
  datatype Thread = Thread(
    stack: seq<Co>,
    cos: map<Co, Coroutine>,
    mems: map<Mem, StackMem>,
    frames: map<Co, seq<Byte>>)

  datatype Event =
    | Create(co: Co, mem: Option<Mem>)
    | Resume(co: Co, sp: nat)
    | Yield(sp: nat)
    | Finish(sp: nat)
    | Write(bytes: seq<Byte>)
    | Free(co: Co)
    | Reset(co: Co)

  function Current(t: Thread): Co
    requires t.stack != []
  {
    t.stack[|t.stack| - 1]
  }

  /** The stack memory of a coroutine that shares one. */
  function MemOf(t: Thread, co: Co): StackMem
    requires Shares(t, co)
  {
    t.mems[t.cos[co].mem.value]
  }

  predicate Shares(t: Thread, co: Co) {
    co in t.cos && t.cos[co].mem.Some? && t.cos[co].mem.value in t.mems
  }

  predicate SpOk(t: Thread, co: Co, sp: nat) {
    co in t.cos && (t.cos[co].mem.Some? ==> Shares(t, co) && sp <= |MemOf(t, co).bytes|)
  }

  // ---------------------------------------------------------------- the invariant

  /** What a switched-out coroutine had on the shared stack is still there if it is the occupant,
      and in its save buffer otherwise. */
  ghost predicate Held(t: Thread, co: Co)
    requires Shares(t, co)
  {
    var c, m := t.cos[co], MemOf(t, co);
    && co in t.frames && c.sp + |t.frames[co]| == |m.bytes|
    && if m.occupant == Some(co) then m.bytes[c.sp..] == t.frames[co] else c.save == Some(t.frames[co])
  }

  ghost predicate CoOk(t: Thread, co: Co)
    requires t.stack != [] && co in t.cos
  {
    t.cos[co].mem.Some? ==>
      && Shares(t, co)
      && t.cos[co].sp <= |MemOf(t, co).bytes|
      && (co in t.stack ==> t.cos[co].started)
      && (co == Current(t) ==> MemOf(t, co).occupant == Some(co))
      && (co != Current(t) && t.cos[co].started ==> Held(t, co))
  }

  ghost predicate MemOk(t: Thread, m: Mem)
    requires m in t.mems
  {
    t.mems[m].occupant.Some? ==>
      var o := t.mems[m].occupant.value;
      o in t.cos && t.cos[o].mem == Some(m) && t.cos[o].started
  }

  ghost predicate Inv(t: Thread) {
    && t.stack != [] && |t.stack| <= CALL_STACK_SIZE && NoDup(t.stack)
    && (forall co :: co in t.stack ==> co in t.cos)
    && (forall co :: co in t.cos ==> CoOk(t, co))
    && (forall m :: m in t.mems ==> MemOk(t, m))
  }

  // ---------------------------------------------------------------- the operations

  /** save_stack_buffer. */
  function SaveStackBuffer(t: Thread, co: Co): Thread
    requires Shares(t, co) && t.cos[co].sp <= |MemOf(t, co).bytes|
  {
    t.(cos := t.cos[co := t.cos[co].(save := Some(MemOf(t, co).bytes[t.cos[co].sp..]))])
  }

  /** `curr` records where its stack ends. */
  function MarkStack(t: Thread, curr: Co, sp: nat): Thread
    requires SpOk(t, curr, sp)
  {
    t.(cos := t.cos[curr := t.cos[curr].(sp := sp)],
       frames := if t.cos[curr].mem.Some? then t.frames[curr := MemOf(t, curr).bytes[sp..]] else t.frames)
  }

  /** The occupant of the memory of `co`, if any, shares that memory. */
  predicate OccupantOk(t: Thread, co: Co)
    requires Shares(t, co)
  {
    MemOf(t, co).occupant.Some? ==>
      var o := MemOf(t, co).occupant.value;
      Shares(t, o) && t.cos[o].mem == t.cos[co].mem && t.cos[o].sp <= |MemOf(t, o).bytes|
  }

  /** `next` becomes the occupant of its stack memory, and the old occupant is saved. */
  function Occupy(t: Thread, next: Co): Thread
    requires Shares(t, next) && OccupantOk(t, next)
  {
    var m := t.cos[next].mem.value;
    var old' := t.mems[m].occupant;
    var t := t.(mems := t.mems[m := t.mems[m].(occupant := Some(next))]);
    if old'.Some? && old'.value != next then SaveStackBuffer(t, old'.value) else t
  }

  /** Copying `save` over `bytes` at `sp`. */
  function Overlay(bytes: seq<Byte>, sp: nat, save: seq<Byte>): (r: seq<Byte>)
    requires sp + |save| <= |bytes|
    ensures |r| == |bytes| && r[..sp] == bytes[..sp] && r[sp..] == save + bytes[sp + |save|..]
  {
    bytes[..sp] + save + bytes[sp + |save|..]
  }

  /** A coroutine switched to restores its part of the stack if somebody else had occupied the
      memory; an unoccupied memory is taken to hold the right contents. */
  function Restore(t: Thread, next: Co, before: Option<Co>): Thread
    requires Shares(t, next)
    requires before.Some? && before.value != next && t.cos[next].save.Some? ==>
               t.cos[next].sp + |t.cos[next].save.value| <= |MemOf(t, next).bytes|
  {
    var c, m := t.cos[next], MemOf(t, next);
    if before.Some? && before.value != next && c.save.Some? && |c.save.value| > 0
    then t.(mems := t.mems[c.mem.value := m.(bytes := Overlay(m.bytes, c.sp, c.save.value))])
    else t
  }

  /** co_swap.  A coroutine that has just been started begins at its entry point and does not
      run the part behind the switch of contexts. */
  function Swap(t: Thread, curr: Co, next: Co, sp: nat, first: bool): Thread
    requires SpOk(t, curr, sp) && next in t.cos && curr != next
    requires t.cos[next].mem.Some? ==> Shares(t, next) && OccupantOk(t, next)
    requires t.cos[next].mem.Some? && !first ==> Held(t, next)
  {
    var t := MarkStack(t, curr, sp);
    if t.cos[next].mem == None then t
    else
      var before := MemOf(t, next).occupant;
      var t := Occupy(t, next);
      if first then t else Restore(t, next, before)
  }

  /** co_resume. */
  function DoResume(t: Thread, co: Co, sp: nat): Thread
    requires Inv(t) && co in t.cos && co !in t.stack && SpOk(t, Current(t), sp)
  {
    var first := !t.cos[co].started;
    InvGivesSwap(t, co);
    var u := t.(stack := t.stack + [co], cos := t.cos[co := t.cos[co].(started := true)]);
    Swap(u, Current(t), co, sp, first)
  }

  lemma InvGivesSwap(t: Thread, co: Co)
    requires Inv(t) && co in t.cos
    ensures t.cos[co].mem.Some? ==> Shares(t, co) && OccupantOk(t, co)
  {
    assert CoOk(t, co);
    if t.cos[co].mem.Some? {
      assert MemOk(t, t.cos[co].mem.value);
      var o := MemOf(t, co).occupant;
      if o.Some? { assert CoOk(t, o.value); }
    }
  }

  /** co_yield_env. */
  function DoYield(t: Thread, sp: nat): Thread
    requires Inv(t) && |t.stack| >= 2 && SpOk(t, Current(t), sp)
  {
    var last := t.stack[|t.stack| - 2];
    InvGivesSwap(t, last);
    Swap(t.(stack := t.stack[..|t.stack| - 1]), Current(t), last, sp, false)
  }

  /** A stack memory is unoccupied once its occupant is gone. */
  function Vacate(t: Thread, co: Co): Thread {
    if Shares(t, co) && MemOf(t, co).occupant == Some(co)
    then t.(mems := t.mems[t.cos[co].mem.value := MemOf(t, co).(occupant := None)])
    else t
  }

  /** co_free. */
  function DoFree(t: Thread, co: Co): Thread {
    var u := Vacate(t, co);
    u.(cos := u.cos - {co}, frames := u.frames - {co})
  }

  /** co_reset. */
  function DoReset(t: Thread, co: Co): Thread
    requires co in t.cos
  {
    if !t.cos[co].started then t
    else
      var u := Vacate(t, co);
      u.(cos := u.cos[co := u.cos[co].(started := false, ended := false, save := None)])
  }

  function DoWrite(t: Thread, bytes: seq<Byte>): Thread
    requires t.stack != [] && Shares(t, Current(t))
  {
    t.(mems := t.mems[t.cos[Current(t)].mem.value := MemOf(t, Current(t)).(bytes := bytes)])
  }

  /** The end of CoRoutineFunc: the coroutine is marked as ended and yields. */
  function Ended(t: Thread): Thread
    requires t.stack != [] && Current(t) in t.cos
  {
    t.(cos := t.cos[Current(t) := t.cos[Current(t)].(ended := true)])
  }

  predicate Enabled(t: Thread, e: Event) {
    && t.stack != []
    && match e
       case Create(co, mem) => co !in t.cos && (mem.Some? ==> mem.value in t.mems)
       case Resume(co, sp) => co in t.cos && co !in t.stack && !t.cos[co].ended
                              && |t.stack| < CALL_STACK_SIZE && SpOk(t, Current(t), sp)
       case Yield(sp) => |t.stack| >= 2 && SpOk(t, Current(t), sp)
       case Finish(sp) => |t.stack| >= 2 && SpOk(t, Current(t), sp)
       case Write(bytes) => Shares(t, Current(t)) && |bytes| == |MemOf(t, Current(t)).bytes|
       case Free(co) => co in t.cos && co !in t.stack
       case Reset(co) => co in t.cos && co !in t.stack
  }

  function Step(t: Thread, e: Event): Thread
    requires Inv(t) && Enabled(t, e)
  {
    match e
    case Create(co, mem) => t.(cos := t.cos[co := Coroutine(false, false, mem, 0, None)])
    case Resume(co, sp) => DoResume(t, co, sp)
    case Yield(sp) => DoYield(t, sp)
    case Finish(sp) => EndedKeepsInv(t); DoYield(Ended(t), sp)
    case Write(bytes) => DoWrite(t, bytes)
    case Free(co) => DoFree(t, co)
    case Reset(co) => DoReset(t, co)
  }

  lemma EndedKeepsInv(t: Thread)
    requires Inv(t)
    ensures Inv(Ended(t))
  {
    var r := Ended(t);
    forall co | co in r.cos ensures CoOk(r, co) { assert CoOk(t, co); }
    forall m | m in r.mems ensures MemOk(r, m) { assert MemOk(t, m); }
  }

  // ---------------------------------------------------------------- every step keeps the invariant

  lemma SimpleStepsKeepInv(t: Thread, e: Event)
    requires Inv(t) && Enabled(t, e) && (e.Create? || e.Write?)
    ensures Inv(Step(t, e))
  {
    var r := Step(t, e);
    forall co | co in r.cos ensures CoOk(r, co) { assert co in t.cos ==> CoOk(t, co); }
    forall m | m in r.mems ensures MemOk(r, m) { assert MemOk(t, m); }
  }

  lemma FreeKeepsInv(t: Thread, co: Co)
    requires Inv(t) && Enabled(t, Free(co))
    ensures Inv(DoFree(t, co))
  {
    var r := DoFree(t, co);
    forall x | x in r.cos ensures CoOk(r, x) { assert CoOk(t, x); }
    forall m | m in r.mems ensures MemOk(r, m) { assert MemOk(t, m) && CoOk(t, co); }
  }

  lemma ResetKeepsInv(t: Thread, co: Co)
    requires Inv(t) && Enabled(t, Reset(co))
    ensures Inv(DoReset(t, co))
  {
    var r := DoReset(t, co);
    forall x | x in r.cos ensures CoOk(r, x) { assert CoOk(t, x); }
    forall m | m in r.mems ensures MemOk(r, m) { assert MemOk(t, m) && CoOk(t, co); }
  }

  /** What may be assumed of a switch from `curr` to `next`. */
  ghost predicate Switchable(u: Thread, curr: Co, next: Co, sp: nat, first: bool) {
    && SpOk(u, curr, sp) && next in u.cos && curr != next
    && (u.cos[next].mem.Some? ==> Shares(u, next) && OccupantOk(u, next))
    && (u.cos[next].mem.Some? && !first ==> Held(u, next))
    && (u.cos[curr].mem.Some? ==> MemOf(u, curr).occupant == Some(curr))
  }

  /** Memories other than that of `next` are left alone. */
  lemma SwapMems(u: Thread, curr: Co, next: Co, sp: nat, first: bool, m: Mem)
    requires Switchable(u, curr, next, sp, first) && m in u.mems
    ensures var r := Swap(u, curr, next, sp, first);
            && m in r.mems && |r.mems[m].bytes| == |u.mems[m].bytes|
            && r.mems[m].occupant == (if u.cos[next].mem == Some(m) then Some(next) else u.mems[m].occupant)
            && (u.cos[next].mem != Some(m) ==> r.mems[m].bytes == u.mems[m].bytes)
  {
  }

  /** Only the old occupant's save buffer changes, and only the stack mark of `curr`. */
  lemma SwapCos(u: Thread, curr: Co, next: Co, sp: nat, first: bool, co: Co)
    requires Switchable(u, curr, next, sp, first) && co in u.cos
    ensures var r := Swap(u, curr, next, sp, first);
            var sp' := if co == curr then sp else u.cos[co].sp;
            && r.stack == u.stack && r.cos.Keys == u.cos.Keys && r.mems.Keys == u.mems.Keys
            && r.cos[co] == u.cos[co].(
                 sp := sp',
                 save := if co != next && u.cos[next].mem.Some? && MemOf(u, next).occupant == Some(co)
                         then Some(MemOf(u, next).bytes[sp'..]) else u.cos[co].save)
            && r.frames == if u.cos[curr].mem.Some? then u.frames[curr := MemOf(u, curr).bytes[sp..]] else u.frames
  {
    hide Swap;
    SwapFrames(u, curr, next, sp, first);
    SwapCo(u, curr, next, sp, first, co);
  }

  lemma SwapFrames(u: Thread, curr: Co, next: Co, sp: nat, first: bool)
    requires Switchable(u, curr, next, sp, first)
    ensures var r := Swap(u, curr, next, sp, first);
            && r.stack == u.stack && r.cos.Keys == u.cos.Keys && r.mems.Keys == u.mems.Keys
            && r.frames == if u.cos[curr].mem.Some? then u.frames[curr := MemOf(u, curr).bytes[sp..]] else u.frames
  {
    hide Overlay;
  }

  lemma SwapCo(u: Thread, curr: Co, next: Co, sp: nat, first: bool, co: Co)
    requires Switchable(u, curr, next, sp, first) && co in u.cos
    ensures var r := Swap(u, curr, next, sp, first);
            var sp' := if co == curr then sp else u.cos[co].sp;
            co in r.cos && r.cos[co] == u.cos[co].(
              sp := sp',
              save := if co != next && u.cos[next].mem.Some? && MemOf(u, next).occupant == Some(co)
                      then Some(MemOf(u, next).bytes[sp'..]) else u.cos[co].save)
  {
    hide Overlay;
  }

  /** A coroutine that is switched out, or was before, is held afterwards. */
  lemma SwapHolds(u: Thread, curr: Co, next: Co, sp: nat, first: bool, co: Co)
    requires Switchable(u, curr, next, sp, first) && Shares(u, co) && co != next
    requires co != curr ==> Held(u, co)
    ensures Shares(Swap(u, curr, next, sp, first), co) && Held(Swap(u, curr, next, sp, first), co)
  {
    hide Swap;
    SwapMems(u, curr, next, sp, first, u.cos[co].mem.value);
    SwapCos(u, curr, next, sp, first, co);
  }

  lemma SwapKeepsInv(u: Thread, curr: Co, next: Co, sp: nat, first: bool)
    requires Switchable(u, curr, next, sp, first)
    requires u.stack != [] && |u.stack| <= CALL_STACK_SIZE && NoDup(u.stack) && Current(u) == next
    requires forall co :: co in u.stack ==> co in u.cos && (u.cos[co].mem.Some? ==> u.cos[co].started)
    requires u.cos[next].mem.Some? ==> u.cos[next].started && u.cos[next].sp <= |MemOf(u, next).bytes|
    requires forall co :: co in u.cos && u.cos[co].mem.Some? ==>
               Shares(u, co) && u.cos[co].sp <= |MemOf(u, co).bytes|
               && (u.cos[co].started && co != curr && co != next ==> Held(u, co))
    requires u.cos[curr].mem.Some? ==> u.cos[curr].started
    requires forall m :: m in u.mems ==> MemOk(u, m)
    ensures Inv(Swap(u, curr, next, sp, first))
  {
    hide Swap;
    var r := Swap(u, curr, next, sp, first);
    SwapCos(u, curr, next, sp, first, next);
    forall co | co in r.cos ensures CoOk(r, co) {
      SwapCos(u, curr, next, sp, first, co);
      if u.cos[co].mem.Some? {
        SwapMems(u, curr, next, sp, first, u.cos[co].mem.value);
        if co != next && u.cos[co].started { SwapHolds(u, curr, next, sp, first, co); }
      }
    }
    forall m | m in r.mems ensures MemOk(r, m) {
      SwapMems(u, curr, next, sp, first, m);
      assert MemOk(u, m);
      if r.mems[m].occupant.Some? { SwapCos(u, curr, next, sp, first, r.mems[m].occupant.value); }
    }
  }

  lemma ResumeKeepsInv(t: Thread, co: Co, sp: nat)
    requires Inv(t) && Enabled(t, Resume(co, sp))
    ensures Inv(DoResume(t, co, sp))
  {
    var u := t.(stack := t.stack + [co], cos := t.cos[co := t.cos[co].(started := true)]);
    InvGivesSwap(t, co);
    hide Swap;
    forall x | x in u.cos && u.cos[x].mem.Some?
      ensures Shares(u, x) && u.cos[x].sp <= |MemOf(u, x).bytes|
      ensures u.cos[x].started && x != Current(t) && x != co ==> Held(u, x)
      ensures x in t.stack ==> u.cos[x].started
      ensures x == Current(t) ==> MemOf(u, x).occupant == Some(x)
      ensures x == co && t.cos[co].started ==> Held(u, x)
    {
      assert CoOk(t, x);
    }
    forall m | m in u.mems ensures MemOk(u, m) { assert MemOk(t, m); }
    SwapKeepsInv(u, Current(t), co, sp, !t.cos[co].started);
  }

  lemma YieldKeepsInv(t: Thread, sp: nat)
    requires Inv(t) && Enabled(t, Yield(sp))
    ensures Inv(DoYield(t, sp))
  {
    var last := t.stack[|t.stack| - 2];
    var u := t.(stack := t.stack[..|t.stack| - 1]);
    InvGivesSwap(t, last);
    hide Swap;
    forall x | x in u.cos && u.cos[x].mem.Some?
      ensures Shares(u, x) && u.cos[x].sp <= |MemOf(u, x).bytes|
      ensures u.cos[x].started && x != Current(t) ==> Held(u, x)
      ensures x in t.stack ==> u.cos[x].started
      ensures x == Current(t) ==> MemOf(u, x).occupant == Some(x)
    {
      assert CoOk(t, x);
    }
    assert last in t.stack && Current(t) in t.stack;
    forall m | m in u.mems ensures MemOk(u, m) { assert MemOk(t, m); }
    SwapKeepsInv(u, Current(t), last, sp, false);
  }

  lemma StepKeepsInv(t: Thread, e: Event)
    requires Inv(t) && Enabled(t, e)
    ensures Inv(Step(t, e))
  {
    hide Inv;
    match e
    case Resume(co, sp) => ResumeKeepsInv(t, co, sp);
    case Yield(sp) => YieldKeepsInv(t, sp);
    case Finish(sp) => EndedKeepsInv(t); YieldKeepsInv(Ended(t), sp);
    case Create(_, _) => SimpleStepsKeepInv(t, e);
    case Write(_) => SimpleStepsKeepInv(t, e);
    case Free(co) => FreeKeepsInv(t, co);
    case Reset(co) => ResetKeepsInv(t, co);
  }

  // ---------------------------------------------------------------- stack contents survive

  /** The heart of the matter: `next` finds its part of the stack as it left it, unless nobody
      occupied the memory, in which case the memory is left as it is. */
  lemma SwapRestores(u: Thread, curr: Co, next: Co, sp: nat)
    requires Switchable(u, curr, next, sp, false) && Shares(u, next)
    ensures var r := Swap(u, curr, next, sp, false);
            && Shares(r, next) && r.cos[next].sp == u.cos[next].sp <= |MemOf(r, next).bytes|
            && (if MemOf(u, next).occupant.Some?
                then MemOf(r, next).bytes[u.cos[next].sp..] == u.frames[next]
                else MemOf(r, next).bytes == MemOf(u, next).bytes)
  {
  }
}
