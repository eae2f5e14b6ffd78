/** A thread with its coroutines on the heap runs as the machine of CoSwitch says: beside the
    objects, the run of the machine that describes what has been done so far is kept in ghost
    fields, and every operation on the objects extends it by one step. */
module TrackedThread {
  import opened Wrappers
  import opened CoSwitch
  import opened CoRuns
  import opened CoObjects

  /** The values of shared stacks that no coroutine occupies. */
  ghost function Unused(mems: map<Mem, StackMemory>): (r: map<Mem, StackMem>)
    reads set m | m in mems :: mems[m].buffer
    ensures forall m :: m in r ==> r[m].occupant == None
  {
    map m | m in mems :: StackMem(None, mems[m].buffer[..])
  }

  /** A coroutine that has not run, with a stack of its own, and different shared stacks not in use. */
  ghost predicate Blank(main: CoRoutine, mems: map<Mem, StackMemory>)
    reads main, set m | m in mems :: mems[m]
  {
    && !main.started && !main.ended && main.stackSp == 0 && main.saveBuffer == null && !main.isShareStack
    && (forall m :: m in mems ==> mems[m].occupyCo == null && mems[m].buffer != main.stackMem.buffer)
    && (forall m, n :: m in mems && n in mems && mems[m].buffer == mems[n].buffer ==> m == n)
  }

  class CoThread {
    const env: Environment
    /** The name of the thread's own coroutine, and the shared stacks as they were at the start. */
    ghost const first: Co
    ghost const unused: map<Mem, StackMem>
    ghost var cast: Cast
    ghost var ts: seq<Thread>
    ghost var es: seq<Event>

    /** `main` is the coroutine of the thread itself, and `mems` are unused shared stacks. */
    constructor (main: CoRoutine, ghost id: Co, ghost mems: map<Mem, StackMemory>)
      requires Blank(main, mems)
      ensures Valid() && |ts| == 1 && es == [] && cast == Cast(map[id := main], mems, map[id := None])
      ensures first == id && unused == Unused(mems)
      ensures fresh(env) && T() == Init(first, unused)
    {
      env := new Environment(main);
      first, unused, cast := id, Unused(mems), Cast(map[id := main], mems, map[id := None]);
      ts, es := [Init(id, Unused(mems))], [];
      new;
      hide Inv, Describes, CoSet, MemSet, Buffers, Saves, Unused, IsRun, Init, Blank, Environment.StackIs;
      NothingDone(Init(id, unused));
      InitStack(env, main, id, unused, cast);
      InitInv(id, unused);
      InitDescribed(main, id, mems, unused);
    }

    ghost predicate Valid()
      reads this, env, CoSet(cast), Saves(cast), MemSet(cast), Buffers(cast)
    {
      && |ts| > 0 && IsRun(ts, es) && FromStart() && Inv(T())
      && env.StackIs(cast, T().stack) && Describes(cast, T())
    }

    /** The run begins with the thread's own coroutine alone, and no shared stack in use. */
    ghost predicate FromStart()
      requires |ts| > 0
      reads this
    {
      ts[0] == Init(first, unused) && forall m :: m in unused ==> unused[m].occupant == None
    }

    /** The state that the machine is in. */
    ghost function T(): Thread
      requires |ts| > 0
      reads this
    {
      ts[|ts| - 1]
    }

    /** What every operation ensures: the machine has taken the step `e`. */
    twostate predicate Stepped(e: Event)
      reads this
    {
      && |old(ts)| > 0 && Inv(old(T())) && Enabled(old(T()), e)
      && ts == old(ts) + [Step(old(T()), e)] && es == old(es) + [e]
    }

    ghost method Extend(e: Event, w: Cast)
      requires |ts| > 0 && IsRun(ts, es) && FromStart() && Inv(T()) && Enabled(T(), e)
      requires env.StackIs(w, Step(T(), e).stack) && Describes(w, Step(T(), e))
      modifies this
      ensures Valid() && Stepped(e) && cast == w
    {
      hide Inv, Enabled, Step, Describes, CoSet, MemSet, Buffers, Saves;
      StepKeepsInv(T(), e);
      NotInCast(w, this);
      ts, es, cast := ts + [Step(T(), e)], es + [e], w;
    }

    /** co_resume. */
    method Resume(co: CoRoutine, sp: nat, ghost c: Co)
      requires Valid() && c in cast.cos && cast.cos[c] == co && Enabled(T(), Event.Resume(c, sp))
      modifies this, env, co`started, env.Top()`stackSp
      modifies co.SharedMem()`occupyCo, co.SharedBuffer(), co.Displaced()`saveBuffer
      ensures Valid() && Stepped(Event.Resume(c, sp)) && cast == old(cast)
    {
      hide Inv, Enabled, Step, Describes, IsRun;
      env.CoResume(co, sp, cast, T(), c);
      Extend(Event.Resume(c, sp), cast);
    }

    /** co_yield_env. */
    method Yield(sp: nat)
      requires Valid() && Enabled(T(), Event.Yield(sp))
      modifies this, env, env.Top()`stackSp
      modifies env.Below().SharedMem()`occupyCo, env.Below().SharedBuffer(), env.Below().Displaced()`saveBuffer
      ensures Valid() && Stepped(Event.Yield(sp)) && cast == old(cast)
    {
      hide Inv, Step, Describes, IsRun;
      env.CoYieldEnv(sp, cast, T());
      Extend(Event.Yield(sp), cast);
    }

    /** The function of the running coroutine returns. */
    method Finish(sp: nat)
      requires Valid() && Enabled(T(), Event.Finish(sp))
      modifies this, env, env.Top()`stackSp, env.Top()`ended
      modifies env.Below().SharedMem()`occupyCo, env.Below().SharedBuffer(), env.Below().Displaced()`saveBuffer
      ensures Valid() && Stepped(Event.Finish(sp)) && cast == old(cast)
    {
      hide Inv, Step, Describes, IsRun;
      env.CoFinish(sp, cast, T());
      Extend(Event.Finish(sp), cast);
    }

    /** co_create_env. */
    method Create(isShareStack: bool, stackMem: StackMemory, ghost c: Co, ghost mem: Option<Mem>)
      returns (co: CoRoutine)
      requires Valid() && c !in cast.cos && (mem.Some? <==> isShareStack)
      requires mem.Some? ==> mem.value in cast.mems && cast.mems[mem.value] == stackMem
      requires mem.None? ==> stackMem.buffer !in Buffers(cast)
      modifies this
      ensures Valid() && Stepped(Event.Create(c, mem)) && fresh(co) && co.stackMem == stackMem
      ensures cast == old(cast).(cos := old(cast.cos)[c := co], memOf := old(cast.memOf)[c := mem])
    {
      hide Inv, Describes, IsRun, CosAre, MemsAre;
      KeysAgree(cast, T());
      ghost var w;
      co, w := CoCreate(isShareStack, stackMem, cast, T(), c, mem);
      Extend(Event.Create(c, mem), w);
    }

    /** co_free. */
    method Free(co: CoRoutine, ghost c: Co)
      requires Valid() && c in cast.cos && cast.cos[c] == co && c !in T().stack
      modifies this, co.SharedMem()`occupyCo
      ensures Valid() && Stepped(Event.Free(c))
      ensures cast == old(cast).(cos := old(cast.cos) - {c}, memOf := old(cast.memOf) - {c})
    {
      hide Inv, Describes, IsRun, CosAre, MemsAre, DoFree;
      KeysAgree(cast, T());
      StackStep(T(), Event.Free(c));
      ghost var w := CoFree(co, cast, T(), c);
      Extend(Event.Free(c), w);
    }

    /** co_reset. */
    method Reset(co: CoRoutine, ghost c: Co)
      requires Valid() && c in cast.cos && cast.cos[c] == co && c !in T().stack
      modifies this, co`started, co`ended, co`saveBuffer, co.stackMem`occupyCo
      ensures Valid() && Stepped(Event.Reset(c)) && cast == old(cast)
    {
      hide Inv, Describes, IsRun, CosAre, MemsAre, DoReset;
      KeysAgree(cast, T());
      StackStep(T(), Event.Reset(c));
      CoReset(co, cast, T(), c);
      Extend(Event.Reset(c), cast);
    }

    /** The running coroutine, one with a shared stack, writes to its stack. */
    method Write(i: nat, b: Byte)
      requires Valid() && T().stack != [] && Shares(T(), Current(T())) && |env.callStack| > 0
      requires i < env.Top().stackMem.buffer.Length
      modifies this, env.Top().stackMem.buffer
      ensures Valid() && i < |old(MemOf(T(), Current(T())).bytes)|
      ensures Stepped(Event.Write(old(MemOf(T(), Current(T())).bytes[i := b]))) && cast == old(cast)
    {
      hide Inv, Describes, IsRun;
      ghost var c := Current(T());
      StackWrite(env.Top(), i, b, cast, T(), c);
      Extend(Event.Write(MemOf(T(), c).bytes[i := b]), cast);
    }

    /** The contents that `p` left on its shared stack at step `j` are in the stack memory when
        the last step has switched back to it, unless a current occupant was freed or reset. */
    lemma StackKept(j: nat, p: Co)
      requires Valid()
      requires forall k :: 0 <= k < |es| ==> SparesOccupants(ts[k], es[k])
      requires j < |es| - 1 && Switches(es[j]) && Switches(es[|es| - 1])
      requires ts[j].stack != [] && Current(ts[j]) == p && Shares(ts[j], p) && es[j].sp <= |MemOf(ts[j], p).bytes|
      requires forall n :: j < n < |es| ==> ts[n].stack != [] && Current(ts[n]) != p
      requires Target(ts[|es| - 1], es[|es| - 1]) == p && p in ts[|es| - 1].cos && ts[|es| - 1].cos[p].started
      ensures p in cast.cos && es[j].sp <= cast.cos[p].stackMem.buffer.Length
      ensures cast.cos[p].stackMem.buffer[es[j].sp..] == MemOf(ts[j], p).bytes[es[j].sp..]
    {
      StackPreserved(ts, es, first, unused, j, |es| - 1, p);
      hide Inv, IsRun, Describes;
      KeysAgree(cast, T());
      DescribedCo(cast, T(), p);
      DescribedMem(cast, T(), T().cos[p].mem.value);
    }
  }

  lemma NothingDone(t: Thread)
    ensures IsRun([t], [])
  {
  }

  lemma InitStack(env: Environment, main: CoRoutine, id: Co, mems: map<Mem, StackMem>, w: Cast)
    requires env.callStack == [main] && id in w.cos && w.cos[id] == main
    ensures env.StackIs(w, Init(id, mems).stack)
  {
  }

  lemma KeysAgree(w: Cast, t: Thread)
    requires Describes(w, t) && Inv(t)
    ensures t.cos.Keys == w.cos.Keys && t.mems.Keys == w.mems.Keys && t.stack != []
  {
  }

  lemma InitDescribed(main: CoRoutine, id: Co, mems: map<Mem, StackMemory>, unused: map<Mem, StackMem>)
    requires Blank(main, mems)
    requires unused == Unused(mems)
    ensures Describes(Cast(map[id := main], mems, map[id := None]), Init(id, unused))
  {
    var w := Cast(map[id := main], mems, map[id := None]);
    assert MemOfOk(w, id);
  }

  lemma NotInCast(w: Cast, e: CoThread)
    ensures forall o: object :: o in CoSet(w) ==> o != e
    ensures forall o: object :: o in Saves(w) ==> o != e
    ensures forall o: object :: o in MemSet(w) ==> o != e
    ensures forall o: object :: o in Buffers(w) ==> o != e
  {
  }
}
