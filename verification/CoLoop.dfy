/** A thread with its event loop: coroutines that poll or wait give up control by co_yield, and the
    event loop, run by one of the coroutines, resumes them.  Both machines step together. */
module CoLoop {
  import opened Seqs
  import S = Scheduler
  import SR = SchedulerRuns
  import SP = SchedulerPolls
  import C = CoSwitch
  import R = CoRuns
  import WheelModel

  /** `owner` is the coroutine that sleeps with an item. */
  datatype Machine = Machine(thread: C.Thread, sched: S.State, owner: map<S.Id, C.Co>)

  datatype Move =
    | Sleep(l: S.Label, sp: nat)    // the running coroutine begins a poll or a wait, and yields
    | Wake(sp: nat)                 // a round of the draining loop
    | Loop(l: S.Label)              // another step of the event loop
    | Call(l: S.Label)              // the running coroutine signals
    | Own(e: C.Event)               // anything that does not concern the event loop

  /** The coroutine that runs the event loop was on top of the stack `base` when it began. */
  function Looper(base: seq<C.Co>): C.Co
    requires base != []
  {
    base[|base| - 1]
  }

  ghost predicate Asleep(m: Machine, co: C.Co) {
    exists id :: id in m.owner && m.owner[id] == co
  }

  ghost predicate Possible(base: seq<C.Co>, m: Machine, v: Move) {
    && base != [] && m.thread.stack != []
    && match v
       case Sleep(l, sp) =>
         && (l.StartPoll? || l.StartWait?) && S.Enabled(m.sched, l) && S.GoodClock(m.sched, l)
         && C.Current(m.thread) != Looper(base) && C.Enabled(m.thread, C.Yield(sp))
       case Wake(sp) =>
         && S.Enabled(m.sched, S.Drain) && C.Current(m.thread) == Looper(base)
         && |m.thread.stack| < C.CALL_STACK_SIZE && C.SpOk(m.thread, Looper(base), sp)
       case Loop(l) =>
         && (l.Ready? || l.Take? || l.EndPass?) && S.Enabled(m.sched, l) && S.GoodClock(m.sched, l)
         && C.Current(m.thread) == Looper(base)
       case Call(l) => (l.Signal? || l.Broadcast?) && S.Enabled(m.sched, l)
       case Own(e) =>
         && C.Enabled(m.thread, e) && (e.Yield? || e.Finish? ==> C.Current(m.thread) != Looper(base))
         && (e.Resume? || e.Free? || e.Reset? ==> !Asleep(m, e.co))
  }

  // ---------------------------------------------------------------- the invariant

  /** Coroutines on the stack have not ended. */
  ghost predicate Running(t: C.Thread) {
    forall co :: co in t.stack && co in t.cos ==> !t.cos[co].ended
  }

  /** A coroutine that sleeps is off the stack and can be resumed. */
  ghost predicate Sleeper(t: C.Thread, co: C.Co) {
    co in t.cos && co !in t.stack && !t.cos[co].ended
  }

  ghost predicate OwnersOk(t: C.Thread, owner: map<S.Id, C.Co>) {
    && (forall id :: id in owner ==> Sleeper(t, owner[id]))
    && (forall a, b :: a in owner && b in owner && owner[a] == owner[b] ==> a == b)
  }

  ghost predicate Inv(base: seq<C.Co>, m: Machine) {
    && SR.Inv(m.sched) && C.Inv(m.thread)
    && base != [] && base <= m.thread.stack && Running(m.thread)
    && m.owner.Keys == m.sched.timers.Keys && OwnersOk(m.thread, m.owner)
  }

  /** The event loop can resume whoever is next: no coroutine that sleeps has ended, is gone, or is
      on the call stack. */
  lemma NextCanBeResumed(base: seq<C.Co>, m: Machine, sp: nat)
    requires Inv(base, m) && Possible(base, m, Wake(sp))
    ensures m.sched.active[0] in m.owner && C.Enabled(m.thread, C.Resume(m.owner[m.sched.active[0]], sp))
  {
    hide SR.Inv, C.Inv;
    var x := m.sched.active[0];
    assert Sleeper(m.thread, m.owner[x]);
  }

  function Slept(m: Machine, l: S.Label, sp: nat): Machine
    requires C.Inv(m.thread) && C.Enabled(m.thread, C.Yield(sp))
    requires S.Enabled(m.sched, l) && (l.StartPoll? || l.StartWait?)
  {
    var r := S.Step(m.sched, l);
    if l.id in r.timers
    then Machine(C.Step(m.thread, C.Yield(sp)), r, m.owner[l.id := C.Current(m.thread)])
    else m.(sched := r)
  }

  function Woken(m: Machine, x: S.Id, sp: nat): Machine
    requires C.Inv(m.thread) && S.Enabled(m.sched, S.Drain) && x in m.owner
    requires C.Enabled(m.thread, C.Resume(m.owner[x], sp))
  {
    var r := S.Step(m.sched, S.Drain);
    if x in r.timers then m.(sched := r)
    else Machine(C.Step(m.thread, C.Resume(m.owner[x], sp)), r, m.owner - {x})
  }

  /** A failing AddTimeout makes a poll or a wait return at once; an item that was taken too early
      goes back to the wheel and nobody is resumed. */
  function Do(base: seq<C.Co>, m: Machine, v: Move): Machine
    requires Inv(base, m) && Possible(base, m, v)
  {
    match v
    case Sleep(l, sp) => Slept(m, l, sp)
    case Wake(sp) => NextCanBeResumed(base, m, sp); Woken(m, m.sched.active[0], sp)
    case Loop(l) => m.(sched := S.Step(m.sched, l))
    case Call(l) => m.(sched := S.Step(m.sched, l))
    case Own(e) => m.(thread := C.Step(m.thread, e))
  }

  // ---------------------------------------------------------------- every move keeps it

  lemma PollAddsItem(s: S.State, id: S.Id, timeout: int, now: nat)
    requires |s.wheel.slots| > 0 && timeout != 0 && id !in s.timers
    ensures var r := S.DoStartPoll(s, id, timeout, now);
            r.timers.Keys == if id in r.timers then s.timers.Keys + {id} else s.timers.Keys
  {
    hide WheelModel.AddTimeout;
  }

  lemma WaitAddsItem(s: S.State, id: S.Id, c: S.Cond, ms: int, now: nat)
    requires |s.wheel.slots| > 0 && id !in s.timers
    ensures var r := S.DoStartWait(s, id, c, ms, now);
            r.timers.Keys == if id in r.timers then s.timers.Keys + {id} else s.timers.Keys
  {
    hide WheelModel.AddTimeout;
  }

  /** A poll or a wait adds its item, unless it fails. */
  lemma SleepAddsItem(s: S.State, l: S.Label)
    requires SR.Inv(s) && S.Enabled(s, l) && (l.StartPoll? || l.StartWait?)
    ensures var r := S.Step(s, l);
            l.id !in s.timers && r.timers.Keys == if l.id in r.timers then s.timers.Keys + {l.id} else s.timers.Keys
  {
    hide SR.Inv, S.DoStartPoll, S.DoStartWait;
    SR.FreshItem(s, l.id);
    match l
    case StartPoll(id, timeout, now) => PollAddsItem(s, id, timeout, now);
    case StartWait(id, c, ms, now) => WaitAddsItem(s, id, c, ms, now);
  }

  /** A round of the draining loop removes the item at the head, unless it goes back to the wheel. */
  lemma RoundRemovesItem(s: S.State)
    requires S.Enabled(s, S.Drain)
    ensures var x, r := s.active[0], S.Step(s, S.Drain);
            r.timers.Keys == if x in r.timers then s.timers.Keys else s.timers.Keys - {x}
  {
    hide WheelModel.AddTimeout;
  }

  lemma OthersKeepItems(s: S.State, l: S.Label)
    requires S.Enabled(s, l) && !l.StartPoll? && !l.StartWait? && !l.Drain?
    ensures S.Step(s, l).timers.Keys == s.timers.Keys
  {
    hide WheelModel.TakeAll, S.DoBroadcast;
    if l.Broadcast? { SP.BroadcastKeepsTimers(s, l.cond); }
  }

  lemma AboveBase(base: seq<C.Co>, m: Machine)
    requires Inv(base, m) && C.Current(m.thread) != Looper(base)
    ensures |base| < |m.thread.stack|
  {
    hide SR.Inv, C.Inv;
  }

  /** A coroutine that yields is off the stack, and everybody else is as before. */
  lemma YieldKeepsOwners(base: seq<C.Co>, m: Machine, e: C.Event)
    requires Inv(base, m) && C.Enabled(m.thread, e) && (e.Yield? || e.Finish?) && C.Current(m.thread) != Looper(base)
    ensures var t, r, p := m.thread, C.Step(m.thread, e), C.Current(m.thread);
            && base <= r.stack && Running(r) && p !in r.stack && p in r.cos && (e.Yield? ==> !r.cos[p].ended)
            && (forall id :: id in m.owner ==> Sleeper(r, m.owner[id]) && m.owner[id] != p)
  {
    var t, r, p := m.thread, C.Step(m.thread, e), C.Current(m.thread);
    AboveBase(base, m);
    StackFacts(t);
    hide SR.Inv, C.Inv, C.Step;
    R.StackStep(t, e);
    R.SwitchLeaves(t, e, p);
    forall co | co in r.stack ensures co in t.stack && co != p && co in t.cos && (co in r.cos ==> !r.cos[co].ended) {
      var i :| 0 <= i < |r.stack| && r.stack[i] == co;
      assert co == t.stack[i];
      R.SwitchLeaves(t, e, co);
    }
    forall id | id in m.owner ensures Sleeper(r, m.owner[id]) && m.owner[id] != p {
      assert Sleeper(t, m.owner[id]);
      R.SwitchLeaves(t, e, m.owner[id]);
    }
  }

  lemma StackFacts(t: C.Thread)
    requires C.Inv(t)
    ensures t.stack != [] && NoDup(t.stack) && forall co :: co in t.stack ==> co in t.cos
  {
  }

  /** A coroutine that is resumed is on top of the stack, and everybody else is as before. */
  lemma ResumeKeepsOwners(base: seq<C.Co>, m: Machine, co: C.Co, sp: nat)
    requires Inv(base, m) && C.Enabled(m.thread, C.Resume(co, sp))
    ensures var r := C.Step(m.thread, C.Resume(co, sp));
            && base <= r.stack && r.stack == m.thread.stack + [co] && Running(r)
            && (forall id :: id in m.owner && m.owner[id] != co ==> Sleeper(r, m.owner[id]))
  {
    var t, e := m.thread, C.Resume(co, sp);
    var r := C.Step(t, e);
    StackFacts(t);
    hide SR.Inv, C.Inv, C.Step;
    R.StackStep(t, e);
    forall x | x in r.stack ensures x in r.cos ==> !r.cos[x].ended {
      assert x in t.stack || x == co;
      R.SwitchLeaves(t, e, x);
    }
    forall id | id in m.owner && m.owner[id] != co ensures Sleeper(r, m.owner[id]) {
      assert Sleeper(t, m.owner[id]);
      R.SwitchLeaves(t, e, m.owner[id]);
    }
  }

  /** What is done to a coroutine off the stack, or to the stack memory of the running one. */
  lemma SimpleKeepsOwners(base: seq<C.Co>, m: Machine, e: C.Event)
    requires Inv(base, m) && C.Enabled(m.thread, e) && !R.Switches(e)
    requires e.Free? || e.Reset? ==> !Asleep(m, e.co)
    ensures var r := C.Step(m.thread, e);
            r.stack == m.thread.stack && Running(r) && forall id :: id in m.owner ==> Sleeper(r, m.owner[id])
  {
    StackFacts(m.thread);
    hide SR.Inv, C.Inv;
    forall id | id in m.owner ensures Sleeper(C.Step(m.thread, e), m.owner[id]) {
      assert Sleeper(m.thread, m.owner[id]);
    }
  }

  lemma SleepKeepsInv(base: seq<C.Co>, m: Machine, l: S.Label, sp: nat)
    requires Inv(base, m) && Possible(base, m, Sleep(l, sp))
    ensures Inv(base, Do(base, m, Sleep(l, sp)))
  {
    hide SR.Inv, C.Inv, C.Step, S.Step;
    SR.StepKeepsInv(m.sched, l);
    SleepAddsItem(m.sched, l);
    if l.id in S.Step(m.sched, l).timers {
      C.StepKeepsInv(m.thread, C.Yield(sp));
      YieldKeepsOwners(base, m, C.Yield(sp));
    }
  }

  lemma WokenKeepsInv(base: seq<C.Co>, m: Machine, x: S.Id, sp: nat)
    requires Inv(base, m) && S.Enabled(m.sched, S.Drain) && x == m.sched.active[0] && x in m.owner
    requires C.Enabled(m.thread, C.Resume(m.owner[x], sp))
    ensures Inv(base, Woken(m, x, sp))
  {
    hide SR.Inv, C.Inv, C.Step, S.Step, C.Enabled;
    SR.StepKeepsInv(m.sched, S.Drain);
    RoundRemovesItem(m.sched);
    if x !in S.Step(m.sched, S.Drain).timers {
      C.StepKeepsInv(m.thread, C.Resume(m.owner[x], sp));
      ResumeKeepsOwners(base, m, m.owner[x], sp);
    }
  }

  lemma WakeKeepsInv(base: seq<C.Co>, m: Machine, sp: nat)
    requires Inv(base, m) && Possible(base, m, Wake(sp))
    ensures Inv(base, Do(base, m, Wake(sp)))
  {
    NextCanBeResumed(base, m, sp);
    WokenKeepsInv(base, m, m.sched.active[0], sp);
    hide Inv, Woken;
  }

  lemma SchedKeepsInv(base: seq<C.Co>, m: Machine, l: S.Label)
    requires Inv(base, m) && S.Enabled(m.sched, l) && S.GoodClock(m.sched, l)
    requires !l.StartPoll? && !l.StartWait? && !l.Drain?
    ensures Inv(base, m.(sched := S.Step(m.sched, l)))
  {
    hide SR.Inv, C.Inv, S.Step;
    SR.StepKeepsInv(m.sched, l);
    OthersKeepItems(m.sched, l);
  }

  lemma OwnKeepsInv(base: seq<C.Co>, m: Machine, e: C.Event)
    requires Inv(base, m) && Possible(base, m, Own(e))
    ensures Inv(base, Do(base, m, Own(e)))
  {
    hide SR.Inv, C.Inv, C.Step;
    C.StepKeepsInv(m.thread, e);
    if e.Resume? {
      ResumeKeepsOwners(base, m, e.co, e.sp);
      forall id | id in m.owner ensures m.owner[id] != e.co { assert !Asleep(m, e.co); }
    } else if R.Switches(e) {
      YieldKeepsOwners(base, m, e);
    } else {
      SimpleKeepsOwners(base, m, e);
    }
  }

  lemma MoveKeepsInv(base: seq<C.Co>, m: Machine, v: Move)
    requires Inv(base, m) && Possible(base, m, v)
    ensures Inv(base, Do(base, m, v))
  {
    hide Inv, S.Step, C.Step;
    match v
    case Sleep(l, sp) => SleepKeepsInv(base, m, l, sp);
    case Wake(sp) => WakeKeepsInv(base, m, sp);
    case Loop(l) => SchedKeepsInv(base, m, l);
    case Call(l) => SchedKeepsInv(base, m, l);
    case Own(e) => OwnKeepsInv(base, m, e);
  }

  // ---------------------------------------------------------------- runs

  /** A thread whose running coroutine enters the event loop. */
  function Begin(t: C.Thread, size: nat, start: nat): Machine {
    Machine(t, S.Init(size, start), map[])
  }

  lemma BeginInv(t: C.Thread, size: nat, start: nat)
    requires C.Inv(t) && Running(t) && size > 0 && start > 0
    ensures Inv(t.stack, Begin(t, size, start))
  {
    SR.InitInv(size, start);
  }

  ghost predicate IsRun(base: seq<C.Co>, ms: seq<Machine>, vs: seq<Move>) {
    && |ms| == |vs| + 1
    && forall i :: 0 <= i < |vs| ==>
         Possible(base, ms[i], vs[i]) && (Inv(base, ms[i]) ==> ms[i + 1] == Do(base, ms[i], vs[i]))
  }

  lemma {:induction false} RunKeepsInv(base: seq<C.Co>, ms: seq<Machine>, vs: seq<Move>, n: nat)
    requires IsRun(base, ms, vs) && Inv(base, ms[0]) && n <= |vs|
    ensures Inv(base, ms[n])
  {
    hide Inv, Possible, Do;
    if n > 0 {
      RunKeepsInv(base, ms, vs, n - 1);
      MoveKeepsInv(base, ms[n - 1], vs[n - 1]);
    }
  }

  lemma RunStep(base: seq<C.Co>, ms: seq<Machine>, vs: seq<Move>, i: nat)
    requires IsRun(base, ms, vs) && Inv(base, ms[0]) && i < |vs|
    ensures |ms| == |vs| + 1 && Inv(base, ms[i]) && Inv(base, ms[i + 1]) && Possible(base, ms[i], vs[i])
    ensures ms[i + 1] == Do(base, ms[i], vs[i]) && ms[i].thread.stack != []
  {
    RunKeepsInv(base, ms, vs, i);
    RunKeepsInv(base, ms, vs, i + 1);
    hide Inv, Do;
  }

  /** In every run: whenever the coroutine of the event loop runs, the call stack is the one on which
      it entered the loop, whatever the coroutines that it resumed have done in between. */
  lemma LoopHasItsStack(base: seq<C.Co>, ms: seq<Machine>, vs: seq<Move>, n: nat)
    requires IsRun(base, ms, vs) && Inv(base, ms[0]) && n <= |vs|
    requires ms[n].thread.stack != [] && C.Current(ms[n].thread) == Looper(base)
    ensures ms[n].thread.stack == base
  {
    hide Inv, Possible, Do;
    RunKeepsInv(base, ms, vs, n);
    OnTopOfBase(base, ms[n]);
  }

  lemma OnTopOfBase(base: seq<C.Co>, m: Machine)
    requires Inv(base, m) && C.Current(m.thread) == Looper(base)
    ensures m.thread.stack == base
  {
    StackFacts(m.thread);
    hide SR.Inv, C.Inv;
    var k, n := |base| - 1, |m.thread.stack| - 1;
    assert m.thread.stack[k] == base[k] == m.thread.stack[n];
  }

  lemma RoundAt(base: seq<C.Co>, m: Machine, sp: nat)
    requires Inv(base, m) && C.Current(m.thread) == Looper(base) && |base| < C.CALL_STACK_SIZE
    requires S.Enabled(m.sched, S.Drain) && C.SpOk(m.thread, Looper(base), sp)
    ensures Possible(base, m, Wake(sp))
    ensures var x, r := m.sched.active[0], Do(base, m, Wake(sp));
            x !in r.sched.timers ==> x in m.owner && r.thread.stack == base + [m.owner[x]]
  {
    OnTopOfBase(base, m);
    NextCanBeResumed(base, m, sp);
    ResumeKeepsOwners(base, m, m.owner[m.sched.active[0]], sp);
    hide Inv, C.Step, S.Step;
  }

  /** In every run: as long as there was room for one more coroutine when the loop was entered, every
      round of the draining loop is possible, and the coroutine it resumes goes on top of the loop's. */
  lemma RoundIsPossible(base: seq<C.Co>, ms: seq<Machine>, vs: seq<Move>, n: nat, sp: nat)
    requires IsRun(base, ms, vs) && Inv(base, ms[0]) && n <= |vs| && |base| < C.CALL_STACK_SIZE
    requires ms[n].thread.stack != [] && C.Current(ms[n].thread) == Looper(base)
    requires S.Enabled(ms[n].sched, S.Drain) && C.SpOk(ms[n].thread, Looper(base), sp)
    ensures Inv(base, ms[n]) && Possible(base, ms[n], Wake(sp))
    ensures var x, r := ms[n].sched.active[0], Do(base, ms[n], Wake(sp));
            x !in r.sched.timers ==> x in ms[n].owner && r.thread.stack == base + [ms[n].owner[x]]
  {
    hide Inv, Possible, Do, S.Enabled;
    RunKeepsInv(base, ms, vs, n);
    RoundAt(base, ms[n], sp);
  }
}
