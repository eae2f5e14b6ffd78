/** A coroutine on a shared stack finds its part of the stack as it left it when the event loop
    resumes it from a poll or a wait. */
module CoLoopStacks {
  import opened Wrappers
  import opened CoLoop
  import S = Scheduler
  import SR = SchedulerRuns
  import C = CoSwitch
  import R = CoRuns

  /** What a move does to the call stack and the stack memories. */
  ghost function EventOf(base: seq<C.Co>, m: Machine, v: Move): Option<C.Event>
    requires Inv(base, m) && Possible(base, m, v)
  {
    match v
    case Sleep(l, sp) => if l.id in Do(base, m, v).owner then Some(C.Yield(sp)) else None
    case Wake(sp) =>
      NextCanBeResumed(base, m, sp);
      var x := m.sched.active[0];
      if x in Do(base, m, v).owner then None else Some(C.Resume(m.owner[x], sp))
    case Own(e) => Some(e)
    case _ => None
  }

  lemma ThreadOf(base: seq<C.Co>, m: Machine, v: Move)
    requires Inv(base, m) && Possible(base, m, v)
    ensures C.Inv(m.thread)
    ensures match EventOf(base, m, v)
            case None => Do(base, m, v).thread == m.thread
            case Some(e) => C.Enabled(m.thread, e) && Do(base, m, v).thread == C.Step(m.thread, e)
  {
    if v.Wake? { NextCanBeResumed(base, m, v.sp); RoundRemovesItem(m.sched); }
    if v.Sleep? { SleepAddsItem(m.sched, v.l); }
    hide SR.Inv, C.Inv, C.Step, S.Step;
  }

  /** The move frees and resets no occupant of a stack memory. */
  ghost predicate Spares(m: Machine, v: Move) {
    v.Own? ==> R.SparesOccupants(m.thread, v.e)
  }

  lemma StaysOccupied(base: seq<C.Co>, m: Machine, v: Move)
    requires Inv(base, m) && Possible(base, m, v) && Spares(m, v) && R.Occupied(m.thread)
    ensures R.Occupied(Do(base, m, v).thread)
  {
    ThreadOf(base, m, v);
    hide Inv, Possible, Do, C.Inv, C.Step, C.Enabled, R.Occupied;
    var e := EventOf(base, m, v);
    if e.Some? { R.StaysOccupied(m.thread, e.value); }
  }

  lemma {:induction false} RunStaysOccupied(base: seq<C.Co>, ms: seq<Machine>, vs: seq<Move>, n: nat)
    requires IsRun(base, ms, vs) && Inv(base, ms[0]) && R.Occupied(ms[0].thread) && n <= |vs|
    requires forall i :: 0 <= i < n ==> Spares(ms[i], vs[i])
    ensures R.Occupied(ms[n].thread)
  {
    hide Inv, Possible, Do, Spares, R.Occupied;
    if n > 0 {
      RunStaysOccupied(base, ms, vs, n - 1);
      RunKeepsInv(base, ms, vs, n - 1);
      StaysOccupied(base, ms[n - 1], vs[n - 1]);
    }
  }

  /** `p` sleeps with item `id`, with mark `sp` on memory `mem` and contents `frame` left behind. */
  ghost predicate SleepsWith(m: Machine, id: S.Id, p: C.Co, mem: C.Mem, sp: nat, frame: seq<C.Byte>) {
    id in m.owner && m.owner[id] == p && R.Asleep(m.thread, p, mem, sp, frame)
  }

  lemma StaysStarted(t: C.Thread, e: C.Event, p: C.Co)
    requires C.Inv(t) && C.Enabled(t, e) && p in t.cos && t.cos[p].started && (e.Free? || e.Reset? ==> e.co != p)
    ensures p in C.Step(t, e).cos && C.Step(t, e).cos[p].started
  {
    if R.Switches(e) { R.SwitchLeaves(t, e, p); }
    hide C.Inv, C.Swap;
  }

  lemma SleepsOn(t: C.Thread, e: C.Event, p: C.Co, mem: C.Mem, sp: nat, frame: seq<C.Byte>)
    requires C.Inv(t) && C.Enabled(t, e) && R.Asleep(t, p, mem, sp, frame) && (e.Free? || e.Reset? ==> e.co != p)
    requires p !in t.stack && C.Step(t, e).stack != [] && p !in C.Step(t, e).stack
    ensures R.Asleep(C.Step(t, e), p, mem, sp, frame)
  {
    StaysStarted(t, e, p);
    hide C.Inv, C.Step, C.Enabled;
    R.SleepsOn(t, e, p, mem, sp, frame);
  }

  lemma SleeperOf(base: seq<C.Co>, m: Machine, id: S.Id)
    requires Inv(base, m) && id in m.owner
    ensures m.thread.stack != [] && m.owner[id] !in m.thread.stack && Asleep(m, m.owner[id])
  {
    hide SR.Inv, C.Inv;
    assert Sleeper(m.thread, m.owner[id]);
  }

  lemma OwnerStays(base: seq<C.Co>, m: Machine, v: Move, id: S.Id)
    requires Inv(base, m) && Possible(base, m, v) && id in m.owner && id in Do(base, m, v).owner
    ensures Do(base, m, v).owner[id] == m.owner[id]
  {
    if v.Sleep? { SleepAddsItem(m.sched, v.l); }
    hide SR.Inv, C.Inv, C.Step, S.Step;
  }

  lemma MoveKeepsSleep(
      base: seq<C.Co>, m: Machine, v: Move, id: S.Id, p: C.Co, mem: C.Mem, sp: nat, frame: seq<C.Byte>)
    requires Inv(base, m) && Possible(base, m, v) && SleepsWith(m, id, p, mem, sp, frame)
    requires id in Do(base, m, v).owner
    ensures SleepsWith(Do(base, m, v), id, p, mem, sp, frame)
  {
    ThreadOf(base, m, v);
    OwnerStays(base, m, v, id);
    SleeperOf(base, m, id);
    MoveKeepsInv(base, m, v);
    SleeperOf(base, Do(base, m, v), id);
    LeavesAlone(base, m, v, id);
    hide Inv, Possible, Do, C.Inv, C.Step, C.Enabled, R.Asleep;
    var e := EventOf(base, m, v);
    if e.Some? { SleepsOn(m.thread, e.value, p, mem, sp, frame); }
  }

  /** Nobody frees or resets a coroutine that sleeps. */
  lemma LeavesAlone(base: seq<C.Co>, m: Machine, v: Move, id: S.Id)
    requires Inv(base, m) && Possible(base, m, v) && id in m.owner
    ensures var e := EventOf(base, m, v);
            e.Some? && (e.value.Free? || e.value.Reset?) ==> e.value.co != m.owner[id]
  {
    SleeperOf(base, m, id);
    hide Inv, C.Enabled, S.Enabled;
  }

  lemma FallsAsleep(base: seq<C.Co>, m: Machine, l: S.Label, sp: nat)
    requires Inv(base, m) && Possible(base, m, Sleep(l, sp)) && l.id in Do(base, m, Sleep(l, sp)).owner
    requires C.Shares(m.thread, C.Current(m.thread)) && sp <= |C.MemOf(m.thread, C.Current(m.thread)).bytes|
    ensures var p := C.Current(m.thread);
            SleepsWith(Do(base, m, Sleep(l, sp)), l.id, p, m.thread.cos[p].mem.value, sp,
                       C.MemOf(m.thread, p).bytes[sp..])
  {
    var t, p, e := m.thread, C.Current(m.thread), C.Yield(sp);
    ThreadOf(base, m, Sleep(l, sp));
    SleepAddsItem(m.sched, l);
    CurrentIsStarted(t);
    R.FallsAsleep(t, e);
    StaysStarted(t, e, p);
    hide SR.Inv, C.Inv, C.Step, S.Step, C.Enabled, S.Enabled;
  }

  lemma CurrentIsStarted(t: C.Thread)
    requires C.Inv(t) && C.Shares(t, C.Current(t))
    ensures C.Current(t) in t.cos && t.cos[C.Current(t)].started
  {
    assert C.CoOk(t, C.Current(t));
  }

  lemma {:induction false} SleepsThrough(
      base: seq<C.Co>, ms: seq<Machine>, vs: seq<Move>, id: S.Id, k: nat, n: nat)
    requires IsRun(base, ms, vs) && Inv(base, ms[0]) && k < n <= |vs| && vs[k].Sleep? && vs[k].l.id == id
    requires forall j :: k < j <= n ==> id in ms[j].owner
    requires C.Shares(ms[k].thread, C.Current(ms[k].thread))
    requires vs[k].sp <= |C.MemOf(ms[k].thread, C.Current(ms[k].thread)).bytes|
    ensures var t := ms[k].thread;
            var p := C.Current(t);
            SleepsWith(ms[n], id, p, t.cos[p].mem.value, vs[k].sp, C.MemOf(t, p).bytes[vs[k].sp..])
  {
    hide IsRun, Inv, Possible, Do, SleepsWith;
    RunStep(base, ms, vs, k);
    RunStep(base, ms, vs, n - 1);
    var t := ms[k].thread;
    var p := C.Current(t);
    if n == k + 1 {
      FallsAsleep(base, ms[k], vs[k].l, vs[k].sp);
    } else {
      SleepsThrough(base, ms, vs, id, k, n - 1);
      MoveKeepsSleep(base, ms[n - 1], vs[n - 1], id, p, t.cos[p].mem.value, vs[k].sp, C.MemOf(t, p).bytes[vs[k].sp..]);
    }
  }

  /** Whoever is resumed finds what it left behind, since its stack memory has an occupant. */
  lemma WakesUp(base: seq<C.Co>, m: Machine, sp: nat, p: C.Co, mem: C.Mem, mark: nat, frame: seq<C.Byte>)
    requires Inv(base, m) && Possible(base, m, Wake(sp)) && R.Occupied(m.thread)
    requires SleepsWith(m, m.sched.active[0], p, mem, mark, frame)
    requires m.sched.active[0] !in Do(base, m, Wake(sp)).owner
    ensures var t := Do(base, m, Wake(sp)).thread;
            && t.stack == base + [p] && C.Shares(t, p) && mark <= |C.MemOf(t, p).bytes|
            && C.MemOf(t, p).bytes[mark..] == frame
  {
    var t, e := m.thread, C.Resume(p, sp);
    ThreadOf(base, m, Wake(sp));
    OnTopOfBase(base, m);
    R.StackStep(t, e);
    R.WakesUp(t, e, p);
    hide SR.Inv, C.Inv, C.Step, S.Step, C.Enabled, S.Enabled;
  }

  /** In every run that frees and resets no occupant: a coroutine on a shared stack that goes to sleep
      in a poll or a wait, at step `k`, and that the event loop resumes at step `i`, runs again on top
      of the loop's call stack and finds its part of the shared stack as it left it. */
  lemma SleepKeepsStack(base: seq<C.Co>, ms: seq<Machine>, vs: seq<Move>, id: S.Id, k: nat, i: nat)
    requires IsRun(base, ms, vs) && Inv(base, ms[0]) && R.Occupied(ms[0].thread) && k < i < |vs|
    requires forall n :: 0 <= n < i ==> Spares(ms[n], vs[n])
    requires vs[k].Sleep? && vs[k].l.id == id && forall j :: k < j <= i ==> id in ms[j].owner
    requires vs[i].Wake? && id !in ms[i + 1].owner
    requires C.Shares(ms[k].thread, C.Current(ms[k].thread))
    requires vs[k].sp <= |C.MemOf(ms[k].thread, C.Current(ms[k].thread)).bytes|
    ensures var p, sp, t := C.Current(ms[k].thread), vs[k].sp, ms[i + 1].thread;
            && t.stack == base + [p] && C.Shares(t, p) && sp <= |C.MemOf(t, p).bytes|
            && C.MemOf(t, p).bytes[sp..] == C.MemOf(ms[k].thread, p).bytes[sp..]
  {
    hide IsRun, Inv, Possible, Do, SleepsWith, R.Occupied, Spares;
    RunStep(base, ms, vs, k);
    RunStep(base, ms, vs, i);
    RunStaysOccupied(base, ms, vs, i);
    SleepsThrough(base, ms, vs, id, k, i);
    LeavingIsWaking(base, ms[i], vs[i].sp, id);
    var t := ms[k].thread;
    var p := C.Current(t);
    WakesUp(base, ms[i], vs[i].sp, p, t.cos[p].mem.value, vs[k].sp, C.MemOf(t, p).bytes[vs[k].sp..]);
  }

  lemma LeavingIsWaking(base: seq<C.Co>, m: Machine, sp: nat, id: S.Id)
    requires Inv(base, m) && Possible(base, m, Wake(sp)) && id in m.owner && id !in Do(base, m, Wake(sp)).owner
    ensures m.sched.active != [] && m.sched.active[0] == id
  {
    hide Inv, S.Step, C.Step;
  }
}
