/** The coroutine mutex of libco/co_comm.cpp: a counter over a condition variable `c` that is
    used for nothing else.  The machine runs on top of the scheduler, whose other steps
    interleave freely with locking and unlocking. */
module CoMutex {
  import opened Seqs
  import opened WheelModel
  import opened Scheduler
  import opened SchedulerInv
  import opened SchedulerOrder
  import opened SchedulerRuns
  import opened SchedulerPolls

  /** `count` is m_iWaitItemCnt.  Each call of CoLock has its own identifier; `inside` are the
      calls that have returned and whose CoUnLock is still to come, `calls` and `acquired` the
      calls in the order in which they were made and in which they returned. */
  datatype Mutex = Mutex(c: Cond, sched: State, count: int, inside: set<Id>, calls: seq<Id>, acquired: seq<Id>)

  datatype Move = Lock(id: Id) | Unlock(id: Id) | Other(l: Label)

  function Start(c: Cond, size: nat, start: nat): Mutex {
    Mutex(c, Init(size, start), 0, {}, [], [])
  }

  /** The steps of the rest of the program leave the condition variable of the mutex alone. */
  predicate Foreign(l: Label, c: Cond) {
    match l
    case StartWait(_, d, _, _) => d != c
    case Signal(d) => d != c
    case Broadcast(d) => d != c
    case _ => true
  }

  predicate Possible(m: Mutex, v: Move) {
    && |m.sched.wheel.slots| > 0
    && match v
       case Lock(id) => id !in m.sched.past.used && id !in m.calls
       case Unlock(id) => id in m.inside
       case Other(l) => Enabled(m.sched, l) && GoodClock(m.sched, l) && Foreign(l, m.c)
                        && (l.StartPoll? || l.StartWait? ==> l.id !in m.calls)
  }

  /** A resumed waiter of the mutex returns from CoLock. */
  function Returned(m: Mutex, before: State): Mutex {
    var log := m.sched.past.log;
    if |log| > |before.past.log| && log[|log| - 1].id in m.calls
    then m.(inside := m.inside + {log[|log| - 1].id}, acquired := m.acquired + [log[|log| - 1].id])
    else m
  }

  /** A wait with -1 ms reads no clock, so its clock reading is arbitrary. */
  function Do(m: Mutex, v: Move): Mutex
    requires Possible(m, v)
  {
    match v
    case Lock(id) =>
      if m.count > 0
      then m.(count := m.count + 1, calls := m.calls + [id], sched := Step(m.sched, StartWait(id, m.c, -1, 1)))
      else m.(count := m.count + 1, calls := m.calls + [id], inside := m.inside + {id}, acquired := m.acquired + [id])
    case Unlock(id) =>
      m.(count := m.count - 1, inside := m.inside - {id}, sched := Step(m.sched, Signal(m.c)))
    case Other(l) => Returned(m.(sched := Step(m.sched, l)), m.sched)
  }

  /** The waiters an unlock has picked and that have not returned yet. */
  function Handed(m: Mutex): seq<Id> {
    ActiveLine(m.sched.active, m.sched.past.signalled, m.c)
  }

  /** Waits for the mutex have no deadline. */
  ghost predicate Untimed(s: State, c: Cond) {
    forall id :: id in s.past.arrivals && s.past.arrivals[id].cond == c ==> id !in s.past.stamps
  }

  ghost predicate MutexInv(m: Mutex) {
    && Inv(m.sched) && Untimed(m.sched, m.c)
    && m.calls == m.acquired + Handed(m) + Queue(m.sched, m.c)
    && m.count == |m.inside| + |Handed(m)| + |Queue(m.sched, m.c)|
    && |m.inside| + |Handed(m)| <= 1
    && (|m.inside| + |Handed(m)| == 0 ==> Queue(m.sched, m.c) == [])
    && (forall id :: id in m.inside ==> id in m.acquired && id == m.acquired[|m.acquired| - 1])
    && (forall id :: id in m.calls && id in m.sched.past.used ==>
          id in m.sched.past.arrivals && m.sched.past.arrivals[id].cond == m.c)
    && (forall id :: id in m.sched.past.arrivals && m.sched.past.arrivals[id].cond == m.c ==> id in m.calls)
  }

  // ---------------------------------------------------------------- what foreign steps do to the lists

  /** Neither the queue of `c` nor the picked waiters of `c` change, and nobody joins or leaves. */
  ghost predicate Undisturbed(s: State, r: State, c: Cond) {
    && Queue(r, c) == Queue(s, c)
    && ActiveLine(r.active, r.past.signalled, c) == ActiveLine(s.active, s.past.signalled, c)
    && SameWaiters(s, r, c)
    && r.past.log == s.past.log
  }

  ghost predicate SameWaiters(s: State, r: State, c: Cond) {
    && (forall id :: id in r.past.arrivals && r.past.arrivals[id].cond == c <==>
          id in s.past.arrivals && s.past.arrivals[id].cond == c)
    && (forall id :: id in s.past.arrivals && s.past.arrivals[id].cond == c ==>
          (id in r.past.stamps <==> id in s.past.stamps))
  }

  lemma StartPollIsUndisturbing(s: State, id: Id, timeout: int, now: nat, c: Cond)
    requires |s.wheel.slots| > 0 && timeout != 0 && id !in s.past.arrivals
    ensures Undisturbed(s, DoStartPoll(s, id, timeout, now), c)
  {
    hide AddTimeout, ActiveLine;
    AddFails(s.wheel, id, now + PollWait(timeout), now);
  }

  lemma StartWaitIsUndisturbing(s: State, id: Id, d: Cond, ms: int, now: nat, c: Cond)
    requires |s.wheel.slots| > 0 && id !in s.past.arrivals && d != c
    ensures Undisturbed(s, DoStartWait(s, id, d, ms, now), c)
  {
    hide AddTimeout, ActiveLine;
    if ms > 0 { AddFails(s.wheel, id, now + ms, now); }
  }

  lemma ReadyIsUndisturbing(s: State, id: Id, c: Cond)
    requires Inv(s) && id in s.timers && s.timers[id].kind.Poll?
    ensures Undisturbed(s, DoReady(s, id), c)
  {
    hide Inv, ActiveLine, Cancel;
    PollIsNotSignalled(s, id);
    ActiveLineAppend(Without(s.active, id), [id], s.past.signalled, c);
    ActiveLineNone([id], s.past.signalled, c);
    ActiveLineWithout(s.active, id, s.past.signalled, c);
  }

  lemma SignalIsUndisturbing(s: State, d: Cond, c: Cond)
    requires Inv(s) && d != c
    ensures Undisturbed(s, DoSignal(s, d), c)
  {
    hide Inv, ActiveLine, Cancel, Without;
    var q := Queue(s, d);
    if q != [] {
      HeadWaits(s, d);
      ActivateLine(s.active, s.past.signalled, q[0], d, c);
    }
  }

  lemma {:induction false} BroadcastIsUndisturbing(s: State, d: Cond, c: Cond)
    requires Inv(s) && d != c
    ensures Undisturbed(s, DoBroadcast(s, d), c)
    decreases |Queue(s, d)|
  {
    hide Inv, ActiveLine;
    if Queue(s, d) != [] {
      SignalIsUndisturbing(s, d, c);
      SignalKeepsInv(s, d);
      BroadcastIsUndisturbing(DoSignal(s, d), d, c);
    }
  }

  lemma TakeIsUndisturbing(s: State, now: nat, c: Cond)
    requires Inv(s) && |s.wheel.slots| > 0 && CountOk(|s.wheel.slots|, s.wheel.start, now)
    ensures Undisturbed(s, DoTake(s, now), c)
  {
    hide Inv, PlaceInv, WheelInv, TakeAll, ActiveLine, InWheel;
    WheelOf(s);
    TakeIsExact(s.wheel, s.past.stamps, now);
    var taken := TakeAll(s.wheel, now).1;
    forall x | x in taken ensures x !in s.past.signalled { TakenIsNotSignalled(s, x); }
    ActiveLineAppend(s.active, taken, s.past.signalled, c);
    ActiveLineNone(taken, s.past.signalled, c);
  }

  lemma TakenIsNotSignalled(s: State, x: Id)
    requires Inv(s) && InWheel(s.wheel, x)
    ensures x !in s.past.signalled
  {
    assert x in s.past.signalled ==> Picked(s, x);
  }

  /** All foreign steps but the draining loop leave the waiters of the mutex alone. */
  lemma ForeignIsUndisturbing(s: State, l: Label, c: Cond)
    requires Inv(s) && Enabled(s, l) && GoodClock(s, l) && Foreign(l, c) && !l.Drain?
    ensures Undisturbed(s, Act(s, l), c)
  {
    hide Inv, ActiveLine, DoDrain, DoTake, DoSignal, DoBroadcast, DoReady, DoStartPoll, DoStartWait;
    match l
    case Ready(id) => ReadyIsUndisturbing(s, id, c);
    case Signal(d) => SignalIsUndisturbing(s, d, c);
    case Broadcast(d) => BroadcastIsUndisturbing(s, d, c);
    case Take(now) => TakeIsUndisturbing(s, now, c);
    case EndPass =>
    case StartPoll(id, timeout, now) => FreshItem(s, id); StartPollIsUndisturbing(s, id, timeout, now, c);
    case StartWait(id, d, ms, now) => FreshItem(s, id); StartWaitIsUndisturbing(s, id, d, ms, now, c);
  }

  /** A waiter of the mutex in the active list has been picked, and its turn ends in its return. */
  lemma WaiterInActive(s: State, c: Cond, x: Id)
    requires Inv(s) && Untimed(s, c) && x in s.active && x in s.past.arrivals && s.past.arrivals[x].cond == c
    ensures x in s.past.signalled && s.past.signalled[x] == c && x !in Queue(s, c) && !s.timers[x].timedOut
  {
    hide Inv, InWheel;
    ActiveItem(s, x);
    NotQueuedIfSignalled(s, c, x);
  }

  lemma NotQueuedIfSignalled(s: State, c: Cond, x: Id)
    requires Inv(s)
    ensures x in s.past.signalled ==> x !in Queue(s, c)
  {
  }

  /** The head of the active list is a waiter of the mutex. */
  ghost predicate OurTurn(s: State, c: Cond)
    requires s.active != []
  {
    s.active[0] in s.past.arrivals && s.past.arrivals[s.active[0]].cond == c
  }

  /** A draining step either passes the mutex by or returns its first picked waiter. */
  lemma OurTurnReturns(s: State, c: Cond)
    requires Inv(s) && Untimed(s, c) && Enabled(s, Drain) && OurTurn(s, c)
    ensures var r, x := DoDrain(s), s.active[0];
            && Queue(r, c) == Queue(s, c) && SameWaiters(s, r, c)
            && ActiveLine(s.active, s.past.signalled, c) == [x] + ActiveLine(r.active, r.past.signalled, c)
            && r.past.log == s.past.log + [r.past.log[|s.past.log|]] && r.past.log[|s.past.log|].id == x
  {
    hide Inv, ActiveLine, AddTimeout, NoDup;
    ActiveIsNoDup(s);
    ActiveLineTail(s.active, s.past.signalled, c);
    WaiterInActive(s, c, s.active[0]);
  }

  lemma ActiveIsNoDup(s: State)
    requires Inv(s)
    ensures NoDup(s.active)
  {
  }

  lemma HeadIsForeign(s: State, c: Cond)
    requires Inv(s) && s.active != [] && !OurTurn(s, c)
    ensures s.active[0] !in Queue(s, c)
    ensures s.active[0] in s.past.signalled ==> s.past.signalled[s.active[0]] != c
  {
    var x := s.active[0];
    assert x in s.past.signalled ==> Picked(s, x);
    assert x in Queue(s, c) ==> WaitsOn(s, x, c);
  }

  lemma TheirTurnPassesBy(s: State, c: Cond)
    requires Inv(s) && Enabled(s, Drain) && !OurTurn(s, c)
    ensures var r, x := DoDrain(s), s.active[0];
            && Queue(r, c) == Queue(s, c) && SameWaiters(s, r, c)
            && ActiveLine(r.active, r.past.signalled, c) == ActiveLine(s.active, s.past.signalled, c)
            && (r.past.log == s.past.log
                || (|r.past.log| == |s.past.log| + 1 && r.past.log[|s.past.log|].id == x))
  {
    hide Inv, ActiveLine, AddTimeout, NoDup;
    ActiveIsNoDup(s);
    ActiveLineTail(s.active, s.past.signalled, c);
    HeadIsForeign(s, c);
  }

  // ---------------------------------------------------------------- the invariant, move by move

  lemma LockKeepsInv(m: Mutex, id: Id)
    requires MutexInv(m) && Possible(m, Lock(id))
    ensures MutexInv(Do(m, Lock(id)))
  {
    if m.count > 0 {
      LockWaits(m, id);
    }
  }

  lemma LockWaits(m: Mutex, id: Id)
    requires MutexInv(m) && Possible(m, Lock(id)) && m.count > 0
    ensures MutexInv(Do(m, Lock(id)))
  {
    hide Inv, ActiveLine, AddTimeout;
    var s := m.sched;
    FreshItem(s, id);
    StartWaitKeepsInv(s, id, m.c, -1, 1);
    FreshHasNoStamp(s, id);
  }

  lemma FreshHasNoStamp(s: State, id: Id)
    requires Inv(s) && id !in s.past.used
    ensures id !in s.past.stamps
  {
  }

  /** A signal moves the first waiter, if there is one, from the queue to the picked ones. */
  lemma SignalLists(s: State, c: Cond)
    requires Inv(s)
    ensures var q, r := Queue(s, c), DoSignal(s, c);
            && Queue(r, c) == q[if q == [] then 0 else 1..]
            && ActiveLine(r.active, r.past.signalled, c) ==
               ActiveLine(s.active, s.past.signalled, c) + q[..if q == [] then 0 else 1]
            && r.past.arrivals == s.past.arrivals && r.past.stamps == s.past.stamps && r.past.used == s.past.used
  {
    hide Inv, ActiveLine, Cancel, Without;
    var q := Queue(s, c);
    if q != [] {
      HeadWaits(s, c);
      ActivateLine(s.active, s.past.signalled, q[0], c, c);
    }
  }

  lemma UnlockKeepsInv(m: Mutex, id: Id)
    requires MutexInv(m) && Possible(m, Unlock(id))
    ensures MutexInv(Do(m, Unlock(id)))
  {
    hide Inv, ActiveLine, DoSignal;
    SignalKeepsInv(m.sched, m.c);
    TickKeepsInv(DoSignal(m.sched, m.c));
    SignalLists(m.sched, m.c);
    SingleInside(m, id);
    var q := Queue(m.sched, m.c);
    assert q != [] ==> q == q[..1] + q[1..];
  }

  lemma SingleInside(m: Mutex, id: Id)
    requires |m.inside| <= 1 && id in m.inside
    ensures m.inside == {id} && |m.inside| == 1
  {
    assert |m.inside - {id}| == |m.inside| - 1;
  }

  /** A foreign step that returns nobody from CoLock. */
  lemma UndisturbedKeepsInv(m: Mutex, r: State)
    requires MutexInv(m) && Inv(r) && m.sched.past.used <= r.past.used
    requires Queue(r, m.c) == Queue(m.sched, m.c) && SameWaiters(m.sched, r, m.c)
    requires ActiveLine(r.active, r.past.signalled, m.c) == Handed(m)
    requires forall id :: id in r.past.used && id !in m.sched.past.used ==> id !in m.calls
    ensures MutexInv(m.(sched := r))
  {
    hide Inv, ActiveLine;
  }

  lemma OtherKeepsInv(m: Mutex, l: Label)
    requires MutexInv(m) && Possible(m, Other(l)) && !l.Drain?
    ensures MutexInv(Do(m, Other(l)))
  {
    hide Inv, ActiveLine, Act;
    StepKeepsInv(m.sched, l);
    ForeignIsUndisturbing(m.sched, l, m.c);
    UsedGrows(m.sched, l);
    UndisturbedKeepsInv(m, Step(m.sched, l));
  }

  lemma UsedGrows(s: State, l: Label)
    requires Enabled(s, l)
    ensures var r := Step(s, l);
            && s.past.used <= r.past.used
            && forall id :: id in r.past.used && id !in s.past.used ==> (l.StartPoll? || l.StartWait?) && l.id == id
  {
    hide AddTimeout, TakeAll, DoBroadcast;
    if l.Broadcast? { BroadcastKeepsTimers(s, l.cond); }
  }

  /** A step that returns the picked waiter `x` from CoLock. */
  lemma ReturnKeepsInv(m: Mutex, r: State, x: Id)
    requires MutexInv(m) && Inv(r) && m.sched.past.used <= r.past.used
    requires Queue(r, m.c) == Queue(m.sched, m.c) && SameWaiters(m.sched, r, m.c)
    requires Handed(m) == [x] + ActiveLine(r.active, r.past.signalled, m.c)
    requires forall id :: id in r.past.used && id !in m.sched.past.used ==> id !in m.calls
    ensures MutexInv(m.(sched := r, inside := m.inside + {x}, acquired := m.acquired + [x]))
  {
    hide Inv, ActiveLine;
    assert m.inside == {} && Handed(m) == [x];
    assert m.acquired + [x] + Queue(m.sched, m.c) == m.calls;
  }

  lemma DrainKeepsInv(m: Mutex)
    requires MutexInv(m) && Possible(m, Other(Drain))
    ensures MutexInv(Do(m, Other(Drain)))
  {
    hide Inv, ActiveLine, DoDrain, Handed;
    var s, r := m.sched, Step(m.sched, Drain);
    StepKeepsInv(s, Drain);
    UsedGrows(s, Drain);
    if OurTurn(s, m.c) {
      OurTurnReturns(s, m.c);
      HandedIs(m);
      ReturnKeepsInv(m, r, s.active[0]);
    } else {
      TheirTurnPassesBy(s, m.c);
      HeadIsUsed(s);
      HandedIs(m);
      UndisturbedKeepsInv(m, r);
    }
  }

  lemma HandedIs(m: Mutex)
    ensures Handed(m) == ActiveLine(m.sched.active, m.sched.past.signalled, m.c)
  {
  }

  lemma HeadIsUsed(s: State)
    requires Inv(s) && s.active != []
    ensures s.active[0] in s.past.used
  {
  }

  lemma MoveKeepsInv(m: Mutex, v: Move)
    requires MutexInv(m) && Possible(m, v)
    ensures MutexInv(Do(m, v))
  {
    hide MutexInv, Do;
    match v
    case Lock(id) => LockKeepsInv(m, id);
    case Unlock(id) => UnlockKeepsInv(m, id);
    case Other(l) => if l.Drain? { DrainKeepsInv(m); } else { OtherKeepsInv(m, l); }
  }

  /** A run of the mutex and the program around it, in which only the owner unlocks. */
  ghost predicate IsMutexRun(ms: seq<Mutex>, vs: seq<Move>) {
    && |ms| == |vs| + 1
    && forall i :: 0 <= i < |vs| ==> Possible(ms[i], vs[i]) && ms[i + 1] == Do(ms[i], vs[i])
  }

  lemma {:induction false} RunKeepsMutexInv(ms: seq<Mutex>, vs: seq<Move>, n: nat)
    requires IsMutexRun(ms, vs) && MutexInv(ms[0]) && n <= |vs|
    ensures MutexInv(ms[n])
  {
    hide MutexInv, Possible, Do;
    if n > 0 {
      RunKeepsMutexInv(ms, vs, n - 1);
      MoveKeepsInv(ms[n - 1], vs[n - 1]);
    }
  }

  lemma MutexStart(c: Cond, size: nat, start: nat)
    requires size > 0 && start > 0
    ensures MutexInv(Start(c, size, start))
  {
    InitInv(size, start);
  }

  /** In every run: at most one call is inside or has the lock handed to it; the counter counts
      that call and the queued ones; calls get the lock in the order they asked for it; and as
      long as somebody waits, somebody is inside or next. */
  lemma MutualExclusion(ms: seq<Mutex>, vs: seq<Move>, c: Cond, size: nat, start: nat)
    requires IsMutexRun(ms, vs) && size > 0 && start > 0 && ms[0] == Start(c, size, start)
    ensures var m := ms[|vs|];
            var queued := Queue(m.sched, m.c);
            && |m.inside| + |Handed(m)| <= 1
            && m.count == |m.inside| + |Handed(m)| + |queued|
            && m.acquired + Handed(m) + queued == m.calls
            && (queued != [] ==> |m.inside| + |Handed(m)| == 1)
  {
    hide Inv, Do, Possible, Handed, Untimed;
    MutexStart(c, size, start);
    RunKeepsMutexInv(ms, vs, |vs|);
  }

  // ---------------------------------------------------------------- the lock is passed on

  /** The calls that have returned, and the one that has been handed the lock. */
  function Served(m: Mutex): seq<Id> {
    m.acquired + Handed(m)
  }

  lemma OtherStaysServed(m: Mutex, l: Label)
    requires MutexInv(m) && Possible(m, Other(l)) && !l.Drain?
    ensures |Served(m)| <= |Served(Do(m, Other(l)))|
  {
    hide Inv, ActiveLine, Act;
    ForeignIsUndisturbing(m.sched, l, m.c);
  }

  lemma DrainStaysServed(m: Mutex)
    requires MutexInv(m) && Possible(m, Other(Drain))
    ensures |Served(m)| <= |Served(Do(m, Other(Drain)))|
  {
    hide Inv, ActiveLine, DoDrain;
    if OurTurn(m.sched, m.c) { OurTurnReturns(m.sched, m.c); } else { TheirTurnPassesBy(m.sched, m.c); }
  }

  lemma LockStaysServed(m: Mutex, id: Id)
    requires MutexInv(m) && Possible(m, Lock(id))
    ensures |Served(m)| <= |Served(Do(m, Lock(id)))|
  {
    hide Inv, ActiveLine, AddTimeout;
  }

  /** An unlock hands the lock to the first waiter, if there is one. */
  lemma UnlockHandsOver(m: Mutex, id: Id)
    requires MutexInv(m) && Possible(m, Unlock(id))
    ensures var q := Queue(m.sched, m.c);
            Served(Do(m, Unlock(id))) == m.acquired + if q == [] then [] else [q[0]]
  {
    hide Inv, ActiveLine, DoSignal;
    SignalLists(m.sched, m.c);
    SingleInside(m, id);
    assert Handed(m) == [];
  }

  lemma UnlockStaysServed(m: Mutex, id: Id)
    requires MutexInv(m) && Possible(m, Unlock(id))
    ensures |Served(m)| <= |Served(Do(m, Unlock(id)))|
  {
    UnlockHandsOver(m, id);
    SingleInside(m, id);
    hide Inv, Do;
  }

  lemma CallsGrow(m: Mutex, v: Move)
    requires Possible(m, v)
    ensures m.calls <= Do(m, v).calls
  {
    hide Step;
  }

  lemma ServedFirst(m: Mutex)
    requires MutexInv(m)
    ensures Served(m) <= m.calls
  {
    hide Inv, Handed;
  }

  /** Nobody who has got the lock, or has been handed it, has to queue up again. */
  lemma StaysServed(m: Mutex, v: Move)
    requires MutexInv(m) && Possible(m, v)
    ensures Served(m) <= Served(Do(m, v))
  {
    hide MutexInv, Do, Served;
    MoveKeepsInv(m, v);
    CallsGrow(m, v);
    ServedFirst(m);
    ServedFirst(Do(m, v));
    match v
    case Lock(id) => LockStaysServed(m, id);
    case Unlock(id) => UnlockStaysServed(m, id);
    case Other(l) => if l.Drain? { DrainStaysServed(m); } else { OtherStaysServed(m, l); }
  }

  lemma {:induction false} RunStaysServed(ms: seq<Mutex>, vs: seq<Move>, k: nat, n: nat)
    requires IsMutexRun(ms, vs) && MutexInv(ms[0]) && k <= n <= |vs|
    ensures Served(ms[k]) <= Served(ms[n])
  {
    hide MutexInv, Possible, Do, Served;
    if k < n {
      RunStaysServed(ms, vs, k, n - 1);
      RunKeepsMutexInv(ms, vs, n - 1);
      StaysServed(ms[n - 1], vs[n - 1]);
      PrefixTwice(Served(ms[k]), Served(ms[n - 1]), Served(ms[n]));
    }
  }

  lemma PrefixTwice(a: seq<Id>, b: seq<Id>, c: seq<Id>)
    requires a <= b <= c
    ensures a <= c
  {
  }

  /** With the active list empty, nobody is on the way back from CoLock. */
  lemma NobodyIsHanded(m: Mutex)
    requires Possible(m, Other(EndPass))
    ensures Served(Do(m, Other(EndPass))) == Do(m, Other(EndPass)).acquired
  {
  }

  /** In every run: whoever an unlock hands the lock to has returned from CoLock when the pass
      ends, and nobody else has got the lock before. */
  lemma HandedReturns(ms: seq<Mutex>, vs: seq<Move>, c: Cond, size: nat, start: nat, k: nat, e: nat)
    requires IsMutexRun(ms, vs) && size > 0 && start > 0 && ms[0] == Start(c, size, start)
    requires k < e < |vs| && vs[k].Unlock? && Queue(ms[k].sched, ms[k].c) != [] && vs[e] == Other(EndPass)
    ensures ms[k].acquired + [Queue(ms[k].sched, ms[k].c)[0]] <= ms[e + 1].acquired
  {
    hide MutexInv, Possible, Do, Served;
    MutexStart(c, size, start);
    RunKeepsMutexInv(ms, vs, k);
    RunStaysServed(ms, vs, k + 1, e + 1);
    UnlockHandsOver(ms[k], vs[k].id);
    NobodyIsHanded(ms[e]);
  }
}
