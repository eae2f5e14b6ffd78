/** clsCoMutex of libco/co_comm.cpp as an object: a counter and a condition variable.  The run of
    the mutex machine that describes what has been done so far is kept in ghost fields. */
module CoComm {
  import opened Links
  import opened Scheduler
  import opened SchedulerOrder
  import opened SchedulerRuns
  import opened EventLoop
  import opened LoopMatch
  import opened TrackedLoop
  import opened CoMutex

  class ClsCoMutex {
    const loop: Loop
    const condSignal: CondLink
    var waitItemCnt: int
    ghost const c: Cond
    ghost var ms: seq<Mutex>
    ghost var vs: seq<Move>

    ghost predicate Valid()
      reads this, loop, loop.ep, loop.ep.wheel, loop.ep.wheel.lists, loop.ep.wheel.nodes
      reads QueueSet(loop.known.conds), loop.known.waiters
    {
      && loop.Valid() && |ms| > 0 && IsMutexRun(ms, vs) && MutexInv(M())
      && Mirrors(M())
    }

    /** The mutex machine has the counter of the object and the state of the event loop. */
    ghost predicate Mirrors(m: Mutex)
      reads this, loop
    {
      && |loop.states| > 0 && m.sched == loop.S() && m.c == c && m.count == waitItemCnt
      && c in loop.known.conds && loop.known.conds[c] == condSignal
    }

    ghost function M(): Mutex
      requires |ms| > 0
      reads this
    {
      ms[|ms| - 1]
    }

    /** What every operation ensures: the mutex machine has made the move `v`. */
    twostate predicate Moved(v: Move)
      reads this
    {
      && |old(ms)| > 0 && Possible(old(M()), v)
      && ms == old(ms) + [Do(old(M()), v)] && vs == old(vs) + [v]
    }

    /** The condition variable is new. */
    constructor (loop: Loop, condSignal: CondLink, ghost c: Cond)
      requires loop.Valid() && c in loop.known.conds && loop.known.conds[c] == condSignal
      requires forall id :: id in loop.S().past.arrivals ==> loop.S().past.arrivals[id].cond != c
      ensures Valid() && this.loop == loop && this.condSignal == condSignal && this.c == c
      ensures ms == [Mutex(c, loop.S(), 0, {}, [], [])] && vs == [] && waitItemCnt == 0
    {
      hide Loop.Valid, Inv;
      LoopInv(loop);
      LoopAllocated(loop);
      UnusedMutex(loop.S(), c);
      this.loop, this.condSignal, this.c, waitItemCnt := loop, condSignal, c, 0;
      ms, vs := [Mutex(c, loop.S(), 0, {}, [], [])], [];
    }

    ghost method Record(v: Move)
      requires loop.Valid() && |ms| > 0 && IsMutexRun(ms, vs) && MutexInv(M()) && Possible(M(), v)
      requires Mirrors(Do(M(), v))
      modifies this`ms, this`vs
      ensures Valid() && Moved(v)
    {
      hide Loop.Valid, MutexInv, Do, Possible;
      NotInLoop(loop, this);
      MoveKeepsInv(M(), v);
      ms, vs := ms + [Do(M(), v)], vs + [v];
    }

    /** CoLock: the call `id` has the lock at once if the counter is 0, and is queued otherwise. */
    method CoLock(ghost id: Id) returns (psi: Node?<CondItem>)
      requires Valid() && Possible(M(), Lock(id))
      modifies this, loop, loop.ep.wheel`start, loop.ep.wheel`idx, loop.ep.wheel`nodes, loop.ep.wheel.lists
      modifies loop.ep.wheel.nodes`next, condSignal, loop.known.waiters`next
      ensures Valid() && Moved(Lock(id)) && fresh(loop.ep.wheel.nodes - old(loop.ep.wheel.nodes))
      ensures if old(waitItemCnt) > 0 then loop.Queued(psi, id) else psi == null && unchanged(loop)
    {
      hide Loop.Valid, MutexInv, IsMutexRun, Step, Enabled, Inv, Possible, Do;
      LockIs(M(), id);
      LoopInv(loop);
      NotInLoop(loop, this);
      psi := null;
      if waitItemCnt > 0 {
        waitItemCnt := waitItemCnt + 1;
        UntimedWaitLives(loop.S(), id, c);
        var ret;
        psi, ret := loop.StartWait(condSignal, c, -1, 1, id);
      } else {
        waitItemCnt := waitItemCnt + 1;
      }
      Record(Lock(id));
    }

    /** CoUnLock by the call `id`: the longest waiter, if any, is handed the lock. */
    method CoUnLock(ghost id: Id)
      requires Valid() && Possible(M(), Unlock(id))
      modifies this, loop, loop.ep.wheel.lists
      modifies loop.ep.wheel.nodes`prev, loop.ep.wheel.nodes`next, loop.ep.wheel.nodes`link
      modifies condSignal, loop.known.waiters`prev, loop.known.waiters`next, loop.known.waiters`link
      ensures Valid() && Moved(Unlock(id)) && loop.known == old(loop.known) && loop.name == old(loop.name)
    {
      hide Loop.Valid, MutexInv, IsMutexRun, Step, Act, Inv;
      LoopInv(loop);
      NotInLoop(loop, this);
      waitItemCnt := waitItemCnt - 1;
      loop.Signal(condSignal, c);
      Record(Unlock(id));
    }

    /** A step of the event loop that has nothing to do with this mutex, except that it may resume
        one of its waiters. */
    ghost method Observe(l: Label)
      requires loop.Valid() && |ms| > 0 && IsMutexRun(ms, vs) && MutexInv(M()) && Possible(M(), Other(l))
      requires Mirrors(M().(sched := Step(M().sched, l)))
      modifies this`ms, this`vs
      ensures Valid() && Moved(Other(l))
    {
      hide Loop.Valid, MutexInv, IsMutexRun, Step;
      Record(Other(l));
    }

    /** At most one call is inside or has been handed the lock, the counter counts it and the
        queued waiters, and nobody is queued unless there is such a call. */
    lemma OneOwner()
      requires Valid()
      ensures var owners := |M().inside| + |Handed(M())|;
              && owners <= 1 && waitItemCnt == owners + |loop.ep.Waiters(condSignal)|
              && (loop.ep.Waiters(condSignal) != [] ==> owners == 1)
    {
      hide World, Inv, IsRun, IsMutexRun, Matches, Epoll.Waiters;
      var a := Now(loop.ep, loop.known);
      QueueIs(a, loop.S(), loop.name, c);
      assert QueueOf(a, c) == loop.ep.Waiters(condSignal);
    }
  }

  lemma LockIs(m: Mutex, id: Id)
    requires Possible(m, Lock(id))
    ensures id !in m.sched.past.used && Enabled(m.sched, StartWait(id, m.c, -1, 1))
    ensures var r := Do(m, Lock(id));
            && r.c == m.c && r.count == m.count + 1
            && r.sched == if m.count > 0 then Step(m.sched, StartWait(id, m.c, -1, 1)) else m.sched
  {
    hide Step;
  }

  /** A wait without a deadline never fails. */
  lemma UntimedWaitLives(s: State, id: Id, c: Cond)
    requires Enabled(s, StartWait(id, c, -1, 1))
    ensures id in Step(s, StartWait(id, c, -1, 1)).timers
  {
  }

  lemma LoopInv(loop: Loop)
    requires loop.Valid()
    ensures |loop.states| > 0 && Inv(loop.S())
  {
  }

  lemma LoopAllocated(loop: Loop)
    ensures forall o: object :: o in loop.ep.wheel.lists ==> allocated(o)
    ensures forall o: object :: o in loop.ep.wheel.nodes ==> allocated(o)
    ensures forall o: object :: o in QueueSet(loop.known.conds) ==> allocated(o)
    ensures forall o: object :: o in loop.known.waiters ==> allocated(o)
  {
  }

  /** A mutex is not one of the objects of an event loop. */
  lemma NotInLoop(loop: Loop, m: ClsCoMutex)
    ensures forall o: object :: o in loop.ep.wheel.lists ==> o != m
    ensures forall o: object :: o in loop.ep.wheel.nodes ==> o != m
    ensures forall o: object :: o in QueueSet(loop.known.conds) ==> o != m
    ensures forall o: object :: o in loop.known.waiters ==> o != m
  {
  }

  lemma UnusedMutex(s: State, c: Cond)
    requires Inv(s) && forall id :: id in s.past.arrivals ==> s.past.arrivals[id].cond != c
    ensures MutexInv(Mutex(c, s, 0, {}, [], []))
  {
    forall x | x in s.active && x in s.past.signalled ensures s.past.signalled[x] != c { assert Picked(s, x); }
    assert Queue(s, c) != [] ==> WaitsOn(s, Queue(s, c)[0], c);
    hide Inv;
    ActiveLineNone(s.active, s.past.signalled, c);
  }
}
