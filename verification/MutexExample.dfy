/** Two coroutines contend for a mutex of libco/co_comm.cpp: the second is queued, gets the lock from
    the first, and returns from CoLock in the next pass of the event loop. */
module MutexExample {
  import opened Scheduler
  import opened SchedulerRuns
  import opened TimerWheel
  import opened EventLoop
  import opened TrackedLoop
  import opened LoopPass
  import opened CoMutex
  import opened CoComm
  import WheelModel

  /** The mutex has seen the run that `ms` and `vs` describe. */
  ghost predicate Seen(m: ClsCoMutex, l: Label)
    reads m
  {
    |m.ms| > 0 && IsMutexRun(m.ms, m.vs) && MutexInv(m.M()) && Possible(m.M(), Other(l))
  }

  lemma MutexIs(m: ClsCoMutex, l: Label)
    requires m.Valid() && Enabled(m.loop.S(), l) && GoodClock(m.loop.S(), l) && (l.Take? || l.Drain? || l.EndPass?)
    ensures Seen(m, l) && m.Mirrors(m.M()) && m.M().sched == m.loop.S()
  {
    hide Loop.Valid, MutexInv, IsMutexRun;
  }

  lemma InvIs(s: State)
    requires Inv(s)
    ensures |s.wheel.slots| > 0
  {
  }

  /** What a pass does not change about a mutex. */
  ghost predicate SameCalls(m: Mutex, r: Mutex) {
    r.calls == m.calls && r.count == m.count && r.c == m.c
  }

  lemma OtherKeepsCalls(m: Mutex, l: Label)
    requires Possible(m, Other(l))
    ensures SameCalls(m, Do(m, Other(l))) && Do(m, Other(l)).sched == Step(m.sched, l)
  {
    hide Step;
  }

  lemma MutexState(m: ClsCoMutex)
    requires m.Valid()
    ensures |m.ms| > 0 && MutexInv(m.M()) && m.M().sched == m.loop.S() && |m.loop.states| > 0
    ensures m.M().c == m.c && m.M().count == m.waitItemCnt
  {
    hide Loop.Valid, MutexInv, IsMutexRun;
  }

  lemma RoundOf(s: State)
    requires Inv(s) && Enabled(s, Drain)
    ensures Step(s, Drain).phase == s.phase && |Step(s, Drain).active| < |s.active|
  {
    hide Inv;
    RoundIs(s);
  }

  lemma PassOf(s: State, now: nat)
    ensures Enabled(s, Label.Take(now)) ==> Step(s, Label.Take(now)).phase == Draining(now)
    ensures Enabled(s, EndPass) ==> Step(s, EndPass).phase.Idle? && Step(s, EndPass).active == []
  {
    hide WheelModel.TakeAll;
  }

  /** A round of the draining loop, with the mutex looking on. */
  method ObservedRound(m: ClsCoMutex, now: nat, nodes: map<Item, CondNode>)
    requires m.Valid() && m.loop.S().phase == Draining(now) && m.loop.S().active != [] && NodesOf(m.loop, nodes)
    modifies m`ms, m`vs, m.loop, m.loop.ep.wheel`start, m.loop.ep.wheel`idx, m.loop.ep.wheel.lists, m.loop.ep.wheel.nodes
    modifies QueueSet(m.loop.known.conds)
    modifies m.loop.known.waiters`prev, m.loop.known.waiters`next, m.loop.known.waiters`link
    ensures m.Valid() && m.Moved(Other(Drain)) && NodesOf(m.loop, nodes)
    ensures m.loop.known == old(m.loop.known).(live := m.loop.known.live)
  {
    hide Loop.Valid, MutexInv, IsMutexRun, Inv, Step, Enabled, Possible, Do, NodesOf, Later, QueueSet;
    LoopPass.CanDrainHead(m.loop);
    MutexIs(m, Drain);
    NotInLoop(m.loop, m);
    AnyRound(m.loop, now, nodes);
    m.Observe(Drain);
  }

  /** The pass begins. */
  method ObservedTake(m: ClsCoMutex, now: nat, ghost nodes: map<Item, CondNode>)
    requires m.Valid() && m.loop.S().phase.Idle? && GoodClock(m.loop.S(), Label.Take(now)) && NodesOf(m.loop, nodes)
    modifies m`ms, m`vs, m.loop, m.loop.ep.wheel`start, m.loop.ep.wheel`idx, m.loop.ep.wheel.lists, m.loop.ep.wheel.nodes
    ensures m.Valid() && m.loop.S().phase == Draining(now) && SameCalls(old(m.M()), m.M())
    ensures NodesOf(m.loop, nodes) && m.loop.known == old(m.loop.known)
  {
    hide Loop.Valid, MutexInv, IsMutexRun, Inv, Step, Possible, Do, NodesOf, QueueSet, GoodClock;
    StateOf(m.loop);
    InvIs(m.loop.S());
    PassOf(m.loop.S(), now);
    MutexIs(m, Label.Take(now));
    OtherKeepsCalls(m.M(), Label.Take(now));
    NotInLoop(m.loop, m);
    LoopPass.Take(m.loop, now, nodes);
    m.Observe(Label.Take(now));
  }

  /** The pass ends. */
  method ObservedEnd(m: ClsCoMutex, ghost nodes: map<Item, CondNode>)
    requires m.Valid() && m.loop.S().phase.Draining? && m.loop.S().active == [] && NodesOf(m.loop, nodes)
    modifies m`ms, m`vs, m.loop
    ensures m.Valid() && m.loop.S().phase.Idle? && m.loop.S().active == [] && SameCalls(old(m.M()), m.M())
    ensures NodesOf(m.loop, nodes) && m.loop.known == old(m.loop.known)
  {
    hide Loop.Valid, MutexInv, IsMutexRun, Inv, Step, Enabled, Possible, Do, QueueSet, Later, NodesAt, SameKinds;
    ghost var s, k, name := m.loop.S(), m.loop.known, m.loop.name;
    CanDrainHead(m.loop);
    ActiveEmpty(m.loop);
    PassOf(s, 0);
    MutexIs(m, EndPass);
    OtherKeepsCalls(m.M(), EndPass);
    NotInLoop(m.loop, m);
    m.loop.EndPass();
    m.Observe(EndPass);
    StepKeepsKinds(s, EndPass);
    NodesStay(k, name, s, m.loop.S(), nodes);
  }

  /** The rounds of a pass. */
  method ObservedRounds(m: ClsCoMutex, now: nat, nodes: map<Item, CondNode>)
    requires m.Valid() && m.loop.S().phase == Draining(now) && NodesOf(m.loop, nodes)
    modifies m`ms, m`vs, m.loop, m.loop.ep.wheel`start, m.loop.ep.wheel`idx, m.loop.ep.wheel.lists, m.loop.ep.wheel.nodes
    modifies QueueSet(m.loop.known.conds)
    modifies m.loop.known.waiters`prev, m.loop.known.waiters`next, m.loop.known.waiters`link
    ensures m.Valid() && m.loop.S().phase == Draining(now) && m.loop.S().active == [] && NodesOf(m.loop, nodes)
    ensures SameCalls(old(m.M()), m.M()) && m.loop.known == old(m.loop.known).(live := m.loop.known.live)
  {
    hide Loop.Valid, MutexInv, IsMutexRun, Inv, Step, Enabled, Possible, Do, NodesOf, QueueSet, Later;
    MutexState(m);
    ghost var m0 := m.M();
    HeadTells(m.loop);
    while m.loop.ep.active.head != null
      invariant m.Valid() && m.loop.S().phase == Draining(now) && NodesOf(m.loop, nodes)
      invariant SameCalls(m0, m.M()) && m.loop.known == old(m.loop.known).(live := m.loop.known.live)
      invariant m.loop.ep.active.head == null <==> m.loop.S().active == []
      decreases |m.loop.S().active|
    {
      CanDrainHead(m.loop);
      RoundOf(m.loop.S());
      MutexIs(m, Drain);
      OtherKeepsCalls(m.M(), Drain);
      ObservedRound(m, now, nodes);
      MutexState(m);
      HeadTells(m.loop);
    }
  }

  /** A whole pass; the coroutines that it resumes do nothing that concerns the loop. */
  method ObservedPass(m: ClsCoMutex, now: nat, nodes: map<Item, CondNode>)
    requires m.Valid() && m.loop.S().phase.Idle? && GoodClock(m.loop.S(), Label.Take(now)) && NodesOf(m.loop, nodes)
    modifies m`ms, m`vs, m.loop, m.loop.ep.wheel`start, m.loop.ep.wheel`idx, m.loop.ep.wheel.lists, m.loop.ep.wheel.nodes
    modifies QueueSet(m.loop.known.conds)
    modifies m.loop.known.waiters`prev, m.loop.known.waiters`next, m.loop.known.waiters`link
    ensures m.Valid() && m.loop.S().phase.Idle? && m.loop.S().active == [] && NodesOf(m.loop, nodes)
    ensures SameCalls(old(m.M()), m.M()) && m.loop.known == old(m.loop.known).(live := m.loop.known.live)
  {
    hide Loop.Valid, MutexInv, IsMutexRun, NodesOf, QueueSet, GoodClock;
    ObservedTake(m, now, nodes);
    ObservedRounds(m, now, nodes);
    ObservedEnd(m, nodes);
  }

  // ---------------------------------------------------------------- two calls

  /** CoLock up to its yield, if it yields; a waiting call's frame has its node. */
  method Lock(m: ClsCoMutex, nodes: map<Item, CondNode>, ghost id: Id) returns (nodes': map<Item, CondNode>)
    requires m.Valid() && Possible(m.M(), Move.Lock(id)) && NodesOf(m.loop, nodes)
    modifies m, m.loop, m.loop.ep.wheel`start, m.loop.ep.wheel`idx, m.loop.ep.wheel`nodes, m.loop.ep.wheel.lists
    modifies m.loop.ep.wheel.nodes`next, m.condSignal, m.loop.known.waiters`next
    ensures m.Valid() && m.Moved(Move.Lock(id)) && NodesOf(m.loop, nodes')
    ensures m.loop.known.conds == old(m.loop.known).conds && fresh(m.loop.known.waiters - old(m.loop.known).waiters)
    ensures fresh(m.loop.ep.wheel.nodes - old(m.loop.ep.wheel.nodes))
  {
    hide Loop.Valid, MutexInv, IsMutexRun, Inv, Step, Enabled, Possible, Do, QueueSet, NodesAt, SameKinds;
    ghost var s, k, name := m.loop.S(), m.loop.known, m.loop.name;
    StateOf(m.loop);
    MutexState(m);
    LockIs(m.M(), id);
    var psi := m.CoLock(id);
    MutexState(m);
    if psi == null {
      nodes' := nodes;
    } else {
      nodes' := nodes[psi.payload.timeout := psi];
      StepKeepsKinds(s, StartWait(id, m.c, -1, 1));
      NodeAdded(k, name, s, m.loop.S(), nodes, psi, id);
    }
  }

  /** CoUnLock. */
  method Unlock(m: ClsCoMutex, ghost nodes: map<Item, CondNode>, ghost id: Id)
    requires m.Valid() && Possible(m.M(), Move.Unlock(id)) && NodesOf(m.loop, nodes)
    modifies m, m.loop, m.loop.ep.wheel.lists
    modifies m.loop.ep.wheel.nodes`prev, m.loop.ep.wheel.nodes`next, m.loop.ep.wheel.nodes`link
    modifies m.condSignal, m.loop.known.waiters`prev, m.loop.known.waiters`next, m.loop.known.waiters`link
    ensures m.Valid() && m.Moved(Move.Unlock(id)) && NodesOf(m.loop, nodes) && m.loop.known == old(m.loop.known)
  {
    hide Loop.Valid, MutexInv, IsMutexRun, Inv, Step, QueueSet, NodesAt, SameKinds;
    ghost var s, k, name := m.loop.S(), m.loop.known, m.loop.name;
    StateOf(m.loop);
    MutexState(m);
    m.CoUnLock(id);
    MutexState(m);
    StepKeepsKinds(s, Label.Signal(m.c));
    NodesStay(k, name, s, m.loop.S(), nodes);
  }

  /** The first call has the lock at once. */
  lemma FirstHasIt(m: Mutex, a: Id, b: Id)
    requires MutexInv(m) && m.count == 0 && a != b && {a, b} !! m.sched.past.used && a !in m.calls && b !in m.calls
    ensures Possible(m, Move.Lock(a))
    ensures var r := Do(m, Move.Lock(a));
            && r.count == 1 && r.inside == {a} && r.calls == m.calls + [a] && r.sched == m.sched && r.c == m.c
            && Possible(r, Move.Lock(b))
  {
    InvIs(m.sched);
    hide Inv, Step, Handed, Untimed;
    assert m.inside == {};
  }

  /** The second waits, and gets the lock from the first. */
  lemma SecondIsHandedIt(m: Mutex, a: Id, b: Id)
    requires m.count == 1 && m.inside == {a} && Possible(m, Move.Lock(b))
    ensures var r := Do(m, Move.Lock(b));
            && Possible(r, Move.Unlock(a)) && r.calls == m.calls + [b]
            && var t := Do(r, Move.Unlock(a));
               && t.count == 1 && t.calls == m.calls + [b] && t.sched.phase == m.sched.phase && t.c == m.c
               && t.sched.wheel.start == m.sched.wheel.start && |t.sched.wheel.slots| == |m.sched.wheel.slots|
  {
  }

  /** With nobody activated, the calls counted are inside or queued behind somebody inside. */
  lemma OneIsInside(m: Mutex, b: Id)
    requires MutexInv(m) && m.count == 1 && m.sched.active == [] && m.calls != [] && m.calls[|m.calls| - 1] == b
    ensures m.inside == {b} && m.acquired == m.calls && Possible(m, Move.Unlock(b))
  {
    InvIs(m.sched);
    assert Handed(m) == [];
    hide Inv, Handed, Untimed;
    var x :| x in m.inside;
    assert m.inside - {x} == {};
  }

  /** Call `a` gets the lock, call `b` waits for it, and `a` unlocks. */
  method Contend(m: ClsCoMutex, nodes: map<Item, CondNode>, ghost a: Id, ghost b: Id)
    returns (nodes': map<Item, CondNode>)
    requires m.Valid() && m.waitItemCnt == 0 && NodesOf(m.loop, nodes)
    requires a != b && {a, b} !! m.loop.S().past.used && a !in m.M().calls && b !in m.M().calls
    modifies m, m.loop, m.loop.ep.wheel`start, m.loop.ep.wheel`idx, m.loop.ep.wheel`nodes, m.loop.ep.wheel.lists
    modifies m.loop.ep.wheel.nodes, m.condSignal, m.loop.known.waiters
    ensures m.Valid() && m.waitItemCnt == 1 && NodesOf(m.loop, nodes') && m.M().calls == old(m.M()).calls + [a, b]
    ensures m.loop.S().phase == old(m.loop.S()).phase && m.loop.S().wheel.start == old(m.loop.S()).wheel.start
    ensures |m.loop.S().wheel.slots| == |old(m.loop.S()).wheel.slots|
    ensures m.loop.known.conds == old(m.loop.known).conds && fresh(m.loop.known.waiters - old(m.loop.known).waiters)
    ensures fresh(m.loop.ep.wheel.nodes - old(m.loop.ep.wheel.nodes))
  {
    hide Loop.Valid, MutexInv, IsMutexRun, Inv, Possible, Do, QueueSet, NodesOf;
    MutexState(m);
    FirstHasIt(m.M(), a, b);
    SecondIsHandedIt(Do(m.M(), Move.Lock(a)), a, b);
    nodes' := Lock(m, nodes, a);
    nodes' := Lock(m, nodes', b);
    Unlock(m, nodes', a);
    MutexState(m);
  }

  /** Lock, lock, unlock, a pass of the event loop in which the second call returns, unlock. */
  method Example(m: ClsCoMutex, now: nat, nodes: map<Item, CondNode>, ghost a: Id, ghost b: Id)
    returns (nodes': map<Item, CondNode>)
    requires m.Valid() && m.waitItemCnt == 0 && NodesOf(m.loop, nodes)
    requires m.loop.S().phase.Idle? && GoodClock(m.loop.S(), Label.Take(now))
    requires a != b && {a, b} !! m.loop.S().past.used && a !in m.M().calls && b !in m.M().calls
    modifies m, m.loop, m.loop.ep.wheel`start, m.loop.ep.wheel`idx, m.loop.ep.wheel`nodes, m.loop.ep.wheel.lists
    modifies m.loop.ep.wheel.nodes, m.condSignal, QueueSet(m.loop.known.conds), m.loop.known.waiters
    ensures m.Valid() && m.waitItemCnt == 0 && m.loop.S().phase.Idle? && NodesOf(m.loop, nodes')
    ensures m.M().acquired == m.M().calls == old(m.M()).calls + [a, b] && m.M().inside == {}
    ensures m.loop.known.conds == old(m.loop.known).conds && fresh(m.loop.known.waiters - old(m.loop.known).waiters)
    ensures fresh(m.loop.ep.wheel.nodes - old(m.loop.ep.wheel.nodes))
  {
    hide Loop.Valid, MutexInv, IsMutexRun, Inv, Possible, Do, QueueSet, NodesOf;
    nodes' := Contend(m, nodes, a, b);
    ObservedPass(m, now, nodes');
    MutexState(m);
    OneIsInside(m.M(), b);
    UnlockIs(m.M(), b);
    Unlock(m, nodes', b);
    MutexState(m);
  }

  lemma UnlockIs(m: Mutex, b: Id)
    requires Possible(m, Move.Unlock(b)) && m.inside == {b}
    ensures var r := Do(m, Move.Unlock(b));
            && r.inside == {} && r.acquired == m.acquired && r.calls == m.calls && r.count == m.count - 1
            && r.sched.phase == m.sched.phase
  {
  }
}
