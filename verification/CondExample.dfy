/** One exchange in the program of libco/example_cond.cpp: the consumer waits without a deadline,
    the producer signals, and the next pass of the event loop resumes the consumer. */
module CondExample {
  import opened Links
  import opened Scheduler
  import opened SchedulerRuns
  import opened TimerWheel
  import opened EventLoop
  import opened LoopMatch
  import opened TrackedLoop
  import opened LoopPass
  import WheelModel

  /** The loop is between passes with nobody activated, nobody waits for `c`, and `id` is unused. */
  ghost predicate Calm(s: State, c: Cond, id: Id, now: nat) {
    && |s.wheel.slots| > 0 && s.phase.Idle? && s.active == [] && Queue(s, c) == [] && id !in s.past.used
    && now > 0 && WheelModel.CountOk(|s.wheel.slots|, s.wheel.start, now)
  }

  /** The waiter `id` of `c` alone has been activated, by a signal; nobody has been resumed since `s`. */
  ghost predicate Signalled(s: State, r: State, c: Cond, id: Id, now: nat) {
    && |r.wheel.slots| > 0 && r.phase.Idle? && r.active == [id] && r.past.log == s.past.log
    && now > 0 && WheelModel.CountOk(|r.wheel.slots|, r.wheel.start, now)
    && id in r.timers && r.timers[id] == Timer(0, false, Waiter)
    && id in r.past.signalled && r.past.signalled[id] == c && Queue(r, c) == []
  }

  lemma SignalReaches(s: State, c: Cond, id: Id, now: nat)
    requires Calm(s, c, id, now)
    ensures Enabled(s, StartWait(id, c, -1, now)) && id in Step(s, StartWait(id, c, -1, now)).timers
    ensures var m := Step(s, StartWait(id, c, -1, now));
            Enabled(m, Signal(c)) && Signalled(s, Step(m, Signal(c)), c, id, now)
  {
    hide WheelModel.TakeAll, WheelModel.CountOk;
  }

  /** The pass has the consumer at its head, and behind it the items that the wheel gave out. */
  ghost predicate AtHead(s: State, r: State, c: Cond, id: Id, now: nat) {
    && |r.wheel.slots| > 0 && r.phase == Draining(now) && r.active != [] && r.active[0] == id
    && r.past.log == s.past.log && id in r.timers && r.timers[id] == Timer(0, false, Waiter)
    && id in r.past.signalled && r.past.signalled[id] == c && Queue(r, c) == []
    && forall i :: 0 < i < |r.active| ==> r.active[i] in r.timers && r.timers[r.active[i]].timedOut
  }

  /** The items that a take gives out are alive, and were not active before. */
  lemma TakenAre(s: State, now: nat)
    requires Inv(s) && |s.wheel.slots| > 0 && WheelModel.CountOk(|s.wheel.slots|, s.wheel.start, now)
    ensures var taken := WheelModel.TakeAll(s.wheel, now).1;
            forall i :: 0 <= i < |taken| ==> taken[i] in s.timers && taken[i] !in s.active
    ensures |WheelModel.TakeAll(s.wheel, now).0.slots| > 0
  {
    WheelOf(s);
    hide Inv, WheelModel.TakeAll, WheelModel.CountOk, WheelModel.InWheel, WheelModel.WheelInv, WheelModel.Chronological;
    WheelModel.TakeIsExact(s.wheel, s.past.stamps, now);
    var taken := WheelModel.TakeAll(s.wheel, now).1;
    forall i | 0 <= i < |taken| ensures taken[i] in s.timers && taken[i] !in s.active { InWheelIsLive(s, taken[i]); }
  }

  lemma InWheelIsLive(s: State, x: Id)
    requires Inv(s) && WheelModel.InWheel(s.wheel, x)
    ensures x in s.timers && x !in s.active
  {
  }

  lemma PassBegins(s: State, r: State, c: Cond, id: Id, now: nat)
    requires Inv(r) && Signalled(s, r, c, id, now)
    ensures Enabled(r, Take(now)) && GoodClock(r, Take(now)) && AtHead(s, Step(r, Take(now)), c, id, now)
  {
    hide Inv, WheelModel.TakeAll, WheelModel.CountOk;
    TakenAre(r, now);
  }

  /** The consumer has been resumed, as signalled; whoever else has been resumed since was resumed
      later, because the time had come. */
  ghost predicate Exchanged(s: State, r: State, c: Cond, id: Id) {
    && |r.past.log| > |s.past.log| && s.past.log <= r.past.log
    && r.past.log[|s.past.log|] == Wake(id, false, BySignal(c), 0)
    && forall k :: |s.past.log| < k < |r.past.log| ==> r.past.log[k].timedOut
  }

  ghost predicate AllMarked(s: State) {
    forall x :: x in s.active ==> x in s.timers && s.timers[x].timedOut
  }

  lemma ConsumerIsResumed(s: State, r: State, c: Cond, id: Id, now: nat)
    requires AtHead(s, r, c, id, now) && Inv(r)
    ensures Enabled(r, Drain) && r.active != []
    ensures var t := Step(r, Drain);
            && t.past.log == s.past.log + [Wake(id, false, BySignal(c), 0)] && t.phase == Draining(now)
            && id !in t.timers && AllMarked(t) && Queue(t, c) == []
  {
    OthersInActive(r);
    hide Inv;
    var t := Step(r, Drain);
    forall x | x in t.active ensures x in t.timers && t.timers[x].timedOut {
      var i :| 0 <= i < |t.active| && t.active[i] == x;
      assert x == r.active[i + 1];
    }
  }

  lemma OthersAreTimeouts(s: State, t: State, r: State, c: Cond, id: Id)
    requires t.past.log == s.past.log + [Wake(id, false, BySignal(c), 0)] && AllMarked(t) && Queue(t, c) == []
    requires Follows(t, r)
    ensures Exchanged(s, r, c, id) && Queue(r, c) == []
  {
    assert r.past.log[|s.past.log|] == t.past.log[|s.past.log|];
    forall k | |s.past.log| < k < |r.past.log| ensures r.past.log[k].timedOut { assert TurnOf(t, r.past.log[k]); }
  }

  /** The consumer waits, and the producer signals. */
  method WaitAndSignal(loop: Loop, cond: CondLink, now: nat, nodes: map<Item, CondNode>, ghost c: Cond, ghost id: Id)
    returns (nodes': map<Item, CondNode>)
    requires loop.Valid() && loop.Has(c, cond) && Calm(loop.S(), c, id, now) && NodesOf(loop, nodes)
    modifies loop, loop.ep.wheel`start, loop.ep.wheel`idx, loop.ep.wheel`nodes, loop.ep.wheel.lists, loop.ep.wheel.nodes
    modifies QueueSet(loop.known.conds), loop.known.waiters
    ensures loop.Valid() && Signalled(old(loop.S()), loop.S(), c, id, now) && NodesOf(loop, nodes')
    ensures fresh(loop.ep.wheel.nodes - old(loop.ep.wheel.nodes)) && fresh(loop.known.waiters - old(loop.known).waiters)
    ensures loop.known.conds == old(loop.known).conds
  {
    hide World, Inv, Matches, ObjectsOk, Now, Step, Enabled, IsRun, Calm, Signalled, NodesOf;
    StateOf(loop);
    SignalReaches(loop.S(), c, id, now);
    CalmIs(loop.S(), c, id, now);
    nodes' := LoopPass.Wait(loop, cond, -1, now, nodes, c, id);
    LoopPass.Signal(loop, cond, nodes', c);
  }

  /** The pass that resumes the consumer; other coroutines that it resumes do nothing that concerns
      the loop. */
  method Pass(loop: Loop, now: nat, nodes: map<Item, CondNode>, ghost s: State, ghost c: Cond, ghost id: Id)
    requires loop.Valid() && Signalled(s, loop.S(), c, id, now) && NodesOf(loop, nodes)
    modifies loop, loop.ep.wheel`start, loop.ep.wheel`idx, loop.ep.wheel.lists, loop.ep.wheel.nodes
    modifies QueueSet(loop.known.conds), loop.known.waiters`prev, loop.known.waiters`next, loop.known.waiters`link
    ensures loop.Valid() && loop.S().phase.Idle? && loop.S().active == [] && Queue(loop.S(), c) == []
    ensures Exchanged(s, loop.S(), c, id) && NodesOf(loop, nodes)
    ensures loop.known == old(loop.known).(live := loop.known.live)
  {
    hide Loop.Valid, Inv, Step, Enabled, GoodClock, Signalled, AtHead, NodesOf, AllMarked, Follows, Exchanged, Queue;
    hide QueueSet;
    StateOf(loop);
    PassBegins(s, loop.S(), c, id, now);
    SignalledIs(s, loop.S(), c, id, now);
    LoopPass.Take(loop, now, nodes);
    StateOf(loop);
    AtHeadIs(s, loop.S(), c, id, now);
    ConsumerIsResumed(s, loop.S(), c, id, now);
    AnyRound(loop, now, nodes);
    StateOf(loop);
    ghost var t := loop.S();
    FinishPass(loop, now, nodes);
    StateOf(loop);
    OthersAreTimeouts(s, t, loop.S(), c, id);
  }

  /** The whole exchange, from the wait of the consumer to the end of the pass that resumes it. */
  method Exchange(loop: Loop, cond: CondLink, now: nat, nodes: map<Item, CondNode>, ghost c: Cond, ghost id: Id)
    returns (nodes': map<Item, CondNode>)
    requires loop.Valid() && loop.Has(c, cond) && Calm(loop.S(), c, id, now) && NodesOf(loop, nodes)
    modifies loop, loop.ep.wheel`start, loop.ep.wheel`idx, loop.ep.wheel`nodes, loop.ep.wheel.lists, loop.ep.wheel.nodes
    modifies QueueSet(loop.known.conds), loop.known.waiters
    ensures loop.Valid() && loop.S().phase.Idle? && loop.S().active == [] && Queue(loop.S(), c) == []
    ensures Exchanged(old(loop.S()), loop.S(), c, id) && NodesOf(loop, nodes')
    ensures fresh(loop.ep.wheel.nodes - old(loop.ep.wheel.nodes)) && fresh(loop.known.waiters - old(loop.known).waiters)
    ensures loop.known.conds == old(loop.known).conds
  {
    hide Loop.Valid, Calm, Signalled, NodesOf, Exchanged, Queue;
    StateOf(loop);
    ghost var s := loop.S();
    nodes' := WaitAndSignal(loop, cond, now, nodes, c, id);
    Pass(loop, now, nodes', s, c, id);
  }

  lemma SignalledIs(s: State, r: State, c: Cond, id: Id, now: nat)
    requires Signalled(s, r, c, id, now)
    ensures r.phase.Idle?
  {
  }

  lemma AtHeadIs(s: State, r: State, c: Cond, id: Id, now: nat)
    requires AtHead(s, r, c, id, now)
    ensures r.phase == Draining(now) && r.active != []
  {
  }

  lemma CalmIs(s: State, c: Cond, id: Id, now: nat)
    requires Calm(s, c, id, now)
    ensures GoodClock(s, StartWait(id, c, -1, now)) && id !in s.past.used && now > 0
  {
  }
}
