/** The rounds of a pass of the event loop on the objects.  A waiter that is resumed removes its
    node from the queue; where the nodes of the suspended waiters are, their frames know. */
module LoopPass {
  import opened Links
  import opened Scheduler
  import opened SchedulerPolls
  import opened SchedulerRuns
  import opened EventLoop
  import opened TimerWheel
  import opened LoopMatch
  import opened TrackedLoop
  import WheelModel

  /** `nodes` has the node of every suspended waiter; items without a node are those of polls. */
  ghost predicate NodesAt(k: Known, name: Item -> Id, s: State, nodes: map<Item, CondNode>)
    reads (set n | n in nodes :: nodes[n])`payload
  {
    forall n :: n in k.live ==>
      if n in nodes then nodes[n] in k.waiters && nodes[n].payload.timeout == n
      else name(n) in s.timers && s.timers[name(n)].kind.Poll?
  }

  ghost predicate NodesOf(loop: Loop, nodes: map<Item, CondNode>)
    reads loop, (set n | n in nodes :: nodes[n])`payload
  {
    |loop.states| > 0 && NodesAt(loop.known, loop.name, loop.S(), nodes)
  }

  /** The object at the head of the active list is the one that the machine has there. */
  lemma HeadIs(loop: Loop)
    requires loop.Valid() && loop.S().active != []
    ensures loop.ep.active.items != [] && loop.ep.active.head == loop.ep.active.items[0]
    ensures loop.ep.active.items[0] in loop.known.live
    ensures loop.S().active[0] == loop.name(loop.ep.active.items[0])
  {
    hide Inv, NodesOk;
    loop.ep.WorldList(loop.ep.active);
  }

  lemma ActiveEmpty(loop: Loop)
    requires loop.Valid() && loop.S().active == []
    ensures loop.ep.active.items == []
  {
    hide Inv, NodesOk, World;
  }

  lemma KnownKind(loop: Loop, n: Item)
    requires loop.Valid() && n in loop.known.live
    ensures loop.name(n) in loop.S().timers && loop.S().timers[loop.name(n)].kind == n.payload.kind
  {
    hide Inv, NodesOk, World, Matches;
    LiveIsKnown(Now(loop.ep, loop.known), loop.S(), loop.name, n);
  }

  /** What is alive after a round was so before, and is of the same kind. */
  lemma RoundKeepsKinds(s: State, id: Id)
    requires Enabled(s, Drain) && id in Step(s, Drain).timers
    ensures id in s.timers && Step(s, Drain).timers[id].kind == s.timers[id].kind
  {
  }

  /** Items keep their kinds. */
  ghost predicate SameKinds(s: State, r: State) {
    forall id :: id in s.timers ==> id in r.timers && r.timers[id].kind == s.timers[id].kind
  }

  lemma StepKeepsKinds(s: State, l: Label)
    requires Inv(s) && Enabled(s, l) && GoodClock(s, l) && !l.Ready? && !l.Drain?
    ensures SameKinds(s, Step(s, l))
  {
    hide Inv, Act;
    StepIsQuiet(s, l);
  }

  /** The nodes stay where they are while items keep their kinds. */
  lemma NodesStay(k: Known, name: Item -> Id, s: State, r: State, nodes: map<Item, CondNode>)
    requires NodesAt(k, name, s, nodes) && SameKinds(s, r)
    ensures NodesAt(k, name, r, nodes)
  {
  }

  /** A new waiter has its node. */
  lemma NodeAdded(k: Known, name: Item -> Id, s: State, r: State, nodes: map<Item, CondNode>, psi: CondNode, id: Id)
    requires NodesAt(k, name, s, nodes) && SameKinds(s, r) && psi.payload.timeout !in k.live
    ensures var x := psi.payload.timeout;
            NodesAt(k.(live := k.live + {x}, waiters := k.waiters + {psi}), Naming(name, x, id), r, nodes[x := psi])
  {
  }

  lemma StateOf(loop: Loop)
    requires loop.Valid()
    ensures |loop.states| > 0 && Inv(loop.S())
  {
  }

  /** co_cond_timedwait up to its yield; the new waiter's frame has its node. */
  method Wait(loop: Loop, link: CondLink, ms: int, now: nat, nodes: map<Item, CondNode>, ghost c: Cond, ghost id: Id)
    returns (nodes': map<Item, CondNode>)
    requires loop.Valid() && now > 0 && loop.Unused(id) && loop.Has(c, link) && NodesOf(loop, nodes)
    modifies loop, loop.ep.wheel`start, loop.ep.wheel`idx, loop.ep.wheel`nodes, loop.ep.wheel.lists
    modifies loop.ep.wheel.nodes`next, link, loop.known.waiters`next
    ensures loop.Valid() && loop.Stepped(StartWait(id, c, ms, now)) && NodesOf(loop, nodes')
    ensures fresh(loop.ep.wheel.nodes - old(loop.ep.wheel.nodes)) && fresh(loop.known.waiters - old(loop.known).waiters)
    ensures loop.known.conds == old(loop.known).conds
  {
    hide World, Inv, Matches, ObjectsOk, Now, Step, Enabled, IsRun, NodesAt, SameKinds;
    ghost var s, k, name := loop.S(), loop.known, loop.name;
    StateOf(loop);
    var psi, ret := loop.StartWait(link, c, ms, now, id);
    StepKeepsKinds(s, StartWait(id, c, ms, now));
    if psi == null {
      nodes' := nodes;
      NodesStay(k, name, s, loop.S(), nodes);
    } else {
      nodes' := nodes[psi.payload.timeout := psi];
      NodeAdded(k, name, s, loop.S(), nodes, psi, id);
    }
  }

  /** co_cond_signal. */
  method Signal(loop: Loop, si: CondLink, ghost nodes: map<Item, CondNode>, ghost c: Cond)
    requires loop.Valid() && loop.Has(c, si) && NodesOf(loop, nodes)
    modifies loop, loop.ep.wheel.lists
    modifies loop.ep.wheel.nodes`prev, loop.ep.wheel.nodes`next, loop.ep.wheel.nodes`link
    modifies si, loop.known.waiters`prev, loop.known.waiters`next, loop.known.waiters`link
    ensures loop.Valid() && loop.Stepped(Label.Signal(c)) && NodesOf(loop, nodes)
    ensures loop.known == old(loop.known) && loop.name == old(loop.name)
  {
    hide World, Inv, Matches, ObjectsOk, Now, Step, Enabled, IsRun, NodesAt, SameKinds;
    ghost var s, k, name := loop.S(), loop.known, loop.name;
    StateOf(loop);
    loop.Signal(si, c);
    StepKeepsKinds(s, Label.Signal(c));
    NodesStay(k, name, s, loop.S(), nodes);
  }

  /** The timeout half of a pass begins. */
  method Take(loop: Loop, now: nat, ghost nodes: map<Item, CondNode>)
    requires loop.Valid() && loop.S().phase.Idle? && GoodClock(loop.S(), Label.Take(now)) && NodesOf(loop, nodes)
    modifies loop, loop.ep.wheel`start, loop.ep.wheel`idx, loop.ep.wheel.lists, loop.ep.wheel.nodes
    ensures loop.Valid() && loop.Stepped(Label.Take(now)) && NodesOf(loop, nodes)
    ensures loop.known == old(loop.known) && loop.name == old(loop.name)
  {
    hide World, Inv, Matches, ObjectsOk, Now, Step, Enabled, IsRun, NodesAt, SameKinds, GoodClock;
    ghost var s, k, name := loop.S(), loop.known, loop.name;
    StateOf(loop);
    loop.Take(now);
    StepKeepsKinds(s, Label.Take(now));
    NodesStay(k, name, s, loop.S(), nodes);
  }

  /** One round of the draining loop, whatever is at the head. */
  method Round(loop: Loop, now: nat, nodes: map<Item, CondNode>) returns (lp: Item, process: bool)
    requires loop.Valid() && loop.S().phase == Draining(now) && loop.S().active != [] && NodesOf(loop, nodes)
    modifies loop, loop.ep.wheel`start, loop.ep.wheel`idx, loop.ep.wheel.lists, loop.ep.wheel.nodes
    modifies QueueSet(loop.known.conds), loop.known.waiters`prev, loop.known.waiters`next, loop.known.waiters`link
    ensures loop.Valid() && loop.Stepped(Drain) && loop.name == old(loop.name) && NodesOf(loop, nodes)
    ensures process <==> !loop.Lives(loop.name(lp))
    ensures lp in old(loop.known).live && loop.name(lp) == old(loop.S()).active[0]
    ensures loop.known == if process then old(loop.known).(live := old(loop.known).live - {lp}) else old(loop.known)
  {
    hide World, Inv, Matches, ObjectsOk, Now, Step, Enabled, IsRun;
    HeadIs(loop);
    var head := loop.ep.active.head;
    KnownKind(loop, head);
    var psi := if head in nodes then nodes[head] else null;
    ghost var s := loop.S();
    lp, process := loop.Drain(now, psi);
    forall n | n in loop.known.live && n !in nodes
      ensures loop.name(n) in loop.S().timers && loop.S().timers[loop.name(n)].kind.Poll?
    {
      KnownKind(loop, n);
      RoundKeepsKinds(s, loop.name(n));
    }
  }

  /** A round of which the outcome does not matter. */
  method AnyRound(loop: Loop, now: nat, nodes: map<Item, CondNode>)
    requires loop.Valid() && loop.S().phase == Draining(now) && loop.S().active != [] && NodesOf(loop, nodes)
    modifies loop, loop.ep.wheel`start, loop.ep.wheel`idx, loop.ep.wheel.lists, loop.ep.wheel.nodes
    modifies QueueSet(loop.known.conds), loop.known.waiters`prev, loop.known.waiters`next, loop.known.waiters`link
    ensures loop.Valid() && loop.Stepped(Drain) && loop.name == old(loop.name) && NodesOf(loop, nodes)
    ensures loop.known == old(loop.known).(live := loop.known.live) && loop.known.live <= old(loop.known).live
  {
    hide Loop.Valid, NodesOf, Step, Enabled, QueueSet;
    var lp, process := Round(loop, now, nodes);
  }

  /** `s` comes after some rounds of a pass that began them in `s0`: the items in front of the others
      have had their turn, and whoever was resumed is one of them, marked as it was. */
  ghost predicate Later(s0: State, s: State) {
    && s.phase == s0.phase && |s.active| <= |s0.active| && s.active == s0.active[|s0.active| - |s.active|..]
    && s0.past.log <= s.past.log
    && (forall k :: |s0.past.log| <= k < |s.past.log| ==> TurnOf(s0, s.past.log[k]))
    && (forall x :: x in s.active ==> x in s0.timers && x in s.timers && s.timers[x] == s0.timers[x])
    && (forall c :: Queue(s0, c) == [] ==> Queue(s, c) == [])
  }

  ghost predicate TurnOf(s0: State, w: Wake) {
    w.id in s0.active && w.id in s0.timers && w.timedOut == s0.timers[w.id].timedOut
  }

  lemma OthersInActive(s: State)
    requires Inv(s)
    ensures forall i :: 0 < i < |s.active| ==> s.active[i] != s.active[0] && s.active[i] in s.timers
  {
  }

  lemma RoundIs(s: State)
    requires Inv(s) && Enabled(s, Drain)
    ensures var r := Step(s, Drain);
            && r.phase == s.phase && r.active == s.active[1..] && (forall x :: x in r.active ==> x in s.active)
            && (forall x :: x in r.active ==> x in s.timers && x in r.timers && r.timers[x] == s.timers[x])
            && (forall c :: Queue(s, c) == [] ==> Queue(r, c) == [])
            && (r.past.log == s.past.log
                || (|r.past.log| == |s.past.log| + 1 && s.past.log <= r.past.log && TurnOf(s, r.past.log[|s.past.log|])))
  {
    OthersInActive(s);
    hide Inv, WheelModel.AddTimeout;
    var r := Step(s, Drain);
    forall x | x in r.active ensures x in s.active && x in s.timers && x in r.timers && r.timers[x] == s.timers[x] {
      var i :| 0 <= i < |r.active| && r.active[i] == x;
      assert x == s.active[i + 1];
    }
  }

  lemma OneRoundMore(s0: State, s: State)
    requires Later(s0, s) && Inv(s) && Enabled(s, Drain)
    ensures Later(s0, Step(s, Drain))
  {
    RoundIs(s);
    hide Inv, Step, Enabled;
    var r := Step(s, Drain);
    if r.past.log != s.past.log {
      var w := r.past.log[|s.past.log|];
      assert TurnOf(s, w) && w.id in s.active;
    }
  }

  /** Everybody who has been resumed since was waiting for a turn, and nobody has begun to wait. */
  ghost predicate Follows(s0: State, s: State) {
    && s0.past.log <= s.past.log && (forall c :: Queue(s0, c) == [] ==> Queue(s, c) == [])
    && forall k :: |s0.past.log| <= k < |s.past.log| ==> TurnOf(s0, s.past.log[k])
  }

  lemma HeadTells(loop: Loop)
    requires loop.Valid()
    ensures loop.ep.active.head == null <==> loop.S().active == []
  {
    hide Inv, NodesOk;
    loop.ep.WorldList(loop.ep.active);
  }

  lemma CanDrainHead(loop: Loop)
    requires loop.Valid() && loop.S().phase.Draining?
    ensures Inv(loop.S()) && Later(loop.S(), loop.S())
    ensures loop.S().active != [] ==> Enabled(loop.S(), Drain)
    ensures loop.S().active == [] ==> Enabled(loop.S(), EndPass)
  {
    hide Matches, World, NodesOk, IsRun;
  }

  lemma PassEnds(s0: State, s: State)
    requires Later(s0, s) && Enabled(s, EndPass)
    ensures var r := Step(s, EndPass);
            Follows(s0, r) && r.phase.Idle? && r.active == [] && r.timers == s.timers
  {
  }

  /** The rounds of a pass, when the coroutines that are resumed do nothing that concerns the loop. */
  method Rounds(loop: Loop, now: nat, nodes: map<Item, CondNode>)
    requires loop.Valid() && loop.S().phase == Draining(now) && NodesOf(loop, nodes)
    modifies loop, loop.ep.wheel`start, loop.ep.wheel`idx, loop.ep.wheel.lists, loop.ep.wheel.nodes
    modifies QueueSet(loop.known.conds), loop.known.waiters`prev, loop.known.waiters`next, loop.known.waiters`link
    ensures loop.Valid() && loop.S().active == [] && Later(old(loop.S()), loop.S()) && loop.name == old(loop.name)
    ensures NodesOf(loop, nodes) && loop.known == old(loop.known).(live := loop.known.live)
    ensures loop.known.live <= old(loop.known).live
  {
    hide World, Inv, Matches, ObjectsOk, Now, Step, Enabled, IsRun, Later;
    ghost var s0 := loop.S();
    CanDrainHead(loop);
    HeadTells(loop);
    LaterPhase(s0, s0);
    while loop.ep.active.head != null
      invariant loop.Valid() && loop.S().phase == Draining(now) && Later(s0, loop.S()) && NodesOf(loop, nodes)
      invariant loop.name == old(loop.name) && loop.known == old(loop.known).(live := loop.known.live)
      invariant loop.known.live <= old(loop.known).live
      invariant loop.ep.active.head == null <==> loop.S().active == []
      decreases |loop.S().active|
    {
      CanDrainHead(loop);
      OneRoundMore(s0, loop.S());
      LaterPhase(s0, Step(loop.S(), Drain));
      ShorterBy(loop.S());
      AnyRound(loop, now, nodes);
      HeadTells(loop);
    }
  }

  lemma LaterPhase(s0: State, s: State)
    requires Later(s0, s)
    ensures s.phase == s0.phase
  {
  }

  lemma ShorterBy(s: State)
    requires Inv(s) && Enabled(s, Drain)
    ensures |Step(s, Drain).active| < |s.active|
  {
    hide Inv;
    RoundIs(s);
  }

  /** The rest of a pass. */
  method FinishPass(loop: Loop, now: nat, nodes: map<Item, CondNode>)
    requires loop.Valid() && loop.S().phase == Draining(now) && NodesOf(loop, nodes)
    modifies loop, loop.ep.wheel`start, loop.ep.wheel`idx, loop.ep.wheel.lists, loop.ep.wheel.nodes
    modifies QueueSet(loop.known.conds), loop.known.waiters`prev, loop.known.waiters`next, loop.known.waiters`link
    ensures loop.Valid() && loop.S().phase.Idle? && loop.S().active == [] && loop.name == old(loop.name)
    ensures NodesOf(loop, nodes) && loop.known == old(loop.known).(live := loop.known.live)
    ensures loop.known.live <= old(loop.known).live && Follows(old(loop.S()), loop.S())
  {
    hide World, Inv, Matches, ObjectsOk, Now, Step, Enabled, IsRun, Later, Follows;
    ghost var s0 := loop.S();
    Rounds(loop, now, nodes);
    LaterPhase(s0, loop.S());
    CanDrainHead(loop);
    ActiveEmpty(loop);
    PassEnds(s0, loop.S());
    loop.EndPass();
  }
}
