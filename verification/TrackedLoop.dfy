/** The event loop on the heap runs as the step machine says: beside the objects of the loop, the
    run of the machine that describes what has been done so far is kept in ghost fields, and every
    operation on the objects extends it by one step. */
module TrackedLoop {
  import opened Seqs
  import opened Links
  import opened Scheduler
  import opened SchedulerInv
  import opened SchedulerOrder
  import opened SchedulerRuns
  import opened TimerWheel
  import opened EventLoop
  import opened LoopMatch
  import opened Renaming
  import WheelModel

  /** The items of suspended coroutines, the condition variables, and the nodes of their queues. */
  datatype Known = Known(live: set<Item>, conds: map<Cond, CondLink>, waiters: set<CondNode>)

  ghost function QueueSet(conds: map<Cond, CondLink>): (q: set<CondLink>)
    ensures forall c :: c in conds ==> conds[c] in q
  {
    set c | c in conds :: conds[c]
  }

  lemma QueueSetGrows(conds: map<Cond, CondLink>, c: Cond, l: CondLink)
    requires c !in conds
    ensures QueueSet(conds[c := l]) == QueueSet(conds) + {l}
  {
    var more := conds[c := l];
    assert more[c] == l && forall d :: d in conds ==> more[d] == conds[d];
    forall q ensures q in QueueSet(more) <==> q in QueueSet(conds) + {l} {
      if q in QueueSet(conds) {
        var d :| d in conds && conds[d] == q;
        assert more[d] == q;
      }
    }
  }

  /** `n` is the timer item of a node in a queue, or of one that has left it. */
  ghost predicate HasNode(waiters: set<CondNode>, n: Item)
    reads waiters`payload
  {
    exists w :: w in waiters && w.payload.timeout == n
  }

  /** No item belongs to two nodes, and every live waiter's item belongs to one. */
  ghost predicate NodesOk(live: set<Item>, waiters: set<CondNode>, items: set<Item>)
    reads live`payload, waiters`payload
  {
    && live <= items
    && (forall w :: w in waiters ==> w.payload.timeout in items)
    && (forall w, v :: w in waiters && v in waiters && w.payload.timeout == v.payload.timeout ==> w == v)
    && (forall n :: n in live && n.payload.kind.Waiter? ==> HasNode(waiters, n))
  }

  lemma NodesAre(live: set<Item>, waiters: set<CondNode>, items: set<Item>)
    requires NodesOk(live, waiters, items)
    ensures forall w :: w in waiters ==> w.payload.timeout in items
    ensures forall w, v :: w in waiters && v in waiters && w.payload.timeout == v.payload.timeout ==> w == v
  {
  }

  lemma MoreItems(live: set<Item>, waiters: set<CondNode>, items: set<Item>, more: set<Item>)
    requires NodesOk(live, waiters, items) && items <= more
    ensures NodesOk(live, waiters, more)
  {
  }

  lemma NodesGrow(live: set<Item>, waiters: set<CondNode>, items: set<Item>, psi: CondNode)
    requires NodesOk(live, waiters, items) && psi.payload.timeout !in items
    ensures NodesOk(live + {psi.payload.timeout}, waiters + {psi}, items + {psi.payload.timeout})
  {
    var x := psi.payload.timeout;
    forall n | n in live + {x} && n.payload.kind.Waiter? ensures HasNode(waiters + {psi}, n) {
      if n != x { var w :| w in waiters && w.payload.timeout == n; }
    }
  }

  ghost predicate ObjectsOk(ep: Epoll, k: Known)
    reads ep, ep.wheel, ep.wheel.lists, ep.wheel.nodes, QueueSet(k.conds), k.waiters
  {
    && ep.Valid() && ep.timeout.items == [] && k.live <= ep.wheel.nodes && NodesOk(k.live, k.waiters, ep.wheel.nodes)
    && World(QueueSet(k.conds), k.waiters)
    && (forall c, d :: c in k.conds && d in k.conds && k.conds[c] == k.conds[d] ==> c == d)
  }

  ghost function Timers(live: set<Item>): map<Item, Timer>
    reads live
  {
    map n | n in live :: n.payload
  }

  lemma TimersAre(live: set<Item>)
    ensures Timers(live).Keys == live && forall n :: n in live ==> Timers(live)[n] == n.payload
  {
  }

  lemma TimersUpdated(live: set<Item>, timers: map<Item, Timer>)
    requires timers.Keys == live && forall n :: n in live ==> timers[n] == n.payload
    ensures Timers(live) == timers
  {
  }

  ghost function Lines(ep: Epoll, conds: map<Cond, CondLink>, waiters: set<CondNode>): map<Cond, seq<Item>>
    requires World(QueueSet(conds), waiters)
    reads QueueSet(conds), waiters
  {
    map c | c in conds :: ep.Waiters(conds[c])
  }

  lemma LinesAre(ep: Epoll, conds: map<Cond, CondLink>, waiters: set<CondNode>)
    requires World(QueueSet(conds), waiters)
    ensures Lines(ep, conds, waiters).Keys == conds.Keys
    ensures forall c :: c in conds ==> Lines(ep, conds, waiters)[c] == ep.Waiters(conds[c])
  {
  }

  lemma LinesAll(ep: Epoll, conds: map<Cond, CondLink>, waiters: set<CondNode>, lines: map<Cond, seq<Item>>)
    requires World(QueueSet(conds), waiters) && lines.Keys == conds.Keys
    requires forall c :: c in conds ==> ep.Waiters(conds[c]) == lines[c]
    ensures Lines(ep, conds, waiters) == lines
  {
    hide Epoll.Waiters, World;
  }

  lemma LinesUpdated(
      ep: Epoll, conds: map<Cond, CondLink>, waiters: set<CondNode>, lines: map<Cond, seq<Item>>, c: Cond)
    requires World(QueueSet(conds), waiters) && lines.Keys == conds.Keys && c in conds
    requires forall d :: d in conds && d != c ==> ep.Waiters(conds[d]) == lines[d]
    ensures Lines(ep, conds, waiters) == lines[c := ep.Waiters(conds[c])]
  {
    hide Epoll.Waiters, World;
  }

  /** The contents of the loop, as values. */
  ghost function Now(ep: Epoll, k: Known): Contents<Item>
    requires ObjectsOk(ep, k)
    reads ep, ep.wheel, ep.wheel.lists, ep.wheel.nodes, QueueSet(k.conds), k.waiters
  {
    Contents(ep.wheel.Abs(), ep.active.items, Timers(k.live), Lines(ep, k.conds, k.waiters))
  }

  lemma WorldsOf(ep: Epoll, k: Known)
    requires ObjectsOk(ep, k)
    ensures World(QueueSet(k.conds), k.waiters) && |ep.wheel.slots| > 0
  {
  }

  lemma NowHas(ep: Epoll, k: Known)
    requires ObjectsOk(ep, k)
    ensures var a := Now(ep, k);
            && a.wheel == ep.wheel.Abs() && a.active == ep.active.items
            && a.timers.Keys == k.live && (forall n :: n in k.live ==> a.timers[n] == n.payload)
            && a.queues.Keys == k.conds.Keys && (forall c :: c in k.conds ==> a.queues[c] == ep.Waiters(k.conds[c]))
    ensures |ep.wheel.slots| > 0 && ep.wheel.Abs().slots == ep.wheel.Slots()
  {
    hide World, Epoll.Waiters, NodesOk;
  }

  lemma NowIs(ep: Epoll, k: Known, b: Contents<Item>)
    requires ObjectsOk(ep, k) && b.wheel == ep.wheel.Abs() && b.active == ep.active.items
    requires b.timers.Keys == k.live && forall n :: n in k.live ==> b.timers[n] == n.payload
    requires b.queues.Keys == k.conds.Keys && forall c :: c in k.conds ==> b.queues[c] == ep.Waiters(k.conds[c])
    ensures Now(ep, k) == b
  {
    hide World, Epoll.Waiters, TimeoutWheel.Abs, NodesOk;
    TimersUpdated(k.live, b.timers);
    LinesAll(ep, k.conds, k.waiters, b.queues);
  }

  // ---------------------------------------------------------------- the objects

  method ReadyObjects(ep: Epoll, poll: Item, ghost k: Known)
    requires ObjectsOk(ep, k) && poll in k.live && poll.payload.kind.Poll?
    modifies ep.wheel.lists, ep.wheel.nodes`prev, ep.wheel.nodes`next, poll
    ensures ObjectsOk(ep, k) && Now(ep, k) == Readied(old(Now(ep, k)), poll)
  {
    hide World, ObjectsOk, Now, Epoll.Waiters, Without, WheelModel.Cancel, TimeoutWheel.Abs;
    ghost var a := Now(ep, k);
    NowHas(ep, k);
    ReadyQueued(ep, poll, k);
    NowIs(ep, k, Readied(a, poll));
  }

  method ReadyQueued(ep: Epoll, poll: Item, ghost k: Known)
    requires ObjectsOk(ep, k) && poll in k.live && poll.payload.kind.Poll?
    modifies ep.wheel.lists, ep.wheel.nodes`prev, ep.wheel.nodes`next, poll
    ensures ObjectsOk(ep, k)
    ensures forall n :: n in k.live ==>
              n.payload == if n == poll then old(n.payload).(kind := Poll(true, old(poll.payload.kind.raised) + 1))
                           else old(n.payload)
    ensures forall c :: c in k.conds ==> ep.Waiters(k.conds[c]) == old(ep.Waiters(k.conds[c]))
    ensures if old(poll.payload.kind.detached)
            then ep.wheel.Abs() == old(ep.wheel.Abs()) && ep.active.items == old(ep.active.items)
            else ep.wheel.Abs() == WheelModel.Cancel(old(ep.wheel.Abs()), poll)
                 && ep.active.items == Without(old(ep.active.items), poll) + [poll]
  {
    hide World, Epoll.Waiters, Without, WheelModel.Cancel, TimeoutWheel.Abs;
    ep.PollReady(poll);
  }

  method TakeObjects(ep: Epoll, now: nat, ghost k: Known)
    requires ObjectsOk(ep, k) && ep.wheel.idx >= 0
    modifies ep.wheel`start, ep.wheel`idx, ep.wheel.lists, ep.wheel.nodes
    ensures ObjectsOk(ep, k) && Now(ep, k) == Taken(old(Now(ep, k)), now)
  {
    hide World, ObjectsOk, Now, Epoll.Waiters, WheelModel.TakeAll, TimeoutWheel.Abs;
    ghost var a := Now(ep, k);
    NowHas(ep, k);
    TakeQueued(ep, now, k);
    NowIs(ep, k, Taken(a, now));
  }

  method TakeQueued(ep: Epoll, now: nat, ghost k: Known)
    requires ObjectsOk(ep, k) && ep.wheel.idx >= 0
    modifies ep.wheel`start, ep.wheel`idx, ep.wheel.lists, ep.wheel.nodes
    ensures ObjectsOk(ep, k) && |old(ep.wheel.Slots())| > 0
    ensures ep.wheel.Abs() == WheelModel.TakeAll(old(ep.wheel.Abs()), now).0
    ensures ep.active.items == old(ep.active.items) + WheelModel.TakeAll(old(ep.wheel.Abs()), now).1
    ensures forall n :: n in k.live ==>
              n.payload == if n in WheelModel.TakeAll(old(ep.wheel.Abs()), now).1
                           then old(n.payload).(timedOut := true) else old(n.payload)
    ensures forall c :: c in k.conds ==> ep.Waiters(k.conds[c]) == old(ep.Waiters(k.conds[c]))
  {
    hide World, Epoll.Waiters, WheelModel.TakeAll;
    ep.Collect(now);
  }

  method SignalObjects(ep: Epoll, si: CondLink, ghost c: Cond, ghost k: Known)
    requires ObjectsOk(ep, k) && c in k.conds && k.conds[c] == si
    modifies ep.wheel.lists, ep.wheel.nodes`prev, ep.wheel.nodes`next, ep.wheel.nodes`link
    modifies si, k.waiters`prev, k.waiters`next, k.waiters`link
    ensures ObjectsOk(ep, k) && Now(ep, k) == Signalled(old(Now(ep, k)), c)
  {
    hide World, Without, WheelModel.Cancel, TimeoutWheel.Abs, Epoll.Waiters, Lines, Timers;
    ghost var lines := Lines(ep, k.conds, k.waiters);
    LinesAre(ep, k.conds, k.waiters);
    var any := SignalQueued(ep, si, c, k);
    LinesUpdated(ep, k.conds, k.waiters, lines, c);
    assert !any ==> lines[c := []] == lines;
  }

  method SignalQueued(ep: Epoll, si: CondLink, ghost c: Cond, ghost k: Known) returns (any: bool)
    requires ObjectsOk(ep, k) && c in k.conds && k.conds[c] == si
    modifies ep.wheel.lists, ep.wheel.nodes`prev, ep.wheel.nodes`next, ep.wheel.nodes`link
    modifies si, k.waiters`prev, k.waiters`next, k.waiters`link
    ensures ObjectsOk(ep, k) && Timers(k.live) == old(Timers(k.live)) && any == (old(ep.Waiters(si)) != [])
    ensures forall d :: d in k.conds && d != c ==> ep.Waiters(k.conds[d]) == old(ep.Waiters(k.conds[d]))
    ensures if any then
              var x := old(ep.Waiters(si)[0]);
              && ep.Waiters(si) == old(ep.Waiters(si))[1..]
              && ep.wheel.Abs() == WheelModel.Cancel(old(ep.wheel.Abs()), x)
              && ep.active.items == Without(old(ep.active.items), x) + [x]
            else
              && ep.Waiters(si) == [] && ep.wheel.Abs() == old(ep.wheel.Abs())
              && ep.active.items == old(ep.active.items)
  {
    hide World, Without, WheelModel.Cancel, TimeoutWheel.Abs, Epoll.Waiters, NodesOk;
    NodesAre(k.live, k.waiters, ep.wheel.nodes);
    any := ep.Signal(si, QueueSet(k.conds), k.waiters);
  }

  method StartPollObjects(ep: Epoll, timeoutMs: int, now: nat, ghost k: Known)
    returns (arg: Item, ret: int, ghost k': Known)
    requires ObjectsOk(ep, k) && ep.wheel.idx >= 0 && timeoutMs != 0
    modifies ep.wheel`start, ep.wheel`idx, ep.wheel`nodes, ep.wheel.lists, ep.wheel.nodes`next
    ensures ObjectsOk(ep, k') && fresh(arg) && ep.wheel.nodes == old(ep.wheel.nodes) + {arg}
    ensures k' == if ret == 0 then k.(live := k.live + {arg}) else k
    ensures arg !in k.live && arg.payload.kind.Poll?
    ensures Now(ep, k') == PollStarted(old(Now(ep, k)), arg, timeoutMs, now)
  {
    hide World, ObjectsOk, Now, Epoll.Waiters, WheelModel.AddTimeout, TimeoutWheel.Abs;
    ghost var a := Now(ep, k);
    NowHas(ep, k);
    arg, ret, k' := PollArmed(ep, timeoutMs, now, k);
    NowIs(ep, k', PollStarted(a, arg, timeoutMs, now));
  }

  method PollArmed(ep: Epoll, timeoutMs: int, now: nat, ghost k: Known)
    returns (arg: Item, ret: int, ghost k': Known)
    requires ObjectsOk(ep, k) && ep.wheel.idx >= 0 && timeoutMs != 0
    modifies ep.wheel`start, ep.wheel`idx, ep.wheel`nodes, ep.wheel.lists, ep.wheel.nodes`next
    ensures ObjectsOk(ep, k') && fresh(arg) && arg !in k.live && ep.wheel.nodes == old(ep.wheel.nodes) + {arg}
    ensures k' == if ret == 0 then k.(live := k.live + {arg}) else k
    ensures arg.payload == Timer(now + PollWait(timeoutMs), false, Poll(false, 0))
    ensures |old(ep.wheel.Slots())| > 0
    ensures (ep.wheel.Abs(), ret) == WheelModel.AddTimeout(old(ep.wheel.Abs()), arg, now + PollWait(timeoutMs), now)
    ensures ep.active.items == old(ep.active.items)
    ensures forall n :: n in k.live ==> n.payload == old(n.payload)
    ensures forall c :: c in k.conds ==> ep.Waiters(k.conds[c]) == old(ep.Waiters(k.conds[c]))
  {
    hide World, Epoll.Waiters, WheelModel.AddTimeout, NodesOk;
    ghost var items := ep.wheel.nodes;
    arg, ret := ep.StartPoll(timeoutMs, now);
    MoreItems(k.live, k.waiters, items, ep.wheel.nodes);
    PollJoins(k.live, k.waiters, ep.wheel.nodes, arg);
    k' := if ret == 0 then k.(live := k.live + {arg}) else k;
  }

  lemma PollJoins(live: set<Item>, waiters: set<CondNode>, items: set<Item>, poll: Item)
    requires NodesOk(live, waiters, items) && poll in items && poll.payload.kind.Poll?
    ensures NodesOk(live + {poll}, waiters, items)
  {
  }

  /** The wait of the new item `x` leads from `a` to `b`. */
  ghost predicate WaitDone(a: Contents<Item>, b: Contents<Item>, x: Item, c: Cond, ms: int, now: nat) {
    |a.wheel.slots| > 0 && b == WaitStarted(a, x, c, ms, now) && x in b.timers
  }

  method StartWaitObjects(ep: Epoll, link: CondLink, ghost c: Cond, ms: int, now: nat, ghost k: Known)
    returns (psi: Node?<CondItem>, ret: int, ghost k': Known)
    requires ObjectsOk(ep, k) && ep.wheel.idx >= 0 && ep.wheel.start > 0 && c in k.conds && k.conds[c] == link
    modifies ep.wheel`start, ep.wheel`idx, ep.wheel`nodes, ep.wheel.lists, ep.wheel.nodes`next, link, k.waiters`next
    ensures ObjectsOk(ep, k') && (psi == null <==> ret != 0) && fresh(ep.wheel.nodes - old(ep.wheel.nodes))
    ensures psi == null ==> ms > 0 && now < old(ep.wheel.start) && k' == k && Now(ep, k') == old(Now(ep, k))
    ensures psi != null ==>
              var x := psi.payload.timeout;
              && fresh(psi) && x !in k.live && k' == k.(live := k.live + {x}, waiters := k.waiters + {psi})
              && WaitDone(old(Now(ep, k)), Now(ep, k'), x, c, ms, now)
  {
    hide World, ObjectsOk, Now, WheelModel.AddTimeout, Epoll.Waiters, TimeoutWheel.Slots, WaitStarted;
    ghost var a := Now(ep, k);
    NowHas(ep, k);
    psi, ret, k' := WaitQueued(ep, link, c, ms, now, k);
    if psi == null {
      NowIs(ep, k, a);
    } else {
      WaitIs(a, psi.payload.timeout, c, ms, now);
      NowIs(ep, k', WaitStarted(a, psi.payload.timeout, c, ms, now));
    }
  }

  lemma WaitIs(a: Contents<Item>, x: Item, c: Cond, ms: int, now: nat)
    requires |a.wheel.slots| > 0 && a.wheel.start > 0 && c in a.queues && (ms <= 0 || a.wheel.start <= now)
    ensures WaitStarted(a, x, c, ms, now) ==
            a.(wheel := if ms > 0 then WheelModel.AddTimeout(a.wheel, x, now + ms, now).0 else a.wheel,
               timers := a.timers[x := Timer(if ms > 0 then now + ms else 0, false, Waiter)],
               queues := a.queues[c := a.queues[c] + [x]])
  {
    if ms > 0 { WheelModel.AddFails(a.wheel, x, now + ms, now); }
  }

  /** The deadline of a wait, if it has one, leads from wheel `w` to wheel `r`. */
  ghost predicate Armed(w: WheelModel.Wheel<Item>, r: WheelModel.Wheel<Item>, x: Item, ms: int, now: nat) {
    |w.slots| > 0 && r == if ms > 0 then WheelModel.AddTimeout(w, x, now + ms, now).0 else w
  }

  method WaitQueued(ep: Epoll, link: CondLink, ghost c: Cond, ms: int, now: nat, ghost k: Known)
    returns (psi: Node?<CondItem>, ret: int, ghost k': Known)
    requires ObjectsOk(ep, k) && ep.wheel.idx >= 0 && ep.wheel.start > 0 && c in k.conds && k.conds[c] == link
    modifies ep.wheel`start, ep.wheel`idx, ep.wheel`nodes, ep.wheel.lists, ep.wheel.nodes`next, link, k.waiters`next
    ensures ObjectsOk(ep, k') && ep.active.items == old(ep.active.items)
    ensures (psi == null <==> ret != 0) && fresh(ep.wheel.nodes - old(ep.wheel.nodes))
    ensures forall d :: d in k.conds && d != c ==> ep.Waiters(k.conds[d]) == old(ep.Waiters(k.conds[d]))
    ensures forall n :: n in k.live ==> n.payload == old(n.payload)
    ensures psi == null ==>
              && ms > 0 && now < old(ep.wheel.start) && k' == k
              && ep.wheel.Abs() == old(ep.wheel.Abs()) && ep.Waiters(link) == old(ep.Waiters(link))
    ensures psi != null ==>
              var x := psi.payload.timeout;
              && fresh(psi) && x !in k.live && k' == k.(live := k.live + {x}, waiters := k.waiters + {psi})
              && (ms <= 0 || old(ep.wheel.start) <= now)
              && x.payload == Timer(if ms > 0 then now + ms else 0, false, Waiter)
              && ep.Waiters(link) == old(ep.Waiters(link)) + [x]
              && Armed(old(ep.wheel.Abs()), ep.wheel.Abs(), x, ms, now)
  {
    hide World, WheelModel.AddTimeout, Epoll.Waiters, NodesOk;
    psi, ret := ep.StartWait(link, ms, now, QueueSet(k.conds), k.waiters);
    if psi == null {
      MoreItems(k.live, k.waiters, old(ep.wheel.nodes), ep.wheel.nodes);
      k' := k;
    } else {
      NodesGrow(k.live, k.waiters, old(ep.wheel.nodes), psi);
      k' := k.(live := k.live + {psi.payload.timeout}, waiters := k.waiters + {psi});
    }
  }

  method NewCondObjects(ep: Epoll, ghost c: Cond, ghost k: Known) returns (l: CondLink, ghost k': Known)
    requires ObjectsOk(ep, k) && c !in k.conds
    ensures ObjectsOk(ep, k') && fresh(l) && k' == k.(conds := k.conds[c := l])
    ensures Now(ep, k') == Now(ep, k).(queues := Now(ep, k).queues[c := []])
  {
    hide World, TimeoutWheel.Abs, Timers, NodesOk;
    l := new Link<CondItem>();
    EmptyListJoinsWorld(l, QueueSet(k.conds), k.waiters);
    k' := k.(conds := k.conds[c := l]);
    QueueSetGrows(k.conds, c, l);
    assert Lines(ep, k'.conds, k.waiters) == Lines(ep, k.conds, k.waiters)[c := []];
  }

  /** A queue without a node is the waiting items without the item of that node. */
  lemma LeftQueue(ep: Epoll, l: CondLink, items: seq<CondNode>, psi: CondNode, waiters: set<CondNode>)
    requires l.items == Without(items, psi) && psi in waiters && forall i :: 0 <= i < |items| ==> items[i] in waiters
    requires forall w, v :: w in waiters && v in waiters && w.payload.timeout == v.payload.timeout ==> w == v
    ensures ep.Waiters(l) == Without(Timeouts(items), psi.payload.timeout)
  {
    hide Without;
    var tm := map n | n in waiters :: n.payload.timeout;
    var x := psi.payload.timeout;
    var f := (n: CondNode) => if n in tm then tm[n] else x;
    RenameWithout(items, psi, f);
    assert Timeouts(items) == Rename(items, f);
    forall i | 0 <= i < |l.items| ensures l.items[i] in waiters { assert l.items[i] in l.items; }
    assert ep.Waiters(l) == Rename(l.items, f);
  }

  ghost function Timeouts(s: seq<CondNode>): (r: seq<Item>)
    reads s
    ensures |r| == |s|
  {
    seq(|s|, i requires 0 <= i < |s| reads s => s[i].payload.timeout)
  }

  /** A resumed waiter takes its node out of the queue. */
  method Depart(ep: Epoll, psi: CondNode, ghost conds: map<Cond, CondLink>, ghost waiters: set<CondNode>)
    requires World(QueueSet(conds), waiters) && psi in waiters
    requires forall w, v :: w in waiters && v in waiters && w.payload.timeout == v.payload.timeout ==> w == v
    modifies QueueSet(conds), waiters`prev, waiters`next, psi`link
    ensures World(QueueSet(conds), waiters)
    ensures forall c :: c in conds ==> ep.Waiters(conds[c]) == Without(old(ep.Waiters(conds[c])), psi.payload.timeout)
  {
    hide World, Without;
    ghost var items := map c | c in conds :: conds[c].items;
    forall c | c in conds ensures forall n :: n in items[c] ==> n in waiters {
      ep.QueueList(conds[c], QueueSet(conds), waiters);
    }
    RemoveIn(psi, QueueSet(conds), waiters);
    forall c | c in conds ensures ep.Waiters(conds[c]) == Without(old(ep.Waiters(conds[c])), psi.payload.timeout) {
      LeftQueue(ep, conds[c], items[c], psi, waiters);
      assert Timeouts(items[c]) == old(ep.Waiters(conds[c]));
    }
  }

  /** What the draining loop does with the head of the active list, short of resuming it. */
  ghost predicate Popped(a: Contents<Item>, b: Contents<Item>, now: nat, process: bool)
    requires |a.wheel.slots| > 0 && a.active != [] && a.active[0] in a.timers
  {
    var x := a.active[0];
    var t := a.timers[x];
    if t.timedOut && now < t.expire then
      var (w, err) := WheelModel.AddTimeout(a.wheel, x, t.expire, now);
      && process == (err != 0)
      && b == a.(wheel := w, active := a.active[1..],
                 timers := if process then a.timers else a.timers[x := t.(timedOut := false)])
    else process && b == a.(active := a.active[1..])
  }

  method PopObjects(ep: Epoll, now: nat, ghost k: Known) returns (lp: Item, process: bool)
    requires ObjectsOk(ep, k) && ep.wheel.idx >= 0 && ep.active.items != [] && ep.active.items[0] in k.live
    modifies ep.wheel`start, ep.wheel`idx, ep.wheel.lists, ep.wheel.nodes
    ensures ObjectsOk(ep, k) && lp == old(ep.active.items)[0] && Popped(old(Now(ep, k)), Now(ep, k), now, process)
  {
    hide World, ObjectsOk, Now, WheelModel.AddTimeout, Epoll.Waiters, TimeoutWheel.Abs;
    ghost var a := Now(ep, k);
    NowHas(ep, k);
    lp, process := PopQueued(ep, now, k);
    NowIs(ep, k, a.(wheel := ep.wheel.Abs(), active := a.active[1..], timers := a.timers[lp := lp.payload]));
    assert process ==> a.timers[lp := lp.payload] == a.timers;
  }

  method PopQueued(ep: Epoll, now: nat, ghost k: Known) returns (lp: Item, process: bool)
    requires ObjectsOk(ep, k) && ep.wheel.idx >= 0 && ep.active.items != [] && ep.active.items[0] in k.live
    modifies ep.wheel`start, ep.wheel`idx, ep.wheel.lists, ep.wheel.nodes
    ensures ObjectsOk(ep, k) && lp == old(ep.active.items)[0] && ep.active.items == old(ep.active.items)[1..]
    ensures forall n :: n in k.live && n != lp ==> n.payload == old(n.payload)
    ensures forall c :: c in k.conds ==> ep.Waiters(k.conds[c]) == old(ep.Waiters(k.conds[c]))
    ensures |old(ep.wheel.Slots())| > 0
    ensures if old(ep.active.items[0].payload.timedOut) && now < old(ep.active.items[0].payload.expire)
            then var (w, err) := WheelModel.AddTimeout(old(ep.wheel.Abs()), lp, lp.payload.expire, now);
                 && ep.wheel.Abs() == w && process == (err != 0)
                 && lp.payload == if err == 0 then old(ep.active.items[0].payload).(timedOut := false)
                                  else old(ep.active.items[0].payload)
            else ep.wheel.Abs() == old(ep.wheel.Abs()) && process && lp.payload == old(ep.active.items[0].payload)
  {
    hide World, WheelModel.AddTimeout, Epoll.Waiters;
    lp, process := ep.DrainOne(now);
  }

  method DepartObjects(ep: Epoll, lp: Item, psi: Node?<CondItem>, ghost k: Known)
    requires ObjectsOk(ep, k) && (psi != null ==> psi in k.waiters && psi.payload.timeout == lp)
    requires psi == null ==> forall c :: c in k.conds ==> lp !in ep.Waiters(k.conds[c])
    modifies QueueSet(k.conds), k.waiters`prev, k.waiters`next, k.waiters`link
    ensures ObjectsOk(ep, k) && ep.wheel.Abs() == old(ep.wheel.Abs()) && ep.active.items == old(ep.active.items)
    ensures forall c :: c in k.conds ==> ep.Waiters(k.conds[c]) == Without(old(ep.Waiters(k.conds[c])), lp)
  {
    hide World, Without, Epoll.Waiters, TimeoutWheel.Slots, NodesOk;
    if psi != null {
      NodesAre(k.live, k.waiters, ep.wheel.nodes);
      Depart(ep, psi, k.conds, k.waiters);
    }
  }

  /** What the resumed coroutine does with its own items: a waiter removes its node `psi` from the
      queue, and the timer item is gone. */
  method GoneObjects(ep: Epoll, lp: Item, psi: Node?<CondItem>, ghost k: Known)
    requires ObjectsOk(ep, k) && (psi != null ==> psi in k.waiters && psi.payload.timeout == lp)
    requires psi == null ==> forall c :: c in k.conds ==> lp !in ep.Waiters(k.conds[c])
    modifies QueueSet(k.conds), k.waiters`prev, k.waiters`next, k.waiters`link
    ensures ObjectsOk(ep, k.(live := k.live - {lp}))
    ensures Now(ep, k.(live := k.live - {lp})) == Gone(old(Now(ep, k)), lp)
  {
    hide World, ObjectsOk, Now, Without, Epoll.Waiters, TimeoutWheel.Abs;
    ghost var a := Now(ep, k);
    NowHas(ep, k);
    DepartObjects(ep, lp, psi, k);
    FewerLive(ep, k, lp);
    NowIs(ep, k.(live := k.live - {lp}), Gone(a, lp));
  }

  lemma FewerLive(ep: Epoll, k: Known, lp: Item)
    requires ObjectsOk(ep, k)
    ensures ObjectsOk(ep, k.(live := k.live - {lp})) && World(QueueSet(k.conds), k.waiters)
  {
    hide World;
  }

  /** One round of the draining loop. */
  method DrainObjects(ep: Epoll, now: nat, psi: Node?<CondItem>, ghost k: Known)
    returns (lp: Item, process: bool, ghost k': Known)
    requires ObjectsOk(ep, k) && ep.wheel.idx >= 0 && ep.active.items != [] && ep.active.items[0] in k.live
    requires psi != null ==> psi in k.waiters && psi.payload.timeout == ep.active.items[0]
    requires psi == null ==> forall c :: c in k.conds ==> ep.active.items[0] !in ep.Waiters(k.conds[c])
    modifies ep.wheel`start, ep.wheel`idx, ep.wheel.lists, ep.wheel.nodes
    modifies QueueSet(k.conds), k.waiters`prev, k.waiters`next, k.waiters`link
    ensures ObjectsOk(ep, k') && lp == old(ep.active.items)[0] && Now(ep, k') == Drained(old(Now(ep, k)), now)
    ensures k' == if process then k.(live := k.live - {lp}) else k
    ensures process <==> lp !in Now(ep, k').timers
  {
    hide World, ObjectsOk, Epoll.Waiters, Lines, Timers, Gone;
    lp, process := PopObjects(ep, now, k);
    if process {
      GoneObjects(ep, lp, psi, k);
      k' := k.(live := k.live - {lp});
    } else {
      k' := k;
    }
    NowHas(ep, k');
  }

  method BroadcastObjects(ep: Epoll, si: CondLink, ghost c: Cond, ghost k: Known)
    requires ObjectsOk(ep, k) && c in k.conds && k.conds[c] == si && NoDup(ep.Waiters(si))
    modifies ep.wheel.lists, ep.wheel.nodes`prev, ep.wheel.nodes`next, ep.wheel.nodes`link
    modifies si, k.waiters`prev, k.waiters`next, k.waiters`link
    ensures ObjectsOk(ep, k) && Now(ep, k) == Broadcasted(old(Now(ep, k)), c)
  {
    hide World, ObjectsOk, WithoutAll, WheelModel.CancelAll, TimeoutWheel.Abs;
    hide Epoll.Waiters, Lines, Timers, Broadcasted;
    WorldsOf(ep, k);
    ghost var a := Now(ep, k);
    LinesAre(ep, k.conds, k.waiters);
    BroadcastIs(a, c);
    BroadcastQueued(ep, si, c, k);
    WorldsOf(ep, k);
    LinesUpdated(ep, k.conds, k.waiters, a.queues, c);
  }

  method BroadcastQueued(ep: Epoll, si: CondLink, ghost c: Cond, ghost k: Known)
    requires ObjectsOk(ep, k) && c in k.conds && k.conds[c] == si && NoDup(ep.Waiters(si))
    modifies ep.wheel.lists, ep.wheel.nodes`prev, ep.wheel.nodes`next, ep.wheel.nodes`link
    modifies si, k.waiters`prev, k.waiters`next, k.waiters`link
    ensures ObjectsOk(ep, k) && Timers(k.live) == old(Timers(k.live)) && ep.Waiters(si) == []
    ensures forall d :: d in k.conds && d != c ==> ep.Waiters(k.conds[d]) == old(ep.Waiters(k.conds[d]))
    ensures ep.wheel.Abs() == WheelModel.CancelAll(old(ep.wheel.Abs()), old(ep.Waiters(si)))
    ensures ep.active.items == WithoutAll(old(ep.active.items), old(ep.Waiters(si))) + old(ep.Waiters(si))
  {
    hide World, WithoutAll, WheelModel.CancelAll, TimeoutWheel.Abs, Epoll.Waiters, NodesOk;
    NodesAre(k.live, k.waiters, ep.wheel.nodes);
    ep.Broadcast(si, QueueSet(k.conds), k.waiters);
  }

  // ---------------------------------------------------------------- the run beside them

  class Loop {
    const ep: Epoll
    /** The size of the wheel, and when it was started. */
    ghost const size: nat
    ghost const began: nat
    ghost var states: seq<State>
    ghost var labels: seq<Label>
    ghost var name: Item -> Id
    ghost var known: Known

    /** `ep` has just been allocated. */
    constructor (ep: Epoll, ghost iSize: nat, ghost now: nat)
      requires ep.Valid() && ep.timeout.items == [] && ep.active.items == [] && iSize > 0 && now > 0
      requires ep.wheel.Abs() == WheelModel.Wheel(now, 0, seq(iSize, _ => []))
      ensures Valid() && states == [Init(iSize, now)] && labels == [] && known == Known({}, map[], {})
      ensures this.ep == ep && size == iSize && began == now
    {
      hide World, Inv, Matches, ObjectsOk, Now, Init;
      this.ep, size, began := ep, iSize, now;
      states, labels, name, known := [Init(iSize, now)], [], _ => 0, Known({}, map[], {});
      new;
      NothingKnown(ep);
      InitInv(iSize, now);
      EmptyMatches(Now(ep, known), iSize, now, name);
    }

    ghost predicate Valid()
      reads this, ep, ep.wheel, ep.wheel.lists, ep.wheel.nodes, QueueSet(known.conds), known.waiters
    {
      && ObjectsOk(ep, known) && |states| > 0
      && IsRun(states, labels) && FromStart() && Inv(S()) && Matches(Now(ep, known), S(), name)
    }

    /** The run begins with an empty loop. */
    ghost predicate FromStart()
      requires |states| > 0
      reads this
    {
      size > 0 && began > 0 && states[0] == Init(size, began)
    }

    /** The state that the machine is in. */
    ghost function S(): State
      requires |states| > 0
      reads this
    {
      states[|states| - 1]
    }

    /** What every operation ensures: the machine has taken the step `l`. */
    twostate predicate Stepped(l: Label)
      reads this
    {
      && |old(states)| > 0 && Enabled(old(S()), l)
      && states == old(states) + [Step(old(S()), l)] && labels == old(labels) + [l]
    }

    /** The machine has a timer item `id`. */
    ghost predicate Lives(id: Id)
      reads this
    {
      |states| > 0 && id in S().timers
    }

    ghost predicate Unused(id: Id)
      reads this
    {
      |states| > 0 && id !in S().past.used
    }

    /** `c` is the name of the condition variable `l`. */
    ghost predicate Has(c: Cond, l: CondLink)
      reads this
    {
      c in known.conds && known.conds[c] == l
    }

    /** `psi` and its item, under the name `id`, are now known besides what was known before. */
    twostate predicate Queued(new psi: Node?<CondItem>, id: Id)
      reads this, psi
    {
      && psi != null && fresh(psi)
      && var x := psi.payload.timeout;
      && x !in old(known).live && name == Naming(old(name), x, id)
      && known == old(known).(live := old(known).live + {x}, waiters := old(known).waiters + {psi})
    }

    /** The step `l` is recorded, with the names and the objects known after it. */
    ghost method Extend(l: Label, name': Item -> Id, k': Known)
      requires ObjectsOk(ep, k') && |states| > 0 && IsRun(states, labels) && FromStart()
      requires Inv(S()) && Enabled(S(), l) && GoodClock(S(), l)
      requires Matches(Now(ep, k'), Act(S(), l), name')
      modifies this
      ensures Valid() && Stepped(l) && name == name' && known == k'
    {
      hide World, Inv, Matches, Enabled, Act, GoodClock;
      ghost var s := S();
      states, labels, name, known := states + [Step(s, l)], labels + [l], name', k';
      StepKeepsInv(s, l);
      HistoryIsFree(Now(ep, known), Act(s, l), Step(s, l), name);
    }

    /** An event for a poll. */
    method Ready(poll: Item)
      requires Valid() && S().phase.Idle? && poll in known.live && poll.payload.kind.Poll?
      modifies this, ep.wheel.lists, ep.wheel.nodes`prev, ep.wheel.nodes`next, poll
      ensures Valid() && Stepped(Label.Ready(name(poll))) && known == old(known) && name == old(name)
    {
      hide World, Inv, Matches, DoReady, IsRun, Readied;
      ReadyMatches(Now(ep, known), S(), name, poll);
      NotEmptyWheel(Now(ep, known), S(), name);
      ReadyObjects(ep, poll, known);
      Extend(Label.Ready(name(poll)), name, known);
    }

    /** The timeout half of a pass begins. */
    method Take(now: nat)
      requires Valid() && S().phase.Idle? && GoodClock(S(), Label.Take(now))
      modifies this, ep.wheel`start, ep.wheel`idx, ep.wheel.lists, ep.wheel.nodes
      ensures Valid() && Stepped(Label.Take(now)) && known == old(known) && name == old(name)
    {
      hide World, Inv, Matches, IsRun, Taken, DoTake;
      IndexIs(Now(ep, known), S(), name);
      TakeMatches(Now(ep, known), S(), name, now);
      TakeObjects(ep, now, known);
      Extend(Label.Take(now), name, known);
    }

    /** co_cond_signal. */
    method Signal(si: CondLink, ghost c: Cond)
      requires Valid() && Has(c, si)
      modifies this, ep.wheel.lists, ep.wheel.nodes`prev, ep.wheel.nodes`next, ep.wheel.nodes`link
      modifies si, known.waiters`prev, known.waiters`next, known.waiters`link
      ensures Valid() && Stepped(Label.Signal(c)) && known == old(known) && name == old(name)
    {
      hide World, Inv, Matches, IsRun, Signalled, DoSignal;
      NotEmptyWheel(Now(ep, known), S(), name);
      SignalMatches(Now(ep, known), S(), name, c);
      SignalObjects(ep, si, c, known);
      Extend(Label.Signal(c), name, known);
    }

    /** co_poll_inner up to its yield: the new item gets the unused name `id`. */
    method StartPoll(timeoutMs: int, now: nat, ghost id: Id) returns (arg: Item, ret: int)
      requires Valid() && timeoutMs != 0 && now > 0 && Unused(id)
      modifies this, ep.wheel`start, ep.wheel`idx, ep.wheel`nodes, ep.wheel.lists, ep.wheel.nodes`next
      ensures Valid() && Stepped(Label.StartPoll(id, timeoutMs, now)) && name == Naming(old(name), arg, id)
      ensures fresh(arg) && ep.wheel.nodes == old(ep.wheel.nodes) + {arg} && (ret == 0 <==> Lives(id))
      ensures ret == 0 ==> arg.payload.kind.Poll? && known == old(known).(live := old(known).live + {arg})
      ensures ret != 0 ==> known == old(known)
    {
      hide World, Inv, Matches, IsRun, PollStarted, DoStartPoll, ObjectsOk;
      ghost var a, k := Now(ep, known), known;
      IndexIs(a, S(), name);
      FreshItem(S(), id);
      arg, ret, k := StartPollObjects(ep, timeoutMs, now, known);
      NowHas(ep, k);
      NewPollMatches(a, S(), name, arg, id, timeoutMs, now);
      Extend(Label.StartPoll(id, timeoutMs, now), Naming(name, arg, id), k);
    }

    /** co_cond_timedwait up to its yield: the new item gets the unused name `id`. */
    method StartWait(link: CondLink, ghost c: Cond, ms: int, now: nat, ghost id: Id)
      returns (psi: Node?<CondItem>, ret: int)
      requires Valid() && now > 0 && Unused(id) && Has(c, link)
      modifies this, ep.wheel`start, ep.wheel`idx, ep.wheel`nodes, ep.wheel.lists, ep.wheel.nodes`next
      modifies link, known.waiters`next
      ensures Valid() && Stepped(Label.StartWait(id, c, ms, now)) && fresh(ep.wheel.nodes - old(ep.wheel.nodes))
      ensures (psi != null <==> ret == 0) && (ret == 0 <==> Lives(id))
      ensures if ret != 0 then known == old(known) && name == old(name) else Queued(psi, id)
    {
      hide World, Inv, Matches, IsRun, WaitStarted, DoStartWait, ObjectsOk;
      ghost var a, k := Now(ep, known), known;
      IndexIs(a, S(), name);
      FreshItem(S(), id);
      psi, ret, k := StartWaitObjects(ep, link, c, ms, now, known);
      if psi == null {
        FailedWaitMatches(a, S(), name, id, c, ms, now);
        Extend(Label.StartWait(id, c, ms, now), name, k);
      } else {
        NewWaitMatches(a, S(), name, psi.payload.timeout, id, c, ms, now);
        Extend(Label.StartWait(id, c, ms, now), Naming(name, psi.payload.timeout, id), k);
      }
    }

    /** co_cond_broadcast. */
    method Broadcast(si: CondLink, ghost c: Cond)
      requires Valid() && Has(c, si)
      modifies this, ep.wheel.lists, ep.wheel.nodes`prev, ep.wheel.nodes`next, ep.wheel.nodes`link
      modifies si, known.waiters`prev, known.waiters`next, known.waiters`link
      ensures Valid() && Stepped(Label.Broadcast(c)) && known == old(known) && name == old(name)
    {
      hide World, Inv, Matches, IsRun, Broadcasted, DoBroadcast, Lines;
      ghost var a := Now(ep, known);
      NotEmptyWheel(a, S(), name);
      LinesAre(ep, known.conds, known.waiters);
      QueueIsDistinct(a, S(), name, c);
      BroadcastMatches(a, S(), name, c);
      BroadcastObjects(ep, si, c, known);
      Extend(Label.Broadcast(c), name, known);
    }

    /** One round of the draining loop; `psi` is the node of the waiter at the head. */
    method Drain(now: nat, psi: Node?<CondItem>) returns (lp: Item, process: bool)
      requires Valid() && S().phase == Draining(now) && ep.active.items != []
      requires psi != null ==> psi in known.waiters && psi.payload.timeout == ep.active.items[0]
      requires psi == null ==> ep.active.items[0].payload.kind.Poll?
      modifies this, ep.wheel`start, ep.wheel`idx, ep.wheel.lists, ep.wheel.nodes
      modifies QueueSet(known.conds), known.waiters`prev, known.waiters`next, known.waiters`link
      ensures Valid() && Stepped(Label.Drain) && name == old(name) && lp == old(ep.active.items)[0]
      ensures process <==> !Lives(name(lp))
      ensures known == if process then old(known).(live := old(known).live - {lp}) else old(known)
    {
      hide World, Inv, Matches, IsRun, Drained, DoDrain, Now, ObjectsOk, Epoll.Waiters;
      CanDrain(ep, known, S(), name);
      ghost var k;
      lp, process, k := DrainObjects(ep, now, psi, known);
      Extend(Label.Drain, name, k);
    }

    /** Whenever the machine can drain, so can the objects: the head of the active list is the item
        of a poll, or it has a node to pass to Drain. */
    lemma DrainIsPossible() returns (psi: Node?<CondItem>)
      requires Valid() && Enabled(S(), Label.Drain)
      ensures ep.active.items != []
      ensures if psi == null then ep.active.items[0].payload.kind.Poll?
              else psi in known.waiters && psi.payload.timeout == ep.active.items[0]
    {
      hide World, Inv, Matches, IsRun, Now, ObjectsOk, Epoll.Waiters;
      ActiveIs(ep, known, S(), name);
      CanDrain(ep, known, S(), name);
      psi := NodeOf(ep, known, ep.active.items[0]);
    }

    /** A new condition variable, under the unused name `c`. */
    method NewCond(ghost c: Cond) returns (l: CondLink)
      requires Valid() && c !in known.conds
      modifies this
      ensures Valid() && fresh(l) && states == old(states) && labels == old(labels) && name == old(name)
      ensures known == old(known).(conds := old(known).conds[c := l])
    {
      hide World, Inv, Matches, IsRun, Lines;
      LinesAre(ep, known.conds, known.waiters);
      NewQueueMatches(Now(ep, known), S(), name, c);
      ghost var k;
      l, k := NewCondObjects(ep, c, known);
      known := k;
    }

    /** The pass ends once the active list is empty. */
    method EndPass()
      requires Valid() && S().phase.Draining? && ep.active.items == []
      modifies this
      ensures Valid() && Stepped(Label.EndPass) && known == old(known) && name == old(name)
    {
      hide Inv, IsRun, World;
      NotEmptyWheel(Now(ep, known), S(), name);
      HistoryIsFree(Now(ep, known), S(), Act(S(), Label.EndPass), name);
      Extend(Label.EndPass, name, known);
    }

    /** What the machine says of all its runs holds of the objects.  For one thing: a suspended
        coroutine's item is never in two timer lists, and it is in one, or a waiter in its queue. */
    lemma InOnePlace(n: Item)
      requires Valid() && n in known.live
      ensures !(WheelModel.InWheel(ep.wheel.Abs(), n) && n in ep.active.items)
      ensures || WheelModel.InWheel(ep.wheel.Abs(), n) || n in ep.active.items
              || (n.payload.kind.Waiter? && exists c :: c in known.conds && n in ep.Waiters(known.conds[c]))
    {
      hide World, Matches, IsRun, WheelModel.InWheel, WheelModel.WheelInv, Epoll.Waiters;
      hide QueueInv, LogInv, LineInv, TimeInv;
      var a := Now(ep, known);
      LiveIsKnown(a, S(), name, n);
      PlacesAgree(a, S(), name, n);
      assert Placed(S(), name(n));
      assert forall c :: c in known.conds ==> QueueOf(a, c) == ep.Waiters(known.conds[c]);
    }
  }

  lemma QueueIsDistinct(a: Contents<Item>, s: State, name: Item -> Id, c: Cond)
    requires Matches(a, s, name) && Inv(s)
    ensures NoDup(QueueOf(a, c))
  {
    assert LineInv(s);
    hide Inv, CoreInv, QueueInv, LogInv;
    QueueNoDup(s, c);
    QueueIs(a, s, name, c);
  }

  lemma PollIsNotQueued(a: Contents<Item>, s: State, name: Item -> Id)
    requires Matches(a, s, name) && Inv(s) && a.active != []
    requires a.active[0] in a.timers && a.timers[a.active[0]].kind.Poll?
    ensures forall c :: a.active[0] !in QueueOf(a, c)
  {
    var x := a.active[0];
    LiveIsKnown(a, s, name, x);
    forall c ensures x !in QueueOf(a, c) {
      QueueIs(a, s, name, c);
      assert name(x) in Queue(s, c) ==> WaitsOn(s, name(x), c);
      NamedMember(QueueOf(a, c), a.timers, name, x);
    }
  }

  lemma PollIsNowhere(ep: Epoll, k: Known, s: State, name: Item -> Id)
    requires ObjectsOk(ep, k) && Matches(Now(ep, k), s, name) && Inv(s) && ep.active.items != []
    requires ep.active.items[0] in k.live && ep.active.items[0].payload.kind.Poll?
    ensures forall c :: c in k.conds ==> ep.active.items[0] !in ep.Waiters(k.conds[c])
  {
    hide World, Matches, Inv, Epoll.Waiters;
    var a := Now(ep, k);
    PollIsNotQueued(a, s, name);
    forall c | c in k.conds ensures ep.active.items[0] !in ep.Waiters(k.conds[c]) {
      assert QueueOf(a, c) == ep.Waiters(k.conds[c]);
    }
  }

  lemma ActiveIs(ep: Epoll, k: Known, s: State, name: Item -> Id)
    requires ObjectsOk(ep, k) && Matches(Now(ep, k), s, name)
    ensures |ep.active.items| == |s.active|
  {
    hide World, NodesOk;
  }

  lemma NodeOf(ep: Epoll, k: Known, n: Item) returns (psi: Node?<CondItem>)
    requires ObjectsOk(ep, k) && n in k.live
    ensures if psi == null then n.payload.kind.Poll? else psi in k.waiters && psi.payload.timeout == n
  {
    hide World;
    psi := null;
    if n.payload.kind.Waiter? {
      assert HasNode(k.waiters, n);
      psi :| psi in k.waiters && psi.payload.timeout == n;
    }
  }

  lemma CanDrain(ep: Epoll, k: Known, s: State, name: Item -> Id)
    requires ObjectsOk(ep, k) && Matches(Now(ep, k), s, name) && Inv(s) && s.phase.Draining? && ep.active.items != []
    ensures ep.wheel.idx >= 0 && ep.active.items[0] in k.live && Enabled(s, Label.Drain)
    ensures var a := Now(ep, k);
            && |a.wheel.slots| > 0 && a.active != [] && a.active[0] in a.timers
            && Matches(Drained(a, s.phase.now), DoDrain(s), name)
            && (ep.active.items[0] in Drained(a, s.phase.now).timers <==> name(ep.active.items[0]) in DoDrain(s).timers)
    ensures ep.active.items[0].payload.kind.Poll? ==>
              forall c :: c in k.conds ==> ep.active.items[0] !in ep.Waiters(k.conds[c])
  {
    hide World, Inv, Matches, Drained, DoDrain, Lines, Timers, ObjectsOk, Epoll.Waiters;
    var a := Now(ep, k);
    IndexIs(a, s, name);
    TimersAre(k.live);
    WheelOf(s);
    DrainMatches(a, s, name);
    HeadNamed(a, s, name);
    if ep.active.items[0].payload.kind.Poll? { PollIsNowhere(ep, k, s, name); }
  }

  lemma NothingKnown(ep: Epoll)
    requires ep.Valid() && ep.timeout.items == [] && ep.active.items == []
    ensures var k := Known({}, map[], {});
            ObjectsOk(ep, k) && Now(ep, k) == Contents(ep.wheel.Abs(), [], map[], map[])
  {
    hide TimeoutWheel.Abs, Epoll.Waiters;
    assert QueueSet(map[]) == {};
  }

  lemma IndexIs(a: Contents<Item>, s: State, name: Item -> Id)
    requires Matches(a, s, name) && Inv(s)
    ensures a.wheel.idx >= 0 && a.wheel.start > 0 && |a.wheel.slots| == |s.wheel.slots| > 0
  {
    WheelOf(s);
  }

  lemma EmptyMatches(a: Contents<Item>, size: nat, start: nat, name: Item -> Id)
    requires size > 0 && a == Contents(WheelModel.Wheel(start, 0, seq(size, _ => [])), [], map[], map[])
    ensures Matches(a, Init(size, start), name)
  {
  }
}
