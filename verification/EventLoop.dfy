/** The event loop of libco/co_routine.cpp on the heap: the wheel, the active list, the timeout
    list and the condition variables, over the items of all suspended coroutines. */
module EventLoop {
  import opened Seqs
  import opened Links
  import opened Scheduler
  import opened TimerWheel
  import WheelModel

  /** stCoCondItem_t: a queued waiter and the timer item that belongs to it. */
  datatype CondItem = CondItem(timeout: Item)
  type CondNode = Node<CondItem>
  type CondLink = Link<CondItem>

  class Epoll {
    const wheel: TimeoutWheel
    const active: ItemLink
    const timeout: ItemLink

    /** AllocEpoll. */
    constructor (iSize: nat, now: nat)
      requires iSize > 0
      ensures Valid() && wheel.nodes == {} && active.items == [] && timeout.items == []
      ensures fresh(wheel) && fresh(wheel.lists)
      ensures wheel.Abs() == WheelModel.Wheel(now, 0, seq(iSize, _ => []))
    {
      var a := new Link<Timer>();
      var t := new Link<Timer>();
      active, timeout := a, t;
      wheel := new TimeoutWheel(iSize, now, {a, t});
    }

    ghost predicate Valid()
      reads this, wheel, wheel.lists, wheel.nodes
    {
      && wheel.Valid()
      && active in wheel.lists && timeout in wheel.lists && active != timeout
      && active !in wheel.slots && timeout !in wheel.slots
    }

    /** RemoveFromLink and AddTail: an item moves from its timer list to the active list. */
    method Activate(ap: Item)
      requires Valid() && ap in wheel.nodes
      modifies wheel.lists, wheel.nodes`prev, wheel.nodes`next, ap`link
      ensures Valid()
      ensures wheel.Abs() == WheelModel.Cancel(old(wheel.Abs()), ap)
      ensures active.items == Without(old(active.items), ap) + [ap]
      ensures timeout.items == Without(old(timeout.items), ap)
    {
      hide World;
      RemoveIn(ap, wheel.lists, wheel.nodes);
      assert wheel.Slots() == WheelModel.Cancel(old(wheel.Abs()), ap).slots;
      label removed:
      AddTailIn(active, ap, wheel.lists, wheel.nodes);
      assert wheel.Slots() == old@removed(wheel.Slots());
    }

    /** OnPollPreparePfn, for the poll an event belongs to. */
    method PollReady(poll: Item)
      requires Valid() && poll in wheel.nodes && poll.payload.kind.Poll?
      modifies wheel.lists, wheel.nodes`prev, wheel.nodes`next, poll
      ensures Valid()
      ensures poll.payload == old(poll.payload).(kind := Poll(true, old(poll.payload.kind.raised) + 1))
      ensures if old(poll.payload.kind.detached)
              then wheel.Abs() == old(wheel.Abs())
                   && active.items == old(active.items) && timeout.items == old(timeout.items)
              else wheel.Abs() == WheelModel.Cancel(old(wheel.Abs()), poll)
                   && active.items == Without(old(active.items), poll) + [poll]
                   && timeout.items == Without(old(timeout.items), poll)
    {
      hide World;
      var detached := poll.payload.kind.detached;
      SetPayload(poll, poll.payload.(kind := Poll(true, poll.payload.kind.raised + 1)), wheel.lists, wheel.nodes);
      if !detached {
        Activate(poll);
      }
    }

    /** Marks the items of the timeout list as timed out. */
    method MarkTimedOut()
      requires Valid()
      modifies wheel.nodes`payload
      ensures Valid()
      ensures forall n :: n in wheel.nodes ==>
                n.payload == if n in timeout.items then old(n.payload).(timedOut := true) else old(n.payload)
    {
      hide World;
      WorldList(timeout);
      var lp := timeout.head;
      ghost var s, k := timeout.items, 0;
      while lp != null
        invariant Valid() && 0 <= k <= |s| && lp == (if k == |s| then null else s[k])
        invariant forall n :: n in wheel.nodes ==>
                    n.payload == if n in s[..k] then old(n.payload).(timedOut := true) else old(n.payload)
        decreases |s| - k
      {
        SetPayload(lp, lp.payload.(timedOut := true), wheel.lists, wheel.nodes);
        WorldList(timeout);
        assert s[k].next == After(s, k);
        lp := lp.next;
        k := k + 1;
      }
      assert s[..k] == s;
    }

    lemma WorldList(l: ItemLink)
      requires World(wheel.lists, wheel.nodes) && l in wheel.lists
      ensures l.Valid() && forall n :: n in l.items ==> n in wheel.nodes
    {
    }

    /** The timeout half of a pass: clear the timeout list, take, mark, join.  Clearing drops
        nothing, since every pass leaves the list empty. */
    method Collect(now: nat)
      requires Valid() && wheel.idx >= 0 && timeout.items == []
      modifies wheel`start, wheel`idx, wheel.lists, wheel.nodes
      ensures Valid() && timeout.items == []
      ensures wheel.Abs() == WheelModel.TakeAll(old(wheel.Abs()), now).0
      ensures active.items == old(active.items) + WheelModel.TakeAll(old(wheel.Abs()), now).1
      ensures forall n :: n in wheel.nodes ==>
                n.payload == if n in WheelModel.TakeAll(old(wheel.Abs()), now).1
                             then old(n.payload).(timedOut := true) else old(n.payload)
    {
      hide World, WheelModel.TakeAll;
      Reset(timeout, wheel.lists, wheel.nodes);
      wheel.TakeAllTimeout(now, timeout);
      MarkTimedOut();
      label marked:
      JoinIn(active, timeout, wheel.lists, wheel.nodes);
      assert wheel.Slots() == old@marked(wheel.Slots());
    }

    /** One round of the draining loop, up to the call of pfnProcess; `process` says whether that
        call follows. */
    method DrainOne(now: nat) returns (lp: Item, process: bool)
      requires Valid() && wheel.idx >= 0 && active.items != []
      modifies wheel`start, wheel`idx, wheel.lists, wheel.nodes
      ensures Valid() && wheel.idx >= 0
      ensures lp == old(active.items)[0] && active.items == old(active.items)[1..]
      ensures timeout.items == old(timeout.items)
      ensures forall n :: n in wheel.nodes && n != lp ==> n.payload == old(n.payload)
      ensures if old(active.items[0].payload.timedOut) && now < old(active.items[0].payload.expire)
              then var (w, err) := WheelModel.AddTimeout(old(wheel.Abs()), lp, lp.payload.expire, now);
                   && wheel.Abs() == w && process == (err != 0)
                   && lp.payload == if err == 0 then old(active.items[0].payload).(timedOut := false)
                                    else old(active.items[0].payload)
              else wheel.Abs() == old(wheel.Abs()) && process && lp.payload == old(active.items[0].payload)
    {
      hide World, WheelModel.AddTimeout;
      WorldList(active);
      lp := active.head;
      PopHeadIn(active, wheel.lists, wheel.nodes);
      assert wheel.Slots() == old(wheel.Slots());
      if lp.payload.timedOut && now < lp.payload.expire {
        var ret := wheel.AddTimeout(lp, now);
        if ret == 0 {
          label added:
          SetPayload(lp, lp.payload.(timedOut := false), wheel.lists, wheel.nodes);
          return lp, false;
        }
      }
      return lp, true;
    }

    /** A new timer item in no list. */
    method NewItem(t: Timer) returns (n: Item)
      requires Valid()
      modifies wheel`nodes
      ensures Valid() && fresh(n) && n.payload == t && n.link == null && n.prev == null && n.next == null
      ensures wheel.nodes == old(wheel.nodes) + {n}
      ensures wheel.Abs() == old(wheel.Abs())
    {
      hide World;
      n := new Node(t);
      LooseNodeJoinsWorld(n, wheel.lists, wheel.nodes);
      wheel.nodes := wheel.nodes + {n};
    }

    /** co_poll_inner up to its yield, for a timeout other than 0; `ret` other than 0 makes it
        return at once. */
    method StartPoll(timeoutMs: int, now: nat) returns (arg: Item, ret: int)
      requires Valid() && wheel.idx >= 0 && timeoutMs != 0
      modifies wheel`start, wheel`idx, wheel`nodes, wheel.lists, wheel.nodes`next
      ensures Valid() && fresh(arg) && wheel.nodes == old(wheel.nodes) + {arg}
      ensures arg.payload == Timer(now + PollWait(timeoutMs), false, Poll(false, 0))
      ensures (wheel.Abs(), ret) == WheelModel.AddTimeout(old(wheel.Abs()), arg, arg.payload.expire, now)
      ensures active.items == old(active.items) && timeout.items == old(timeout.items)
    {
      hide World, WheelModel.AddTimeout;
      arg := NewItem(Timer(now + PollWait(timeoutMs), false, Poll(false, 0)));
      ret := wheel.AddTimeout(arg, now);
    }

    /** The timer items of the waiters queued on a condition variable. */
    ghost function Waiters(si: CondLink): (r: seq<Item>)
      reads si, si.items
      ensures |r| == |si.items|
    {
      seq(|si.items|, i requires 0 <= i < |si.items| reads si, si.items => si.items[i].payload.timeout)
    }

    /** co_cond_pop: the first waiter, if any, leaves the queue. */
    method CondPop(si: CondLink, ghost queues: set<CondLink>, ghost waiters: set<CondNode>) returns (p: Node?<CondItem>)
      requires World(queues, waiters) && si in queues
      modifies si, waiters`prev, waiters`next, waiters`link
      ensures World(queues, waiters) && (p == null <==> old(si.items) == [])
      ensures forall l :: l in queues && l != si ==> l.items == old(l.items)
      ensures p == null ==> si.items == []
      ensures p != null ==>
                && p == old(si.items)[0] && p in waiters && p.payload.timeout == old(Waiters(si))[0]
                && si.items == old(si.items)[1..] && Waiters(si) == old(Waiters(si))[1..]
    {
      hide World;
      QueueList(si, queues, waiters);
      p := si.head;
      if p != null {
        assert p == si.items[0] && p in si.items;
        PopHeadIn(si, queues, waiters);
      }
    }

    lemma QueueList(l: CondLink, queues: set<CondLink>, waiters: set<CondNode>)
      requires World(queues, waiters) && l in queues
      ensures l.Valid() && forall n :: n in l.items ==> n in waiters
    {
    }

    /** Activating a timer item disturbs no queue. */
    method ActivateBeside(ap: Item, si: CondLink, ghost queues: set<CondLink>, ghost waiters: set<CondNode>)
      requires Valid() && ap in wheel.nodes && World(queues, waiters) && si in queues
      modifies wheel.lists, wheel.nodes`prev, wheel.nodes`next, ap`link
      ensures Valid() && World(queues, waiters)
      ensures forall l :: l in queues ==> l.items == old(l.items)
      ensures forall w :: w in waiters ==> w.payload == old(w.payload)
      ensures wheel.Abs() == WheelModel.Cancel(old(wheel.Abs()), ap)
      ensures active.items == Without(old(active.items), ap) + [ap]
      ensures timeout.items == Without(old(timeout.items), ap)
    {
      hide World;
      Activate(ap);
    }

    /** co_cond_signal: the first waiter, if any, leaves the queue and becomes active. */
    method Signal(si: CondLink, ghost queues: set<CondLink>, ghost waiters: set<CondNode>) returns (any: bool)
      requires Valid() && World(queues, waiters) && si in queues
      requires forall w :: w in waiters ==> w.payload.timeout in wheel.nodes
      modifies wheel.lists, wheel.nodes`prev, wheel.nodes`next, wheel.nodes`link
      modifies si, waiters`prev, waiters`next, waiters`link
      ensures Valid() && World(queues, waiters) && any == (old(Waiters(si)) != [])
      ensures forall l :: l in queues && l != si ==> l.items == old(l.items) && Waiters(l) == old(Waiters(l))
      ensures any ==>
                var x := old(Waiters(si)[0]);
                && Waiters(si) == old(Waiters(si))[1..]
                && wheel.Abs() == WheelModel.Cancel(old(wheel.Abs()), x)
                && active.items == Without(old(active.items), x) + [x]
                && timeout.items == Without(old(timeout.items), x)
      ensures !any ==>
                && Waiters(si) == [] && wheel.Abs() == old(wheel.Abs())
                && active.items == old(active.items) && timeout.items == old(timeout.items)
    {
      hide World;
      var sp := CondPop(si, queues, waiters);
      if sp == null {
        return false;
      }
      label popped:
      ActivateBeside(sp.payload.timeout, si, queues, waiters);
      assert Waiters(si) == old@popped(Waiters(si));
      return true;
    }

    /** co_cond_broadcast: all waiters, in order, become active. */
    method Broadcast(si: CondLink, ghost queues: set<CondLink>, ghost waiters: set<CondNode>)
      requires Valid() && World(queues, waiters) && si in queues && NoDup(Waiters(si))
      requires forall w :: w in waiters ==> w.payload.timeout in wheel.nodes
      modifies wheel.lists, wheel.nodes`prev, wheel.nodes`next, wheel.nodes`link
      modifies si, waiters`prev, waiters`next, waiters`link
      ensures Valid() && World(queues, waiters) && Waiters(si) == []
      ensures forall l :: l in queues && l != si ==> l.items == old(l.items) && Waiters(l) == old(Waiters(l))
      ensures old(timeout.items) == [] ==> timeout.items == []
      ensures active.items == WithoutAll(old(active.items), old(Waiters(si))) + old(Waiters(si))
      ensures wheel.Abs() == WheelModel.CancelAll(old(wheel.Abs()), old(Waiters(si)))
    {
      hide World, WheelModel.Cancel, WithoutAll, Without, Epoll.Waiters;
      ghost var a0, q0, w0 := active.items, Waiters(si), wheel.Abs();
      var any := true;
      while any
        invariant Valid() && World(queues, waiters) && NoDup(Waiters(si))
        invariant forall l :: l in queues && l != si ==> l.items == old(l.items) && Waiters(l) == old(Waiters(l))
        invariant old(timeout.items) == [] ==> timeout.items == []
        invariant WithoutAll(active.items, Waiters(si)) + Waiters(si) == WithoutAll(a0, q0) + q0
        invariant WheelModel.CancelAll(wheel.Abs(), Waiters(si)) == WheelModel.CancelAll(w0, q0)
        invariant !any ==> Waiters(si) == []
        decreases |Waiters(si)|, any
      {
        ghost var a, q := active.items, Waiters(si);
        any := Signal(si, queues, waiters);
        if any { MoveFirstToEnd(a, q); }
      }
      EmptyQueue(active.items);
    }

    lemma EmptyQueue(a: seq<Item>)
      ensures WithoutAll(a, []) + [] == a
    {
    }

    /** Queueing a waiter disturbs no timer list. */
    method Enqueue(link: CondLink, timeout: Item, ghost queues: set<CondLink>, ghost waiters: set<CondNode>)
      returns (psi: CondNode)
      requires Valid() && World(queues, waiters) && link in queues
      modifies link, waiters`next
      ensures Valid() && fresh(psi) && World(queues, waiters + {psi}) && psi.payload == CondItem(timeout)
      ensures Waiters(link) == old(Waiters(link)) + [timeout]
      ensures forall l :: l in queues && l != link ==> l.items == old(l.items) && Waiters(l) == old(Waiters(l))
      ensures wheel.Abs() == old(wheel.Abs()) && active.items == old(active.items)
    {
      hide World;
      psi := new Node(CondItem(timeout));
      LooseNodeJoinsWorld(psi, queues, waiters);
      AddTailIn(link, psi, queues, waiters + {psi});
    }

    /** The timer item of a wait, in the wheel if the wait has a deadline; no queue is disturbed. */
    method ArmWait(ms: int, now: nat, ghost queues: set<CondLink>, ghost waiters: set<CondNode>)
      returns (item: Item, ret: int)
      requires Valid() && wheel.idx >= 0 && World(queues, waiters)
      modifies wheel`start, wheel`idx, wheel`nodes, wheel.lists, wheel.nodes`next
      ensures Valid() && fresh(item) && wheel.nodes == old(wheel.nodes) + {item} && World(queues, waiters)
      ensures item.payload == Timer(if ms > 0 then now + ms else 0, false, Waiter)
      ensures active.items == old(active.items) && timeout.items == old(timeout.items)
      ensures forall l :: l in queues ==> l.items == old(l.items) && Waiters(l) == old(Waiters(l))
      ensures if ms > 0
              then (wheel.Abs(), ret) == WheelModel.AddTimeout(old(wheel.Abs()), item, now + ms, now)
              else wheel.Abs() == old(wheel.Abs()) && ret == 0
    {
      hide World, WheelModel.AddTimeout;
      item := NewItem(Timer(if ms > 0 then now + ms else 0, false, Waiter));
      ret := 0;
      if ms > 0 {
        ret := wheel.AddTimeout(item, now);
      }
    }

    /** co_cond_timedwait up to its yield; when AddTimeout fails, nobody is queued. */
    method StartWait(link: CondLink, ms: int, now: nat, ghost queues: set<CondLink>, ghost waiters: set<CondNode>)
      returns (psi: Node?<CondItem>, ret: int)
      requires Valid() && wheel.idx >= 0 && World(queues, waiters) && link in queues
      modifies wheel`start, wheel`idx, wheel`nodes, wheel.lists, wheel.nodes`next, link, waiters`next
      ensures Valid() && (psi == null <==> ret != 0) && old(wheel.nodes) <= wheel.nodes
      ensures fresh(wheel.nodes - old(wheel.nodes))
      ensures active.items == old(active.items) && timeout.items == old(timeout.items)
      ensures forall l :: l in queues && l != link ==> l.items == old(l.items) && Waiters(l) == old(Waiters(l))
      ensures psi != null ==>
                && fresh(psi) && fresh(psi.payload.timeout) && World(queues, waiters + {psi})
                && psi.payload.timeout.payload == Timer(if ms > 0 then now + ms else 0, false, Waiter)
                && Waiters(link) == old(Waiters(link)) + [psi.payload.timeout]
                && wheel.nodes == old(wheel.nodes) + {psi.payload.timeout}
                && wheel.Abs() == if ms > 0
                                  then WheelModel.AddTimeout(old(wheel.Abs()), psi.payload.timeout, now + ms, now).0
                                  else old(wheel.Abs())
      ensures psi == null ==>
                && ms > 0 && World(queues, waiters) && Waiters(link) == old(Waiters(link))
                && wheel.Abs() == WheelModel.Started(old(wheel.Abs()), now)
      ensures ret == 0 <==> ms <= 0 || WheelModel.Started(old(wheel.Abs()), now).start <= now
    {
      hide World, WheelModel.AddTimeout, Epoll.Waiters, TimeoutWheel.Slots;
      ghost var w := wheel.Abs();
      var item;
      item, ret := ArmWait(ms, now, queues, waiters);
      if ms > 0 { WheelModel.AddFails(w, item, now + ms, now); }
      if ret != 0 {
        return null, ret;
      }
      psi := Enqueue(link, item, queues, waiters);
    }
  }
}
