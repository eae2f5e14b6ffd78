/** What every step of the scheduler keeps. */
module SchedulerInv {
  import opened Seqs
  import opened WheelModel
  import opened Scheduler

  /** Every item is in one timer list at most, and every list holds live items only. */
  ghost predicate PlaceInv(s: State) {
    && |s.wheel.slots| > 0 && s.wheel.start > 0 && WheelInv(s.wheel, s.past.stamps)
    && (forall id :: id in s.past.stamps ==> id in s.past.used && s.past.stamps[id].serial < s.past.tick)
    && NoDup(s.active)
    && (forall id :: id in s.active ==> id in s.timers && !InWheel(s.wheel, id))
    && (forall id :: InWheel(s.wheel, id) ==>
          id in s.timers && id in s.past.stamps && !s.timers[id].timedOut
          && s.past.stamps[id].expire == s.timers[id].expire)
    && (forall id :: id in s.timers || id in s.past.arrivals ==> id in s.past.used)
  }

  /** Where a live item is, according to its kind: a poll is in a timer list, and its counters
      say whether an event brought it to the active list; a waiter is in a timer list or queued. */
  ghost predicate Placed(s: State, id: Id)
    requires id in s.timers
  {
    var t := s.timers[id];
    match t.kind
    case Poll(detached, raised) =>
      && (InWheel(s.wheel, id) || id in s.active)
      && (detached <==> id in s.active && !t.timedOut)
      && (detached <==> raised > 0)
      && id !in s.past.arrivals
    case Waiter =>
      && id in s.past.arrivals
      && (InWheel(s.wheel, id) || id in s.active || id in Queue(s, s.past.arrivals[id].cond))
      && (id in s.active && !t.timedOut ==> id in s.past.signalled)
  }

  ghost predicate KindInv(s: State) {
    forall id :: id in s.timers ==> Placed(s, id)
  }

  /** Items marked as timed out belong to the pass under way; during a pass, what is in the
      wheel is not due yet. */
  ghost predicate TimeInv(s: State) {
    && (forall id :: id in s.timers && s.timers[id].timedOut ==> TimedOutNow(s, id))
    && (s.phase.Draining? ==>
          && s.phase.now <= s.wheel.start
          && forall id :: InWheel(s.wheel, id) && id in s.timers ==> s.phase.now < s.timers[id].expire)
  }

  ghost predicate TimedOutNow(s: State, id: Id)
    requires id in s.timers
  {
    && id in s.active && s.phase.Draining? && s.wheel.start == s.phase.now
    && id in s.past.stamps && s.past.stamps[id].expire == s.timers[id].expire
    && s.past.stamps[id].due <= s.phase.now
  }

  ghost predicate CoreInv(s: State) {
    PlaceInv(s) && KindInv(s) && TimeInv(s)
  }

  // ---------------------------------------------------------------- the core invariant, step by step

  /** Most steps concern one item only: for any other item `x` nothing changes. */
  ghost predicate Alike(s: State, r: State, x: Id) {
    && (InWheel(r.wheel, x) <==> InWheel(s.wheel, x))
    && (x in r.active <==> x in s.active)
    && (x in r.timers <==> x in s.timers) && (x in s.timers ==> r.timers[x] == s.timers[x])
    && (x in r.past.stamps <==> x in s.past.stamps) && (x in s.past.stamps ==> r.past.stamps[x] == s.past.stamps[x])
    && (x in r.past.arrivals <==> x in s.past.arrivals)
    && (x in s.past.arrivals ==>
          && r.past.arrivals[x] == s.past.arrivals[x]
          && (x in Queue(r, s.past.arrivals[x].cond) <==> x in Queue(s, s.past.arrivals[x].cond)))
    && (x in r.past.signalled <==> x in s.past.signalled)
    && (x in s.past.signalled ==> r.past.signalled[x] == s.past.signalled[x])
  }

  ghost predicate Touches(s: State, r: State, id: Id) {
    r.phase == s.phase && r.wheel.start == s.wheel.start && forall x :: x != id ==> Alike(s, r, x)
  }

  /** The item a step touches satisfies the item-wise invariants. */
  ghost predicate Settled(r: State, id: Id) {
    id in r.timers ==>
      && Placed(r, id)
      && (r.timers[id].timedOut ==> TimedOutNow(r, id))
      && (r.phase.Draining? && InWheel(r.wheel, id) ==> r.phase.now < r.timers[id].expire)
  }

  lemma TouchKeeps(s: State, r: State, id: Id)
    requires KindInv(s) && TimeInv(s) && Touches(s, r, id) && Settled(r, id)
    ensures KindInv(r) && TimeInv(r)
  {
    hide InWheel;
    forall x | x in r.timers
      ensures Settled(r, x)
    {
      if x != id {
        assert Alike(s, r, x) && Placed(s, x);
      }
    }
    assert forall x :: InWheel(r.wheel, x) && x in r.timers ==> Settled(r, x);
  }

  lemma ActivateKeepsPlaces(s: State, id: Id)
    requires PlaceInv(s) && id in s.timers
    ensures PlaceInv(Activate(s, id))
    ensures var r := Activate(s, id);
            id in r.active && !InWheel(r.wheel, id) && Touches(s, r, id)
  {
    CancelKeepsInv(s.wheel, s.past.stamps, id);
    var pos := WithoutPositions(s.active, id);
  }

  /** `s` with an item in the wheel, stamped. */
  ghost function Inserted(s: State, id: Id, t: Timer, now: nat): State
    requires |s.wheel.slots| > 0 && 0 < s.wheel.start <= now <= t.expire
  {
    s.(wheel := AddTimeout(s.wheel, id, t.expire, now).0, timers := s.timers[id := t],
       past := s.past.(used := s.past.used + {id},
                       stamps := s.past.stamps[id := StampOf(s.wheel, t.expire, now, s.past.tick)]))
  }

  lemma InsertKeepsPlaces(s: State, id: Id, t: Timer, now: nat)
    requires PlaceInv(s) && !InWheel(s.wheel, id) && id !in s.active && !t.timedOut
    requires s.wheel.start <= now <= t.expire
    ensures var r := Inserted(s, id, t, now);
            PlaceInv(Tick(r)) && InWheel(r.wheel, id) && Touches(s, r, id)
  {
    hide InWheel, WheelInv;
    AddKeepsInv(s.wheel, s.past.stamps, id, t.expire, now, s.past.tick);
  }

  lemma InsertSettles(s: State, id: Id, t: Timer, now: nat)
    requires CoreInv(s) && id !in s.past.used && !t.timedOut && now > 0
    requires s.wheel.start <= now < t.expire
    ensures var r := Inserted(s, id, t, now);
            PlaceInv(Tick(r)) && InWheel(r.wheel, id) && Touches(s, r, id) && id !in r.active
            && r.timers[id] == t && (r.phase.Draining? ==> r.phase.now < t.expire)
  {
    hide InWheel, WheelInv;
    assert id !in s.active && !InWheel(s.wheel, id);
    InsertKeepsPlaces(s, id, t, now);
  }

  lemma StartPollKeepsCore(s: State, id: Id, timeout: int, now: nat)
    requires CoreInv(s) && id !in s.past.used && timeout != 0 && now > 0
    ensures CoreInv(Tick(DoStartPoll(s, id, timeout, now)))
  {
    hide InWheel, WheelInv;
    var r := DoStartPoll(s, id, timeout, now);
    var t := Timer(now + PollWait(timeout), false, Poll(false, 0));
    if s.wheel.start <= now {
      InsertSettles(s, id, t, now);
      assert r == Inserted(s, id, t, now);
      assert id !in s.past.arrivals;
      hide PlaceInv;
      TouchKeeps(s, r, id);
      TickKeeps(r);
    } else {
      FailedStartKeepsCore(s, id);
      assert r == s.(past := s.past.(used := s.past.used + {id}));
    }
  }

  lemma TickKeeps(r: State)
    requires KindInv(r) && TimeInv(r)
    ensures KindInv(Tick(r)) && TimeInv(Tick(r))
  {
    hide InWheel;
    forall x | x in r.timers ensures Placed(Tick(r), x) { assert Placed(r, x); }
  }

  lemma FailedStartKeepsCore(s: State, id: Id)
    requires CoreInv(s)
    ensures CoreInv(Tick(s.(past := s.past.(used := s.past.used + {id}))))
  {
    hide InWheel, WheelInv;
    var r := s.(past := s.past.(used := s.past.used + {id}));
    forall x | x in r.timers ensures Placed(r, x) { assert Placed(s, x); }
    TickKeeps(r);
  }

  lemma EnqueueTouches(s: State, m: State, id: Id, c: Cond, t: Timer)
    requires Touches(s, m, id)
    ensures Touches(s, Enqueue(m, id, c, t), id)
  {
    hide InWheel;
    var r := Enqueue(m, id, c, t);
    forall x | x != id ensures Alike(s, r, x) { assert Alike(s, m, x); }
  }

  lemma EnqueueKeepsItems(s: State, m: State, id: Id, c: Cond, t: Timer)
    requires KindInv(s) && TimeInv(s) && id !in s.timers && Touches(s, m, id) && id !in m.active
    requires t == Timer(t.expire, false, Waiter)
    requires m.phase.Draining? && InWheel(m.wheel, id) ==> m.phase.now < t.expire
    ensures KindInv(Enqueue(m, id, c, t)) && TimeInv(Enqueue(m, id, c, t))
  {
    hide InWheel;
    EnqueueTouches(s, m, id, c, t);
    assert id in Queue(Enqueue(m, id, c, t), c);
    TouchKeeps(s, Enqueue(m, id, c, t), id);
  }

  lemma StartWaitKeepsCore(s: State, id: Id, c: Cond, ms: int, now: nat)
    requires CoreInv(s) && id !in s.past.used && now > 0
    ensures CoreInv(Tick(DoStartWait(s, id, c, ms, now)))
  {
    hide InWheel, WheelInv, KindInv, TimeInv;
    if ms <= 0 {
      UntimedWaitKeepsCore(s, id, c);
    } else if s.wheel.start <= now {
      TimedWaitKeepsCore(s, id, c, now + ms, now);
      TimedWaitInserts(s, id, c, ms, now);
    } else {
      FailedStartKeepsCore(s, id);
    }
  }

  lemma TimedWaitInserts(s: State, id: Id, c: Cond, ms: int, now: nat)
    requires |s.wheel.slots| > 0 && 0 < s.wheel.start <= now && ms > 0
    ensures var t := Timer(now + ms, false, Waiter);
            DoStartWait(s, id, c, ms, now) == Enqueue(Inserted(s, id, t, now), id, c, t)
  {
    var t := Timer(now + ms, false, Waiter);
    assert s.timers[id := t][id := t] == s.timers[id := t];
  }

  lemma UntimedWaitKeepsCore(s: State, id: Id, c: Cond)
    requires CoreInv(s) && id !in s.past.used
    ensures CoreInv(Tick(Enqueue(s.(past := s.past.(used := s.past.used + {id})), id, c, Timer(0, false, Waiter))))
  {
    hide InWheel, WheelInv;
    var m := s.(past := s.past.(used := s.past.used + {id}));
    var r := Enqueue(m, id, c, Timer(0, false, Waiter));
    assert id !in s.active && !InWheel(s.wheel, id);
    assert PlaceInv(Tick(r));
    hide PlaceInv;
    EnqueueKeepsItems(s, m, id, c, Timer(0, false, Waiter));
    TickKeeps(r);
  }

  lemma TimedWaitKeepsCore(s: State, id: Id, c: Cond, expire: nat, now: nat)
    requires CoreInv(s) && id !in s.past.used && 0 < s.wheel.start <= now < expire
    ensures var t := Timer(expire, false, Waiter);
            CoreInv(Tick(Enqueue(Inserted(s, id, t, now), id, c, t)))
  {
    hide InWheel, WheelInv;
    var t := Timer(expire, false, Waiter);
    var m := Inserted(s, id, t, now);
    var r := Enqueue(m, id, c, t);
    InsertSettles(s, id, t, now);
    assert id in Tick(m).past.used;
    assert PlaceInv(Tick(r));
    hide PlaceInv;
    EnqueueKeepsItems(s, m, id, c, t);
    TickKeeps(r);
  }

  lemma TouchTwice(s: State, m: State, r: State, id: Id)
    requires Touches(s, m, id) && Touches(m, r, id)
    ensures Touches(s, r, id)
  {
    hide InWheel;
    forall x | x != id ensures Alike(s, r, x) { assert Alike(s, m, x) && Alike(m, r, x); }
  }

  /** An item may be of another kind without being in another place. */
  lemma RaiseKeepsPlaces(s: State, id: Id, kind: Kind)
    requires PlaceInv(s) && id in s.timers
    ensures var m := s.(timers := s.timers[id := s.timers[id].(kind := kind)]);
            PlaceInv(m) && PlaceInv(Tick(m)) && Touches(s, m, id)
  {
    hide InWheel, WheelInv;
  }

  lemma TickKeepsPlaces(s: State)
    requires PlaceInv(s)
    ensures PlaceInv(Tick(s))
  {
    hide InWheel, WheelInv;
  }

  lemma ReadyKeepsPlaces(s: State, id: Id)
    requires PlaceInv(s) && id in s.timers && s.timers[id].kind.Poll?
    ensures PlaceInv(Tick(DoReady(s, id)))
    ensures Touches(s, DoReady(s, id), id)
    ensures var r := DoReady(s, id);
            s.timers[id].kind.detached || (id in r.active && !InWheel(r.wheel, id))
  {
    hide PlaceInv, Touches, InWheel, Activate, Tick;
    var kind := Poll(true, s.timers[id].kind.raised + 1);
    var m := s.(timers := s.timers[id := s.timers[id].(kind := kind)]);
    RaiseKeepsPlaces(s, id, kind);
    if !s.timers[id].kind.detached {
      ActivateKeepsPlaces(m, id);
      TouchTwice(s, m, Activate(m, id), id);
      TickKeepsPlaces(Activate(m, id));
    }
  }

  lemma ReadyKeepsCore(s: State, id: Id)
    requires CoreInv(s) && s.phase.Idle? && id in s.timers && s.timers[id].kind.Poll?
    ensures CoreInv(Tick(DoReady(s, id)))
  {
    hide InWheel, WheelInv;
    var r := DoReady(s, id);
    assert Placed(s, id);
    ReadyKeepsPlaces(s, id);
    hide PlaceInv;
    TouchKeeps(s, r, id);
    TickKeeps(r);
  }

  lemma SignalKeepsPlaces(s: State, c: Cond)
    requires PlaceInv(s) && Queue(s, c) != [] && Queue(s, c)[0] in s.timers
    ensures PlaceInv(DoSignal(s, c))
    ensures Touches(s, DoSignal(s, c), Queue(s, c)[0])
  {
    hide InWheel, WheelInv;
    var q := Queue(s, c);
    ActivateKeepsPlaces(s, q[0]);
    var a, r := Activate(s, q[0]), DoSignal(s, c);
    assert PlaceInv(r);
    hide PlaceInv;
    forall x | x != q[0] ensures Alike(s, r, x) { assert Alike(s, a, x); }
  }

  lemma SignalKeepsCore(s: State, c: Cond)
    requires CoreInv(s)
    requires Queue(s, c) != [] ==>
               && Queue(s, c)[0] in s.timers && s.timers[Queue(s, c)[0]].kind.Waiter?
    ensures CoreInv(DoSignal(s, c))
  {
    hide InWheel, WheelInv;
    var q := Queue(s, c);
    if q != [] {
      SignalKeepsPlaces(s, c);
      assert Placed(s, q[0]);
      ActivateKeepsPlaces(s, q[0]);
      hide PlaceInv;
      TouchKeeps(s, DoSignal(s, c), q[0]);
    }
  }

  lemma TakeKeepsPlaces(s: State, now: nat)
    requires PlaceInv(s) && CountOk(|s.wheel.slots|, s.wheel.start, now)
    ensures PlaceInv(Tick(DoTake(s, now)))
  {
    hide InWheel, WheelInv, TakeAll;
    var r := DoTake(s, now);
    var taken := TakeAll(s.wheel, now).1;
    TakeIsExact(s.wheel, s.past.stamps, now);
    assert r.active == s.active + taken;
    forall i, j | 0 <= i < j < |r.active| ensures r.active[i] != r.active[j] {
      if i < |s.active| <= j {
        assert r.active[j] in taken;
      }
    }
  }

  lemma TakeKeepsCore(s: State, now: nat)
    requires CoreInv(s) && s.phase.Idle? && CountOk(|s.wheel.slots|, s.wheel.start, now)
    ensures CoreInv(Tick(DoTake(s, now)))
  {
    hide InWheel, WheelInv, TakeAll;
    TakeKeepsPlaces(s, now);
    TakeIsExact(s.wheel, s.past.stamps, now);
    var r := DoTake(s, now);
    forall x | x in r.timers ensures Settled(r, x) { assert Placed(s, x); }
    assert forall x :: InWheel(r.wheel, x) && x in r.timers ==> Settled(r, x);
    hide PlaceInv;
    TickKeeps(r);
  }

  lemma PopKeepsPlaces(s: State)
    requires PlaceInv(s) && s.active != []
    ensures var id, m := s.active[0], s.(active := s.active[1..]);
            PlaceInv(m) && id in s.timers && !InWheel(m.wheel, id) && id !in m.active && Touches(s, m, id)
  {
    hide InWheel, WheelInv;
  }

  /** What a put-back item's history says does not matter to the places. */
  lemma ForgottenKeepsPlaces(n: State, id: Id, used: set<Id>, signalled: map<Id, Cond>)
    requires PlaceInv(Tick(n)) && id in used && used + {id} == n.past.used
    requires forall x :: x != id ==> (x in signalled <==> x in n.past.signalled)
                                     && (x in signalled ==> signalled[x] == n.past.signalled[x])
    ensures var r := n.(past := n.past.(used := used, signalled := signalled));
            PlaceInv(Tick(r)) && Touches(n, r, id)
  {
    hide InWheel, WheelInv;
    assert used == n.past.used;
  }

  lemma PutBackKeepsPlaces(s: State)
    requires PlaceInv(s) && s.phase.Draining? && s.active != []
    requires var t := s.timers[s.active[0]]; t.timedOut && s.phase.now < t.expire && s.phase.now == s.wheel.start
    ensures var id := s.active[0];
            var r := DoDrain(s);
            && PlaceInv(Tick(r)) && InWheel(r.wheel, id) && Touches(s, r, id)
            && r.timers[id] == s.timers[id].(timedOut := false) && id !in r.active && id in r.timers
            && AddTimeout(s.wheel, id, s.timers[id].expire, s.phase.now).1 == 0
            && r.queues == s.queues && r.past.arrivals == s.past.arrivals
  {
    PlacedIsUsed(s, s.active[0]);
    hide PlaceInv, InWheel, Alike;
    var id := s.active[0];
    var t := s.timers[id];
    var m := s.(active := s.active[1..]);
    PopKeepsPlaces(s);
    InsertKeepsPlaces(m, id, t.(timedOut := false), s.phase.now);
    var n := Inserted(m, id, t.(timedOut := false), s.phase.now);
    ForgottenKeepsPlaces(n, id, s.past.used, s.past.signalled - {id});
    var r := DoDrain(s);
    assert r == n.(past := n.past.(used := s.past.used, signalled := s.past.signalled - {id}));
    TouchTwice(s, m, n, id);
    TouchTwice(s, n, r, id);
  }

  lemma PlacedIsUsed(s: State, id: Id)
    requires PlaceInv(s) && id in s.active
    ensures id in s.past.used && |s.wheel.slots| > 0 && s.wheel.start > 0 && id in s.timers
  {
    hide InWheel, WheelInv;
  }

  lemma PutBackKeepsCore(s: State)
    requires CoreInv(s) && s.phase.Draining? && s.active != []
    requires s.timers[s.active[0]].timedOut && s.phase.now < s.timers[s.active[0]].expire
    ensures CoreInv(Tick(DoDrain(s)))
    ensures AddTimeout(s.wheel, s.active[0], s.timers[s.active[0]].expire, s.phase.now).1 == 0
  {
    hide InWheel, WheelInv;
    var id := s.active[0];
    assert TimedOutNow(s, id) && Placed(s, id);
    PutBackKeepsPlaces(s);
    hide PlaceInv;
    var r := DoDrain(s);
    TouchKeeps(s, r, id);
    TickKeeps(r);
  }

  lemma ResumeKeepsPlaces(s: State)
    requires PlaceInv(s) && s.phase.Draining? && s.active != []
    requires !(s.timers[s.active[0]].timedOut && s.phase.now < s.timers[s.active[0]].expire)
    ensures |s.wheel.slots| > 0 && s.active[0] in s.timers
    ensures PlaceInv(Tick(DoDrain(s))) && s.active[0] !in DoDrain(s).active
  {
    hide InWheel, WheelInv;
  }

  lemma ResumeKeepsCore(s: State)
    requires CoreInv(s) && s.phase.Draining? && s.active != []
    requires !(s.timers[s.active[0]].timedOut && s.phase.now < s.timers[s.active[0]].expire)
    ensures CoreInv(Tick(DoDrain(s)))
  {
    hide InWheel, WheelInv, PlaceInv;
    ResumeKeepsPlaces(s);
    var r := DoDrain(s);
    TouchKeeps(s, r, s.active[0]);
    TickKeeps(r);
  }
}
