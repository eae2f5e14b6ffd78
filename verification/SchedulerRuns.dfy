/** The invariant of the scheduler over whole runs. */
module SchedulerRuns {
  import opened Seqs
  import opened WheelModel
  import opened Scheduler
  import opened SchedulerInv
  import opened SchedulerOrder

  ghost predicate Inv(s: State) {
    CoreInv(s) && QueueInv(s) && LineInv(s) && LogInv(s)
  }

  // ---------------------------------------------------------------- queues and log, step by step

  lemma QueueNoDup(s: State, c: Cond)
    requires LineInv(s)
    ensures forall i, j :: 0 <= i < j < |Queue(s, c)| ==> Queue(s, c)[i] != Queue(s, c)[j]
  {
    hide LogLine, ActiveLine;
    assert ByArrival(s.past.arrivals, Line(s, c));
    var q, k := Queue(s, c), |Line(s, c)| - |Queue(s, c)|;
    assert forall i :: 0 <= i < |q| ==> q[i] == Line(s, c)[k + i];
  }

  /** A step that gives one item a new timer of the same kind and touches no queue. */
  lemma QueueInvKept(s: State, r: State)
    requires QueueInv(s) && r.queues == s.queues && r.past.tick == s.past.tick
    requires r.past.arrivals == s.past.arrivals && r.past.signalled == s.past.signalled
    requires forall x :: x in s.timers ==> x in r.timers && r.timers[x].kind.Waiter? == s.timers[x].kind.Waiter?
    requires forall x :: x in s.active ==> x in r.active
    ensures QueueInv(Tick(r))
  {
    forall c, x | x in Queue(Tick(r), c) ensures WaitsOn(Tick(r), x, c) { assert x in Queue(s, c); }
    forall x | x in s.past.signalled ensures Picked(Tick(r), x) { assert Picked(s, x); }
  }

  lemma EnqueueKeepsQueues(s: State, m: State, id: Id, c: Cond, t: Timer)
    requires QueueInv(s) && id !in s.timers && id !in s.past.arrivals && t.kind.Waiter?
    requires m.queues == s.queues && m.past.tick == s.past.tick && m.active == s.active
    requires m.past.arrivals == s.past.arrivals && m.past.signalled == s.past.signalled
    requires m.timers == s.timers || m.timers == s.timers[id := t]
    ensures QueueInv(Tick(Enqueue(m, id, c, t)))
  {
    var r := Tick(Enqueue(m, id, c, t));
    assert id in s.past.signalled ==> Picked(s, id);
    forall d, x | x in Queue(r, d) ensures WaitsOn(r, x, d) {
      assert x in Queue(s, d) || (d == c && x == id);
      assert x in Queue(s, d) ==> WaitsOn(s, x, d);
    }
    forall x | x in r.past.signalled ensures Picked(r, x) { assert Picked(s, x); }
  }

  lemma SignalKeepsQueues(s: State, c: Cond)
    requires QueueInv(s) && LineInv(s)
    ensures QueueInv(DoSignal(s, c)) && LineInv(DoSignal(s, c))
  {
    hide Line, Cancel;
    var r, q := DoSignal(s, c), Queue(s, c);
    if q != [] {
      assert WaitsOn(s, q[0], c);
      QueueNoDup(s, c);
      forall d, x | x in Queue(r, d) ensures WaitsOn(r, x, d) {
        assert x in Queue(s, d);
        assert WaitsOn(s, x, d);
        assert x != q[0];
      }
      forall x | x in r.past.signalled ensures Picked(r, x) {
        assert x != q[0] ==> Picked(s, x);
      }
    }
    forall d ensures ByArrival(r.past.arrivals, Line(r, d)) {
      SignalKeepsLines(s, c, d);
    }
  }

  lemma PutBackKeepsQueues(s: State, r: State)
    requires QueueInv(s) && s.active != [] && s.active[0] in s.timers && NoDup(s.active)
    requires r.active == s.active[1..] && r.past.signalled == s.past.signalled - {s.active[0]}
    requires r.past.arrivals == s.past.arrivals && r.queues == s.queues && r.past.tick == s.past.tick
    requires r.timers == s.timers[s.active[0] := s.timers[s.active[0]].(timedOut := false)]
    ensures QueueInv(Tick(r))
  {
    forall c, x | x in Queue(Tick(r), c) ensures WaitsOn(Tick(r), x, c) { assert x in Queue(s, c); }
    forall x | x in r.past.signalled ensures Picked(Tick(r), x) { assert Picked(s, x); }
  }

  lemma ResumeKeepsQueues(s: State, t: Timer)
    requires QueueInv(s) && s.active != [] && NoDup(s.active)
    ensures QueueInv(Tick(Resume(s.(active := s.active[1..]), s.active[0], t)))
  {
    var id := s.active[0];
    var r := Tick(Resume(s.(active := s.active[1..]), id, t));
    forall c, x | x in Queue(r, c) ensures WaitsOn(r, x, c) {
      assert x in Queue(s, c) && x != id;
      assert WaitsOn(s, x, c);
    }
    forall x | x in r.past.signalled ensures Picked(r, x) { assert Picked(s, x); }
  }

  lemma LogInvKept(s: State, r: State)
    requires LogInv(s) && r.past.log == s.past.log && s.past.used <= r.past.used
    requires forall x :: x in r.timers ==> x in s.timers || x !in s.past.used
    ensures LogInv(Tick(r))
  {
  }

  // ---------------------------------------------------------------- every step keeps the invariant

  lemma FreshItem(s: State, id: Id)
    requires Inv(s) && id !in s.past.used
    ensures id !in s.timers && id !in s.past.arrivals && id !in s.active && id !in s.past.signalled
  {
    hide WheelInv, KindInv, TimeInv, LineInv, LogInv;
    assert id in s.past.signalled ==> Picked(s, id);
  }

  lemma HeadWaits(s: State, c: Cond)
    requires Inv(s) && Queue(s, c) != []
    ensures WaitsOn(s, Queue(s, c)[0], c)
  {
  }

  lemma PollIsNotSignalled(s: State, id: Id)
    requires Inv(s) && id in s.timers && s.timers[id].kind.Poll?
    ensures id !in s.past.signalled
  {
    assert id in s.past.signalled ==> Picked(s, id);
  }

  lemma ActiveItem(s: State, id: Id)
    requires Inv(s) && id in s.active
    ensures id in s.timers && Placed(s, id) && !InWheel(s.wheel, id)
    ensures s.timers[id].timedOut ==> TimedOutNow(s, id)
    ensures id in s.past.signalled ==> Picked(s, id)
  {
  }

  lemma WheelOf(s: State)
    requires Inv(s)
    ensures PlaceInv(s) && WheelInv(s.wheel, s.past.stamps) && s.wheel.start > 0
  {
  }

  lemma StartPollKeepsInv(s: State, id: Id, timeout: int, now: nat)
    requires Inv(s) && id !in s.past.used && timeout != 0 && now > 0
    ensures Inv(Tick(DoStartPoll(s, id, timeout, now)))
  {
    hide WheelInv, KindInv, TimeInv, AddTimeout, QueueInv, LineInv, LogInv;
    FreshItem(s, id);
    StartPollKeepsCore(s, id, timeout, now);
    var r := DoStartPoll(s, id, timeout, now);
    QueueInvKept(s, r);
    SameLines(s, Tick(r));
    LogInvKept(s, r);
  }

  /** A new waiter joins its queue; `m` may differ from `s` in the wheel and in the new item. */
  lemma EnqueueKeepsOthers(s: State, m: State, id: Id, c: Cond, t: Timer)
    requires QueueInv(s) && LineInv(s) && LogInv(s) && id !in s.past.used && id !in s.timers && id !in s.past.arrivals
    requires t.kind.Waiter? && m.queues == s.queues && m.active == s.active && m.timers == s.timers
    requires m.past == s.past.(used := s.past.used + {id}, stamps := m.past.stamps)
    ensures QueueInv(Tick(Enqueue(m, id, c, t))) && LineInv(Tick(Enqueue(m, id, c, t)))
    ensures LogInv(Tick(Enqueue(m, id, c, t)))
  {
    EnqueueKeepsQueues(s, m, id, c, t);
    EnqueueKeepsLines(s, m, id, c, t);
    var r := Enqueue(m, id, c, t);
    LogInvKept(s, r);
    hide QueueInv, LineInv, LogInv, ActiveLine, Line;
    SameLines(r, Tick(r));
  }

  lemma FailedStartKeepsOthers(s: State, id: Id)
    requires QueueInv(s) && LineInv(s) && LogInv(s)
    ensures var r := Tick(s.(past := s.past.(used := s.past.used + {id})));
            QueueInv(r) && LineInv(r) && LogInv(r)
  {
    hide QueueInv, LineInv, LogInv, ActiveLine, Line;
    var r := s.(past := s.past.(used := s.past.used + {id}));
    QueueInvKept(s, r);
    LogInvKept(s, r);
    SameLines(s, Tick(r));
  }

  lemma StartWaitKeepsInv(s: State, id: Id, c: Cond, ms: int, now: nat)
    requires Inv(s) && id !in s.past.used && now > 0
    ensures Inv(Tick(DoStartWait(s, id, c, ms, now)))
  {
    FreshItem(s, id);
    WheelOf(s);
    hide CoreInv, PlaceInv, QueueInv, LineInv, LogInv, AddTimeout;
    StartWaitKeepsCore(s, id, c, ms, now);
    var used := s.past.(used := s.past.used + {id});
    if ms <= 0 {
      EnqueueKeepsOthers(s, s.(past := used), id, c, Timer(0, false, Waiter));
    } else {
      AddFails(s.wheel, id, now + ms, now);
      var w := AddTimeout(s.wheel, id, now + ms, now).0;
      if s.wheel.start <= now {
        var stamps := s.past.stamps[id := StampOf(s.wheel, now + ms, now, s.past.tick)];
        var m := s.(wheel := w, past := used.(stamps := stamps));
        EnqueueKeepsOthers(s, m, id, c, Timer(now + ms, false, Waiter));
      } else {
        FailedStartKeepsOthers(s, id);
      }
    }
  }

  lemma ReadyKeepsInv(s: State, id: Id)
    requires Inv(s) && s.phase.Idle? && id in s.timers && s.timers[id].kind.Poll?
    ensures Inv(Tick(DoReady(s, id)))
  {
    hide WheelInv, KindInv, TimeInv, LineInv, LogInv;
    ReadyKeepsCore(s, id);
    assert id in s.past.signalled ==> Picked(s, id);
    var r := DoReady(s, id);
    ReadyKeepsLines(s, id);
    SameLines(r, Tick(r));
    QueueInvKept(s, r);
    LogInvKept(s, r);
  }

  lemma SignalKeepsInv(s: State, c: Cond)
    requires Inv(s)
    ensures Inv(DoSignal(s, c))
  {
    hide WheelInv, KindInv, TimeInv, LineInv;
    var q := Queue(s, c);
    assert q != [] ==> WaitsOn(s, q[0], c);
    SignalKeepsCore(s, c);
    SignalKeepsQueues(s, c);
  }

  lemma {:induction false} BroadcastKeepsInv(s: State, c: Cond)
    requires Inv(s)
    ensures Inv(DoBroadcast(s, c)) && Queue(DoBroadcast(s, c), c) == []
    decreases |Queue(s, c)|
  {
    hide Inv;
    if Queue(s, c) != [] {
      SignalKeepsInv(s, c);
      BroadcastKeepsInv(DoSignal(s, c), c);
    }
  }

  lemma TickKeepsInv(r: State)
    requires Inv(r)
    ensures Inv(Tick(r))
  {
    hide WheelInv, LineInv, KindInv, TimeInv;
    TickKeeps(r);
    QueueInvKept(r, r);
    SameLines(r, Tick(r));
    LogInvKept(r, r);
  }

  lemma TakeKeepsInv(s: State, now: nat)
    requires Inv(s) && s.phase.Idle? && CountOk(|s.wheel.slots|, s.wheel.start, now)
    ensures Inv(Tick(DoTake(s, now)))
  {
    hide WheelInv, KindInv, TimeInv, LineInv, LogInv, TakeAll, InWheel;
    TakeKeepsCore(s, now);
    TakeIsExact(s.wheel, s.past.stamps, now);
    var r := DoTake(s, now);
    forall x | x in TakeAll(s.wheel, now).1 ensures x !in s.past.signalled {
      assert x in s.past.signalled ==> Picked(s, x);
    }
    TakeKeepsLines(s, now);
    SameLines(r, Tick(r));
    QueueInvKept(s, r);
    LogInvKept(s, r);
  }

  lemma PutBackKeepsInv(s: State)
    requires Inv(s) && s.phase.Draining? && s.active != []
    requires s.timers[s.active[0]].timedOut && s.phase.now < s.timers[s.active[0]].expire
    ensures Inv(Tick(DoDrain(s)))
  {
    hide WheelInv, KindInv, TimeInv, LineInv, LogInv, AddTimeout, QueueInv;
    PutBackKeepsCore(s);
    var r := DoDrain(s);
    PutBackKeepsQueues(s, r);
    PutBackKeepsLines(s, Tick(r));
    LogInvKept(s, r);
  }

  lemma ResumeKeepsInv(s: State)
    requires Inv(s) && s.phase.Draining? && s.active != []
    requires !(s.timers[s.active[0]].timedOut && s.phase.now < s.timers[s.active[0]].expire)
    ensures Inv(Tick(DoDrain(s)))
  {
    hide WheelInv, KindInv, TimeInv, LineInv;
    var t := s.timers[s.active[0]];
    ResumeKeepsCore(s);
    var r := DoDrain(s);
    ResumeKeepsQueues(s, t);
    forall c, id | id in Queue(s, c) ensures id !in s.past.signalled { assert WaitsOn(s, id, c); }
    ResumeKeepsLines(s, t);
    SameLines(r, Tick(r));
    assert LogInv(Tick(r));
  }

  lemma StepKeepsInv(s: State, l: Label)
    requires Inv(s) && Enabled(s, l) && GoodClock(s, l)
    ensures Inv(Step(s, l))
  {
    hide Inv;
    match l
    case StartPoll(id, timeout, now) => StartPollKeepsInv(s, id, timeout, now);
    case StartWait(id, c, ms, now) => StartWaitKeepsInv(s, id, c, ms, now);
    case Ready(id) => ReadyKeepsInv(s, id);
    case Signal(c) => SignalKeepsInv(s, c); TickKeepsInv(DoSignal(s, c));
    case Broadcast(c) => BroadcastKeepsInv(s, c); TickKeepsInv(DoBroadcast(s, c));
    case Take(now) => TakeKeepsInv(s, now);
    case Drain =>
      var t := s.timers[s.active[0]];
      if t.timedOut && s.phase.now < t.expire { PutBackKeepsInv(s); } else { ResumeKeepsInv(s); }
    case EndPass => EndPassKeepsInv(s);
  }

  lemma EndPassKeepsInv(s: State)
    requires Inv(s) && s.phase.Draining? && s.active == []
    ensures Inv(Tick(s.(phase := Idle)))
  {
    hide WheelInv, LineInv;
    var r := s.(phase := Idle);
    forall x | x in r.timers ensures Placed(r, x) { assert Placed(s, x); }
    TickKeeps(r);
    QueueInvKept(s, r);
    SameLines(s, Tick(r));
    LogInvKept(s, r);
  }

  lemma InitInv(size: nat, start: nat)
    requires size > 0 && start > 0
    ensures Inv(Init(size, start))
  {
  }

  /** The invariant holds all along a run. */
  lemma {:induction false} RunKeepsInv(states: seq<State>, labels: seq<Label>, n: nat)
    requires IsRun(states, labels) && Inv(states[0]) && n <= |labels|
    ensures Inv(states[n])
  {
    if n > 0 {
      hide Inv;
      RunKeepsInv(states, labels, n - 1);
      StepKeepsInv(states[n - 1], labels[n - 1]);
    }
  }

  lemma RunStep(states: seq<State>, labels: seq<Label>, i: nat)
    requires IsRun(states, labels) && i < |labels|
    ensures |states| == |labels| + 1 && Enabled(states[i], labels[i]) && GoodClock(states[i], labels[i])
    ensures states[i + 1] == Step(states[i], labels[i])
  {
  }

  /** A stretch of a run is a run. */
  lemma PartIsRun(states: seq<State>, labels: seq<Label>, i: nat, j: nat)
    requires IsRun(states, labels) && i <= j <= |labels|
    ensures |states| == |labels| + 1 && IsRun(states[i..j + 1], labels[i..j])
  {
    hide Step, Enabled, GoodClock;
  }
}
