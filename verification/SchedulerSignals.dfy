/** What a signal of a condition variable achieves. */
module SchedulerSignals {
  import opened Seqs
  import opened WheelModel
  import opened Scheduler
  import opened SchedulerInv
  import opened SchedulerOrder
  import opened SchedulerRuns
  import opened SchedulerPolls

  // ---------------------------------------------------------------- in waiting order

  /** The place in the line of `c` of a wake by a signal of `c`. */
  lemma {:induction false} LogLineAt(log: seq<Wake>, c: Cond, k: nat)
    requires k < |log| && log[k].cause == BySignal(c)
    ensures |LogLine(log[..k], c)| < |LogLine(log, c)|
    ensures LogLine(log, c)[|LogLine(log[..k], c)|] == log[k].id
  {
    var n := |log| - 1;
    if k < n {
      LogLineAt(log[..n], c, k);
      assert log[..n][..k] == log[..k];
    }
  }

  lemma {:induction false} LogLineGrows(log: seq<Wake>, c: Cond, i: nat, j: nat)
    requires i < j <= |log| && log[i].cause == BySignal(c)
    ensures |LogLine(log[..i], c)| < |LogLine(log[..j], c)|
  {
    LogLineAt(log[..j], c, i);
    assert log[..j][..i] == log[..i];
  }

  /** In every run, the waiters that signals and broadcasts of a condition variable resume are
      resumed in the order in which they began to wait. */
  lemma ResumedInWaitingOrder(states: seq<State>, labels: seq<Label>, size: nat, start: nat, c: Cond, i: nat, j: nat)
    requires IsRun(states, labels) && size > 0 && start > 0 && states[0] == Init(size, start)
    requires var log := states[|labels|].past.log;
             i < j < |log| && log[i].cause == log[j].cause == BySignal(c)
    ensures var past := states[|labels|].past;
            && past.log[i].id in past.arrivals && past.log[j].id in past.arrivals
            && past.arrivals[past.log[i].id].serial < past.arrivals[past.log[j].id].serial
  {
    var s := states[|labels|];
    InitInv(size, start);
    RunKeepsInv(states, labels, |labels|);
    hide CoreInv, QueueInv, LogInv, LogLine, ActiveLine, IsRun;
    var l := LogLine(s.past.log, c);
    LogLineAt(s.past.log, c, i);
    LogLineAt(s.past.log, c, j);
    LogLineGrows(s.past.log, c, i, j);
    assert ByArrival(s.past.arrivals, Line(s, c));
    assert forall k :: 0 <= k < |l| ==> Line(s, c)[k] == l[k];
  }

  /** A broadcast empties the queue and puts the waiters, in order, at the end of the active list. */
  lemma {:induction false} BroadcastOrder(s: State, c: Cond)
    requires NoDup(Queue(s, c))
    ensures DoBroadcast(s, c).active == WithoutAll(s.active, Queue(s, c)) + Queue(s, c)
    ensures Queue(DoBroadcast(s, c), c) == []
    decreases |Queue(s, c)|
  {
    var q := Queue(s, c);
    if q != [] {
      var m := DoSignal(s, c);
      assert Queue(m, c) == q[1..];
      BroadcastOrder(m, c);
      MoveFirstToEnd(s.active, q);
    }
  }

  // ---------------------------------------------------------------- steps that pass an item by

  lemma InsertPassesBy(s: State, id: Id, t: Timer, now: nat, x: Id)
    requires Inv(s) && id !in s.past.used && !t.timedOut && s.wheel.start <= now <= t.expire && x != id
    ensures |s.wheel.slots| > 0 && s.wheel.start > 0 && Alike(s, Inserted(s, id, t, now), x)
  {
    FreshItem(s, id);
    hide WheelInv, LineInv, QueueInv, LogInv, KindInv, TimeInv, InWheel, Alike;
    InsertKeepsPlaces(s, id, t, now);
  }

  lemma LateStartPassesBy(s: State, id: Id, x: Id)
    ensures Alike(s, s.(past := s.past.(used := s.past.used + {id})), x)
  {
    hide InWheel;
  }

  lemma StartPollPassesBy(s: State, id: Id, timeout: int, now: nat, x: Id)
    requires Inv(s) && id !in s.past.used && timeout != 0 && now > 0 && x != id
    ensures |s.wheel.slots| > 0 && Alike(s, DoStartPoll(s, id, timeout, now), x)
  {
    hide Inv, Alike, InWheel;
    WheelOf(s);
    if s.wheel.start <= now {
      InsertPassesBy(s, id, Timer(now + PollWait(timeout), false, Poll(false, 0)), now, x);
    } else {
      LateStartPassesBy(s, id, x);
    }
  }

  lemma StartWaitPassesBy(s: State, id: Id, c: Cond, ms: int, now: nat, x: Id)
    requires Inv(s) && id !in s.past.used && now > 0 && x != id
    ensures |s.wheel.slots| > 0 && Alike(s, DoStartWait(s, id, c, ms, now), x)
  {
    FreshItem(s, id);
    WheelOf(s);
    hide Inv, InWheel, Alike;
    var t := Timer(if ms > 0 then now + ms else 0, false, Waiter);
    if ms <= 0 {
      LateStartPassesBy(s, id, x);
      EnqueuePassesBy(s.(past := s.past.(used := s.past.used + {id})), id, c, t, x);
      AlikeTwice(s, s.(past := s.past.(used := s.past.used + {id})), DoStartWait(s, id, c, ms, now), x);
    } else if s.wheel.start <= now {
      InsertPassesBy(s, id, t, now, x);
      TimedWaitInserts(s, id, c, ms, now);
      EnqueuePassesBy(Inserted(s, id, t, now), id, c, t, x);
      AlikeTwice(s, Inserted(s, id, t, now), DoStartWait(s, id, c, ms, now), x);
    } else {
      LateStartPassesBy(s, id, x);
    }
  }

  lemma EnqueuePassesBy(s: State, id: Id, c: Cond, t: Timer, x: Id)
    requires x != id
    ensures Alike(s, Enqueue(s, id, c, t), x)
  {
    hide InWheel;
  }

  lemma AlikeTwice(s: State, m: State, r: State, x: Id)
    requires Alike(s, m, x) && Alike(m, r, x)
    ensures Alike(s, r, x)
  {
    hide InWheel;
  }

  lemma SignalPassesBy(s: State, c: Cond, x: Id)
    requires Inv(s) && (Queue(s, c) != [] ==> Queue(s, c)[0] != x)
    ensures Alike(s, DoSignal(s, c), x)
  {
    var q := Queue(s, c);
    assert q != [] ==> WaitsOn(s, q[0], c);
    hide WheelInv, LineInv, QueueInv, LogInv, KindInv, TimeInv, InWheel;
    if q != [] { SignalKeepsPlaces(s, c); }
  }

  lemma {:induction false} BroadcastPassesBy(s: State, c: Cond, x: Id)
    requires Inv(s) && x !in Queue(s, c)
    ensures Alike(s, DoBroadcast(s, c), x)
    decreases |Queue(s, c)|
  {
    hide Inv, InWheel;
    if Queue(s, c) != [] {
      SignalPassesBy(s, c, x);
      SignalKeepsInv(s, c);
      BroadcastPassesBy(DoSignal(s, c), c, x);
    }
  }

  lemma TakePassesBy(s: State, now: nat, x: Id)
    requires Inv(s) && CountOk(|s.wheel.slots|, s.wheel.start, now) && !InWheel(s.wheel, x)
    ensures Alike(s, DoTake(s, now), x)
  {
    hide WheelInv, LineInv, QueueInv, LogInv, KindInv, TimeInv, InWheel, TakeAll;
    TakeIsExact(s.wheel, s.past.stamps, now);
  }

  lemma HeadFacts(s: State)
    requires Inv(s) && s.active != []
    ensures PlaceInv(s) && |s.wheel.slots| > 0 && s.active[0] in s.timers
    ensures s.timers[s.active[0]].timedOut && s.phase.Draining? ==> s.phase.now == s.wheel.start
  {
    hide LineInv, LogInv, KindInv, InWheel;
    assert s.timers[s.active[0]].timedOut ==> TimedOutNow(s, s.active[0]);
  }

  lemma DrainPassesBy(s: State, x: Id)
    requires Inv(s) && s.phase.Draining? && s.active != [] && s.active[0] != x
    ensures Alike(s, DoDrain(s), x)
  {
    hide Inv, PlaceInv, InWheel;
    HeadFacts(s);
    var t := s.timers[s.active[0]];
    if t.timedOut && s.phase.now < t.expire {
      PutBackKeepsPlaces(s);
    }
  }

  /** The step neither takes, drains, raises nor signals item `x`. */
  ghost predicate PassesBy(s: State, l: Label, x: Id) {
    match l
    case Ready(id) => id != x
    case Signal(c) => x !in Queue(s, c)
    case Broadcast(c) => x !in Queue(s, c)
    case Take(_) => !InWheel(s.wheel, x)
    case Drain => s.active != [] && s.active[0] != x
    case _ => true
  }

  lemma PassedByIsAlike(s: State, l: Label, x: Id)
    requires Inv(s) && Enabled(s, l) && GoodClock(s, l) && x in s.timers && PassesBy(s, l, x)
    ensures Alike(s, Act(s, l), x)
  {
    assert x in s.past.used;
    hide Inv, InWheel, DoReady, DoDrain, DoStartPoll, DoStartWait, DoTake, DoSignal, DoBroadcast;
    match l
    case StartPoll(id, timeout, t) => StartPollPassesBy(s, id, timeout, t, x);
    case StartWait(id, c, ms, t) => StartWaitPassesBy(s, id, c, ms, t, x);
    case Ready(id) => ReadyTouches(s, id); assert Touches(s, DoReady(s, id), id);
    case Signal(c) => SignalPassesBy(s, c, x);
    case Broadcast(c) => BroadcastPassesBy(s, c, x);
    case Take(now) => TakePassesBy(s, now, x);
    case Drain => DrainPassesBy(s, x);
    case EndPass =>
  }

  lemma ReadyTouches(s: State, id: Id)
    requires Inv(s) && id in s.timers && s.timers[id].kind.Poll?
    ensures Touches(s, DoReady(s, id), id)
  {
    ReadyKeepsPlaces(s, id);
  }

  // ---------------------------------------------------------------- when a signal wakes

  /** Between `s` and `r`, the item was resumed. */
  ghost predicate Woken(s: State, r: State, id: Id) {
    exists k :: |s.past.log| <= k < |r.past.log| && r.past.log[k].id == id
  }

  /** Picked by a signal and not resumed yet. */
  ghost predicate Pending(s: State, id: Id, t: Timer) {
    id in s.active && id in s.past.signalled && id in s.timers && s.timers[id] == t
  }

  /** Back in the wheel, with nothing but its deadline left to wake it. */
  ghost predicate Shelved(s: State, id: Id) {
    && id in s.timers && InWheel(s.wheel, id) && s.timers[id].kind.Waiter?
    && id in s.past.arrivals && id !in Queue(s, s.past.arrivals[id].cond)
  }

  /** The pass under way took the item out of its slot before its deadline. */
  predicate TakenEarly(s: State, id: Id) {
    s.phase.Draining? && id in s.timers && s.timers[id].timedOut && s.phase.now < s.timers[id].expire
  }

  lemma PhaseKept(s: State, l: Label)
    requires Enabled(s, l) && !l.Take? && !l.EndPass?
    ensures Step(s, l).phase == s.phase
  {
    hide AddTimeout;
    if l.Broadcast? { BroadcastKeepsTimers(s, l.cond); }
  }

  /** A picked item stays picked until its turn comes. */
  lemma PendingStaysPending(s: State, l: Label, id: Id, t: Timer)
    requires Inv(s) && Enabled(s, l) && GoodClock(s, l) && Pending(s, id, t)
    requires !(l.Drain? && s.active[0] == id)
    ensures Pending(Step(s, l), id, t)
  {
    assert Picked(s, id);
    forall c ensures id !in Queue(s, c) { assert id in Queue(s, c) ==> WaitsOn(s, id, c); }
    assert !InWheel(s.wheel, id);
    hide Inv, Act, InWheel;
    PassedByIsAlike(s, l, id);
  }

  /** When its turn comes it is resumed, unless it was taken early. */
  lemma OrdinaryTurn(s: State, id: Id)
    requires Inv(s) && Enabled(s, Drain) && s.active[0] == id && !TakenEarly(s, id)
    ensures var r := Step(s, Drain);
            |r.past.log| == |s.past.log| + 1 && r.past.log[|s.past.log|].id == id
  {
    hide Inv;
  }

  lemma EarlyFacts(s: State, id: Id, t: Timer)
    requires Inv(s) && Pending(s, id, t) && TakenEarly(s, id)
    ensures PlaceInv(s) && s.phase.now == s.wheel.start && s.timers[id].kind.Waiter?
    ensures id in s.past.arrivals && id !in Queue(s, s.past.arrivals[id].cond)
  {
    hide PlaceInv, LineInv, LogInv;
    assert Picked(s, id) && TimedOutNow(s, id);
    var c := s.past.arrivals[id].cond;
    assert id in Queue(s, c) ==> WaitsOn(s, id, c);
  }

  lemma EarlyTurn(s: State, id: Id, t: Timer)
    requires Inv(s) && Enabled(s, Drain) && Pending(s, id, t) && s.active[0] == id && TakenEarly(s, id)
    ensures Shelved(Step(s, Drain), id)
  {
    hide Inv, PlaceInv, InWheel, DoDrain, Touches;
    EarlyFacts(s, id, t);
    PutBackKeepsPlaces(s);
  }

  /** A shelved item stays in the wheel for the rest of the pass. */
  lemma ShelvedStaysShelved(s: State, l: Label, id: Id)
    requires Inv(s) && Enabled(s, l) && GoodClock(s, l) && Shelved(s, id) && s.phase.Draining?
    ensures Shelved(Step(s, l), id)
  {
    forall c ensures id !in Queue(s, c) { assert id in Queue(s, c) ==> WaitsOn(s, id, c); }
    assert s.active != [] ==> s.active[0] in s.active;
    hide Inv, Act, InWheel;
    PassedByIsAlike(s, l, id);
  }

  /** What has become of the item picked by a signal in `s0`. */
  ghost predicate Fate(s0: State, s: State, id: Id)
    requires id in s0.timers
  {
    if TakenEarly(s0, id)
    then s.phase == s0.phase && (Pending(s, id, s0.timers[id]) || Shelved(s, id))
    else (Pending(s, id, s0.timers[id]) && (s0.timers[id].timedOut ==> s.phase == s0.phase)) || Woken(s0, s, id)
  }

  lemma FateStep(s0: State, s: State, l: Label, id: Id)
    requires Inv(s) && Enabled(s, l) && GoodClock(s, l) && !l.EndPass? && |s0.past.log| <= |s.past.log|
    requires id in s0.timers && (s0.timers[id].timedOut ==> s0.phase.Draining?) && Fate(s0, s, id)
    ensures Fate(s0, Step(s, l), id) && |s.past.log| <= |Step(s, l).past.log|
  {
    LogOnlyGrows(s, l);
    hide Inv, Act, InWheel;
    var r, t := Step(s, l), s0.timers[id];
    if s.phase.Draining? { PhaseKept(s, l); }
    if Pending(s, id, t) {
      if l.Drain? && s.active[0] == id {
        if TakenEarly(s, id) {
          EarlyTurn(s, id, t);
        } else {
          OrdinaryTurn(s, id);
          assert Woken(s0, r, id);
        }
      } else {
        PendingStaysPending(s, l, id, t);
      }
    } else if TakenEarly(s0, id) {
      ShelvedStaysShelved(s, l, id);
    } else {
      var k :| |s0.past.log| <= k < |s.past.log| && s.past.log[k].id == id;
      assert r.past.log[k].id == id;
    }
  }

  lemma LogOnlyGrows(s: State, l: Label)
    requires Enabled(s, l)
    ensures s.past.log <= Step(s, l).past.log
  {
    hide AddTimeout;
    if l.Broadcast? { BroadcastKeepsTimers(s, l.cond); }
  }

  /** The step signals or broadcasts a condition variable and thereby picks the waiter `id`. */
  predicate Chooses(s: State, l: Label, id: Id) {
    match l
    case Signal(c) => Queue(s, c) != [] && Queue(s, c)[0] == id
    case Broadcast(c) => id in Queue(s, c)
    case _ => false
  }

  /** A broadcast picks everybody in the queue. */
  lemma {:induction false} BroadcastPicks(s: State, c: Cond, id: Id)
    requires Inv(s) && id in Queue(s, c)
    ensures id in DoBroadcast(s, c).active && id in DoBroadcast(s, c).past.signalled
    decreases |Queue(s, c)|
  {
    var q, m := Queue(s, c), DoSignal(s, c);
    assert Queue(m, c) == q[1..];
    SignalKeepsInv(s, c);
    QueueIsNoDup(s, c);
    hide Inv, InWheel;
    if id == q[0] {
      BroadcastPassesBy(m, c, id);
    } else {
      BroadcastPicks(m, c, id);
    }
  }

  lemma QueueIsNoDup(s: State, c: Cond)
    requires Inv(s)
    ensures NoDup(Queue(s, c))
  {
    hide CoreInv, QueueInv, LogInv;
    QueueNoDup(s, c);
  }

  lemma WaiterFacts(s: State, l: Label, id: Id)
    requires Inv(s) && Chooses(s, l, id)
    ensures id in s.timers && (s.timers[id].timedOut ==> s.phase.Draining?)
  {
    assert id in Queue(s, l.cond);
    assert WaitsOn(s, id, l.cond);
    assert s.timers[id].timedOut ==> TimedOutNow(s, id);
  }

  lemma PickedIsPending(s: State, l: Label, id: Id)
    requires Inv(s) && Enabled(s, l) && Chooses(s, l, id)
    ensures id in s.timers && Pending(Step(s, l), id, s.timers[id])
    ensures Step(s, l).phase == s.phase && Step(s, l).past.log == s.past.log
  {
    WaiterFacts(s, l, id);
    if l.Broadcast? {
      BroadcastPicks(s, l.cond, id);
      BroadcastKeepsTimers(s, l.cond);
    }
    hide Inv, DoBroadcast;
  }

  lemma {:induction false} RunKeepsFate(states: seq<State>, labels: seq<Label>, id: Id, n: nat)
    requires IsRun(states, labels) && Inv(states[0]) && 0 < n <= |labels| && Chooses(states[0], labels[0], id)
    requires forall i :: 0 <= i < n ==> !labels[i].EndPass?
    ensures id in states[0].timers && Fate(states[0], states[n], id) && |states[0].past.log| <= |states[n].past.log|
  {
    hide Inv, Step, Enabled, Chooses;
    var s := states[0];
    WaiterFacts(s, labels[0], id);
    PickedIsPending(s, labels[0], id);
    if n == 1 {
      assert states[1] == Step(s, labels[0]);
    } else {
      hide Fate;
      RunKeepsFate(states, labels, id, n - 1);
      RunKeepsInv(states, labels, n - 1);
      FateStep(s, states[n - 1], labels[n - 1], id);
    }
  }

  /** Whoever a signal or a broadcast picks has been resumed by the end of the pass in which the
      turn of that waiter comes -- exactly when the pass had not taken the waiter out of its slot
      before its deadline; such a waiter goes back to the wheel, and the signal is lost. */
  lemma PickedWakesIff(states: seq<State>, labels: seq<Label>, id: Id)
    requires IsRun(states, labels) && Inv(states[0]) && |labels| >= 2 && Chooses(states[0], labels[0], id)
    requires labels[|labels| - 1] == EndPass && forall i :: 0 <= i < |labels| - 1 ==> !labels[i].EndPass?
    ensures Woken(states[0], states[|labels|], id) <==> !TakenEarly(states[0], id)
  {
    var n := |labels| - 1;
    var s, m, r := states[0], states[n], states[n + 1];
    RunKeepsFate(states, labels, id, n);
    RunKeepsInv(states, labels, n);
    assert r == Step(m, EndPass) && m.active == [];
    hide CoreInv, QueueInv, LineInv;
    assert Woken(s, r, id) <==> Woken(s, m, id);
  }

  /** A signal picks the longest waiter. */
  lemma SignalWakesIff(states: seq<State>, labels: seq<Label>, c: Cond)
    requires IsRun(states, labels) && Inv(states[0]) && |labels| >= 2
    requires labels[0] == Signal(c) && Queue(states[0], c) != []
    requires labels[|labels| - 1] == EndPass && forall i :: 0 <= i < |labels| - 1 ==> !labels[i].EndPass?
    ensures var id := Queue(states[0], c)[0];
            Woken(states[0], states[|labels|], id) <==> !TakenEarly(states[0], id)
  {
    hide Inv, Step, Enabled;
    PickedWakesIff(states, labels, Queue(states[0], c)[0]);
  }

  /** A broadcast picks every waiter. */
  lemma BroadcastWakesIff(states: seq<State>, labels: seq<Label>, c: Cond)
    requires IsRun(states, labels) && Inv(states[0]) && |labels| >= 2 && labels[0] == Broadcast(c)
    requires labels[|labels| - 1] == EndPass && forall i :: 0 <= i < |labels| - 1 ==> !labels[i].EndPass?
    ensures forall id :: id in Queue(states[0], c) ==>
              (Woken(states[0], states[|labels|], id) <==> !TakenEarly(states[0], id))
  {
    hide Inv, Step, Enabled;
    forall id | id in Queue(states[0], c)
      ensures Woken(states[0], states[|labels|], id) <==> !TakenEarly(states[0], id)
    {
      PickedWakesIff(states, labels, id);
    }
  }

  // ---------------------------------------------------------------- waits that fit the wheel

  /** If the item has a place in the wheel, it is the slot of its own deadline. */
  ghost predicate OnTime(s: State, id: Id) {
    id in s.past.stamps ==> s.past.stamps[id].due == s.past.stamps[id].expire
  }

  /** Only a deadline beyond the wheel at insertion can be taken early. */
  lemma FittingWaitsAreNotTakenEarly(s: State, id: Id)
    requires Inv(s) && id in s.timers && OnTime(s, id)
    ensures !TakenEarly(s, id)
  {
    assert s.timers[id].timedOut ==> TimedOutNow(s, id);
  }

  /** The wait has no deadline, or one that is less than a turn of the wheel away. */
  predicate Fits(s: State, ms: int, now: nat) {
    ms <= 0 || now + ms - s.wheel.start < |s.wheel.slots|
  }

  lemma FittingWaitIsOnTime(s: State, id: Id, c: Cond, ms: int, now: nat)
    requires Inv(s) && Enabled(s, StartWait(id, c, ms, now)) && now > 0 && Fits(s, ms, now)
    ensures OnTime(Step(s, StartWait(id, c, ms, now)), id) && id in Step(s, StartWait(id, c, ms, now)).past.used
  {
    hide AddTimeout, LineInv, QueueInv, LogInv, KindInv, TimeInv, WheelInv;
    if ms > 0 { AddFails(s.wheel, id, now + ms, now); }
  }

  lemma DrainStaysOnTime(s: State, id: Id)
    requires Inv(s) && Enabled(s, Drain) && OnTime(s, id)
    ensures OnTime(DoDrain(s), id) && DoDrain(s).past.used == s.past.used
  {
    if s.active[0] == id { FittingWaitsAreNotTakenEarly(s, id); }
    hide Inv, AddTimeout;
  }

  lemma StartPollStaysOnTime(s: State, id: Id, timeout: int, now: nat, x: Id)
    requires |s.wheel.slots| > 0 && timeout != 0 && x != id && OnTime(s, x)
    ensures OnTime(DoStartPoll(s, id, timeout, now), x) && s.past.used <= DoStartPoll(s, id, timeout, now).past.used
  {
    hide AddTimeout;
    AddFails(s.wheel, id, now + PollWait(timeout), now);
  }

  lemma StartWaitStaysOnTime(s: State, id: Id, c: Cond, ms: int, now: nat, x: Id)
    requires |s.wheel.slots| > 0 && x != id && OnTime(s, x)
    ensures OnTime(DoStartWait(s, id, c, ms, now), x) && s.past.used <= DoStartWait(s, id, c, ms, now).past.used
  {
    hide AddTimeout;
    if ms > 0 { AddFails(s.wheel, id, now + ms, now); }
  }

  /** Nothing but putting an item back gives it another slot, and an item on time is not put back. */
  lemma OnTimeStays(s: State, l: Label, id: Id)
    requires Inv(s) && Enabled(s, l) && GoodClock(s, l) && id in s.past.used && OnTime(s, id)
    ensures OnTime(Step(s, l), id) && id in Step(s, l).past.used
  {
    hide Inv, TakeAll, DoDrain, DoBroadcast, DoStartPoll, DoStartWait;
    match l
    case StartPoll(x, timeout, now) => StartPollStaysOnTime(s, x, timeout, now, id);
    case StartWait(x, c, ms, now) => StartWaitStaysOnTime(s, x, c, ms, now, id);
    case Drain => DrainStaysOnTime(s, id);
    case Broadcast(c) => BroadcastKeepsTimers(s, c);
    case _ =>
  }

  lemma {:induction false} RunStaysOnTime(states: seq<State>, labels: seq<Label>, id: Id, k: nat, n: nat)
    requires IsRun(states, labels) && Inv(states[0]) && k < n <= |labels| && labels[k].StartWait? && labels[k].id == id
    requires Fits(states[k], labels[k].ms, labels[k].now)
    ensures OnTime(states[n], id) && id in states[n].past.used
  {
    hide Inv, Step, Enabled, OnTime, Fits;
    RunKeepsInv(states, labels, n - 1);
    if n == k + 1 {
      FittingWaitIsOnTime(states[k], id, labels[k].cond, labels[k].ms, labels[k].now);
    } else {
      RunStaysOnTime(states, labels, id, k, n - 1);
      OnTimeStays(states[n - 1], labels[n - 1], id);
    }
  }

  /** In every run, a wait that fits the wheel when it begins never loses a signal: whenever a
      signal or a broadcast picks it, it has been resumed by the end of that pass. */
  lemma FittingWaitsAreWoken(states: seq<State>, labels: seq<Label>, id: Id, k: nat, i: nat, e: nat)
    requires IsRun(states, labels) && Inv(states[0]) && k < i < e < |labels|
    requires labels[k].StartWait? && labels[k].id == id && Fits(states[k], labels[k].ms, labels[k].now)
    requires Chooses(states[i], labels[i], id) && labels[e] == EndPass && forall j :: i <= j < e ==> !labels[j].EndPass?
    ensures Woken(states[i], states[e + 1], id)
  {
    hide Inv, IsRun, OnTime, Fits, Chooses, Woken;
    PartIsRun(states, labels, i, e + 1);
    RunStaysOnTime(states, labels, id, k, i);
    RunKeepsInv(states, labels, i);
    WaiterFacts(states[i], labels[i], id);
    FittingWaitsAreNotTakenEarly(states[i], id);
    PickedWakesIff(states[i..e + 2], labels[i..e + 1], id);
  }
}
