/** Step by step, the scheduler does to its deadlines what a plain map of deadlines would do. */
module SchedulerPlain {
  import opened WheelModel
  import opened Scheduler
  import opened SchedulerInv
  import opened SchedulerOrder
  import opened SchedulerRuns
  import opened SchedulerPolls
  import opened SchedulerDeadlines
  import opened SchedulerSignals

  /** Of these waiters, the ones whose deadline a signal cancels; one whose time has come in the
      pass under way keeps it until its turn. */
  ghost function Cancelled(s: State, q: seq<Id>): set<Id> {
    set id | id in q && id in s.timers && !s.timers[id].timedOut
  }

  /** The deadlines after a step, from the deadlines before it: a poll or a wait enters its own, an
      event and a signal cancel those of the items they activate, a resumed item leaves, and the
      steps of the wheel change nothing. */
  ghost function Plain(s: State, l: Label): map<Id, nat>
    requires Enabled(s, l)
  {
    var d := Deadlines(s);
    match l
    case StartPoll(id, timeout, now) => if s.wheel.start <= now then d[id := now + PollWait(timeout)] else d
    case StartWait(id, _, ms, now) => if ms > 0 && s.wheel.start <= now then d[id := now + ms] else d
    case Ready(id) => d - {id}
    case Signal(c) => d - Cancelled(s, Queue(s, c)[..if Queue(s, c) == [] then 0 else 1])
    case Broadcast(c) => d - Cancelled(s, Queue(s, c))
    case Drain => if s.active[0] in d && s.phase.now < d[s.active[0]] then d else d - {s.active[0]}
    case Take(_) => d
    case EndPass => d
  }

  /** The item waits for the same deadline as before, or for none as before. */
  ghost predicate SameDeadline(s: State, r: State, id: Id) {
    (id in Deadlines(r) <==> id in Deadlines(s)) && (id in Deadlines(s) ==> Deadlines(r)[id] == Deadlines(s)[id])
  }

  lemma AlikeIsSame(s: State, r: State, id: Id)
    requires Alike(s, r, id)
    ensures SameDeadline(s, r, id)
  {
    hide InWheel;
  }

  lemma StartPollDeadline(s: State, id: Id, timeout: int, now: nat)
    requires Inv(s) && id !in s.past.used && timeout != 0 && now > 0
    ensures |s.wheel.slots| > 0
    ensures var r := DoStartPoll(s, id, timeout, now);
            if s.wheel.start <= now then id in Deadlines(r) && Deadlines(r)[id] == now + PollWait(timeout)
            else SameDeadline(s, r, id)
  {
    FreshItem(s, id);
    hide WheelInv, LineInv, QueueInv, LogInv, KindInv, TimeInv, InWheel, Alike;
    if s.wheel.start <= now {
      InsertKeepsPlaces(s, id, Timer(now + PollWait(timeout), false, Poll(false, 0)), now);
    }
  }

  lemma StartWaitDeadline(s: State, id: Id, c: Cond, ms: int, now: nat)
    requires Inv(s) && id !in s.past.used && now > 0
    ensures |s.wheel.slots| > 0
    ensures var r := DoStartWait(s, id, c, ms, now);
            if ms > 0 && s.wheel.start <= now then id in Deadlines(r) && Deadlines(r)[id] == now + ms
            else id !in Deadlines(s) && id !in Deadlines(r)
  {
    FreshItem(s, id);
    hide WheelInv, LineInv, QueueInv, LogInv, KindInv, TimeInv, InWheel, Alike;
    if ms > 0 && s.wheel.start <= now {
      TimedWaitInserts(s, id, c, ms, now);
      InsertKeepsPlaces(s, id, Timer(now + ms, false, Waiter), now);
    }
  }

  lemma ReadyDeadline(s: State, id: Id)
    requires Inv(s) && Enabled(s, Ready(id))
    ensures id !in Deadlines(DoReady(s, id))
  {
    assert s.timers[id].timedOut ==> TimedOutNow(s, id);
    assert Placed(s, id);
    ReadyKeepsPlaces(s, id);
    hide WheelInv, LineInv, QueueInv, LogInv, KindInv, TimeInv, InWheel, Alike;
  }

  lemma PickedDeadline(s: State, l: Label, id: Id)
    requires Inv(s) && Enabled(s, l) && GoodClock(s, l) && Chooses(s, l, id)
    ensures id in s.timers
    ensures if s.timers[id].timedOut then SameDeadline(s, Step(s, l), id) else id !in Deadlines(Step(s, l))
  {
    PickedIsPending(s, l, id);
    StepKeepsInv(s, l);
    ActiveIsOutside(Step(s, l), id);
    hide Inv, Step, InWheel;
  }

  lemma ActiveIsOutside(s: State, id: Id)
    requires Inv(s) && id in s.active
    ensures !InWheel(s.wheel, id)
  {
  }

  lemma TakeDeadline(s: State, now: nat, id: Id)
    requires Inv(s) && s.phase.Idle? && CountOk(|s.wheel.slots|, s.wheel.start, now)
    ensures |s.wheel.slots| > 0 && SameDeadline(s, DoTake(s, now), id)
  {
    hide WheelInv, LineInv, QueueInv, LogInv, KindInv, TakeAll, InWheel;
    TakeIsExact(s.wheel, s.past.stamps, now);
    assert id in s.timers && s.timers[id].timedOut ==> TimedOutNow(s, id);
  }

  lemma DrainDeadline(s: State)
    requires Inv(s) && Enabled(s, Drain)
    ensures var x, d := s.active[0], Deadlines(s);
            if x in d && s.phase.now < d[x] then SameDeadline(s, DoDrain(s), x) else x !in Deadlines(DoDrain(s))
  {
    hide Inv, PlaceInv, InWheel, Alike;
    HeadFacts(s);
    ActiveIsOutside(s, s.active[0]);
    if TakenEarly(s, s.active[0]) { PutBackKeepsPlaces(s); }
  }

  /** The step concerns the deadline of the item. */
  ghost predicate Concerns(s: State, l: Label, id: Id)
    requires Enabled(s, l)
  {
    match l
    case StartPoll(x, _, _) => x == id
    case StartWait(x, _, _, _) => x == id
    case Ready(x) => x == id
    case Drain => s.active[0] == id
    case _ => Chooses(s, l, id)
  }

  /** The clock of the machine's history is of no concern. */
  lemma TickIsSame(s: State, r: State, id: Id)
    requires SameDeadline(s, r, id)
    ensures SameDeadline(s, Tick(r), id)
  {
    hide InWheel;
  }

  lemma UnconcernedIsAlike(s: State, l: Label, id: Id)
    requires Inv(s) && Enabled(s, l) && GoodClock(s, l) && !Concerns(s, l, id) && !l.Take?
    ensures Alike(s, Act(s, l), id)
  {
    hide Inv, InWheel, Alike, DoReady, DoDrain, DoStartPoll, DoStartWait, DoTake, DoSignal, DoBroadcast;
    match l
    case StartPoll(x, timeout, now) => StartPollPassesBy(s, x, timeout, now, id);
    case StartWait(x, c, ms, now) => StartWaitPassesBy(s, x, c, ms, now, id);
    case Ready(x) => ReadyTouches(s, x);
    case Signal(c) => SignalPassesBy(s, c, id);
    case Broadcast(c) => BroadcastPassesBy(s, c, id);
    case Drain => DrainPassesBy(s, id);
    case EndPass => PhaseIsAlike(s, id);
  }

  lemma UnconcernedKeeps(s: State, l: Label, id: Id)
    requires Inv(s) && Enabled(s, l) && GoodClock(s, l) && !Concerns(s, l, id)
    ensures SameDeadline(s, Step(s, l), id)
  {
    hide Inv, Alike, SameDeadline, Concerns, DoTake;
    if l.Take? {
      TakeDeadline(s, l.now, id);
    } else {
      UnconcernedIsAlike(s, l, id);
      AlikeIsSame(s, Act(s, l), id);
    }
    TickIsSame(s, Act(s, l), id);
  }

  lemma PhaseIsAlike(s: State, id: Id)
    ensures Alike(s, s.(phase := Idle), id)
  {
    hide InWheel;
  }

  /** The two maps say the same of the item. */
  ghost predicate AgreeAt(d: map<Id, nat>, e: map<Id, nat>, id: Id) {
    (id in d <==> id in e) && (id in d ==> d[id] == e[id])
  }

  lemma UnconcernedIsPlain(s: State, l: Label, id: Id)
    requires Inv(s) && Enabled(s, l) && GoodClock(s, l) && !Concerns(s, l, id)
    ensures AgreeAt(Deadlines(Step(s, l)), Plain(s, l), id)
  {
    hide Inv, Step, Deadlines;
    UnconcernedKeeps(s, l, id);
  }

  lemma ConcernedIsPlain(s: State, l: Label, id: Id)
    requires Inv(s) && Enabled(s, l) && GoodClock(s, l) && Concerns(s, l, id)
    ensures AgreeAt(Deadlines(Step(s, l)), Plain(s, l), id)
  {
    hide Inv, InWheel, DoReady, DoDrain, DoStartPoll, DoStartWait, DoTake, DoSignal, DoBroadcast;
    match l
    case StartPoll(x, timeout, now) => StartPollDeadline(s, x, timeout, now);
    case StartWait(x, c, ms, now) => StartWaitDeadline(s, x, c, ms, now);
    case Ready(x) => ReadyDeadline(s, x);
    case Drain => DrainDeadline(s);
    case _ => PickedDeadline(s, l, id);
  }

  /** In every reachable state, every step does to the deadlines what it does to the plain map. */
  lemma StepIsPlain(s: State, l: Label)
    requires Inv(s) && Enabled(s, l) && GoodClock(s, l)
    ensures Deadlines(Step(s, l)) == Plain(s, l)
  {
    hide Inv, Step, Deadlines, Plain, Concerns;
    forall id ensures AgreeAt(Deadlines(Step(s, l)), Plain(s, l), id) {
      if Concerns(s, l, id) { ConcernedIsPlain(s, l, id); } else { UnconcernedIsPlain(s, l, id); }
    }
    SameMap(Deadlines(Step(s, l)), Plain(s, l));
  }

  lemma SameMap(d: map<Id, nat>, e: map<Id, nat>)
    requires forall id :: AgreeAt(d, e, id)
    ensures d == e
  {
    forall id ensures id in d <==> id in e { assert AgreeAt(d, e, id); }
    forall id | id in d ensures d[id] == e[id] { assert AgreeAt(d, e, id); }
  }

  /** In every run, the deadlines are those of the plain map all along. */
  lemma RunIsPlain(states: seq<State>, labels: seq<Label>, size: nat, start: nat, n: nat)
    requires IsRun(states, labels) && size > 0 && start > 0 && states[0] == Init(size, start) && n < |labels|
    ensures Deadlines(states[0]) == map[] && Deadlines(states[n + 1]) == Plain(states[n], labels[n])
  {
    hide Inv, Step, Plain;
    InitInv(size, start);
    RunKeepsInv(states, labels, n);
    StepIsPlain(states[n], labels[n]);
  }

  // ---------------------------------------------------------------- from its start to its deadline

  /** The item is alive with deadline `d`, in a timer list. */
  ghost predicate Awaits(s: State, id: Id, d: nat) {
    id in s.timers && s.timers[id].expire == d && (InWheel(s.wheel, id) || id in s.active)
  }

  /** ... or it has been resumed. */
  ghost predicate OnCourse(s: State, id: Id, d: nat) {
    Awaits(s, id, d) || InLog(s, id)
  }

  /** The step begins a poll or a wait with deadline `d`. */
  predicate Enters(s: State, l: Label, id: Id, d: nat) {
    match l
    case StartPoll(x, timeout, now) => x == id && d == now + PollWait(timeout) && s.wheel.start <= now
    case StartWait(x, _, ms, now) => x == id && ms > 0 && d == now + ms && s.wheel.start <= now
    case _ => false
  }

  lemma InsertedAwaits(s: State, id: Id, t: Timer, now: nat)
    requires Inv(s) && id !in s.past.used && !t.timedOut && s.wheel.start <= now <= t.expire
    ensures |s.wheel.slots| > 0 && s.wheel.start > 0 && Awaits(Inserted(s, id, t, now), id, t.expire)
  {
    FreshItem(s, id);
    hide WheelInv, LineInv, QueueInv, LogInv, KindInv, TimeInv, InWheel, Alike;
    InsertKeepsPlaces(s, id, t, now);
  }

  lemma PollAwaits(s: State, id: Id, timeout: int, now: nat)
    requires Inv(s) && id !in s.past.used && timeout != 0 && now > 0 && s.wheel.start <= now
    ensures |s.wheel.slots| > 0 && Awaits(DoStartPoll(s, id, timeout, now), id, now + PollWait(timeout))
  {
    hide Inv, InWheel;
    WheelOf(s);
    InsertedAwaits(s, id, Timer(now + PollWait(timeout), false, Poll(false, 0)), now);
  }

  lemma WaitAwaits(s: State, id: Id, c: Cond, ms: int, now: nat)
    requires Inv(s) && id !in s.past.used && ms > 0 && now > 0 && s.wheel.start <= now
    ensures |s.wheel.slots| > 0 && Awaits(DoStartWait(s, id, c, ms, now), id, now + ms)
  {
    hide Inv, InWheel, DoStartWait;
    WheelOf(s);
    InsertedAwaits(s, id, Timer(now + ms, false, Waiter), now);
    TimedWaitInserts(s, id, c, ms, now);
  }

  lemma EntersOnCourse(s: State, l: Label, id: Id, d: nat)
    requires Inv(s) && Enabled(s, l) && GoodClock(s, l) && Enters(s, l, id, d)
    ensures Awaits(Step(s, l), id, d)
  {
    hide Inv, InWheel, DoStartPoll, DoStartWait;
    if l.StartWait? { WaitAwaits(s, id, l.cond, l.ms, l.now); } else { PollAwaits(s, id, l.timeout, l.now); }
  }

  lemma TakeKeepsCourse(s: State, now: nat, id: Id, d: nat)
    requires Inv(s) && s.phase.Idle? && CountOk(|s.wheel.slots|, s.wheel.start, now) && Awaits(s, id, d)
    ensures |s.wheel.slots| > 0 && Awaits(Tick(DoTake(s, now)), id, d)
  {
    hide WheelInv, LineInv, QueueInv, LogInv, KindInv, TakeAll, InWheel;
    TakeIsExact(s.wheel, s.past.stamps, now);
  }

  lemma ReadyKeepsCourse(s: State, id: Id, d: nat)
    requires Enabled(s, Ready(id)) && Awaits(s, id, d)
    ensures Awaits(Step(s, Ready(id)), id, d)
  {
    hide InWheel, Cancel;
  }

  lemma PickedKeepsCourse(s: State, l: Label, id: Id, d: nat)
    requires Inv(s) && Enabled(s, l) && Chooses(s, l, id) && Awaits(s, id, d)
    ensures Awaits(Step(s, l), id, d)
  {
    hide Inv, InWheel, Step;
    PickedIsPending(s, l, id);
  }

  lemma TurnKeepsCourse(s: State, id: Id, d: nat)
    requires Inv(s) && Enabled(s, Drain) && s.active[0] == id && Awaits(s, id, d)
    ensures OnCourse(Step(s, Drain), id, d)
  {
    hide Inv, PlaceInv, InWheel, Alike;
    HeadFacts(s);
    if TakenEarly(s, id) {
      PutBackKeepsPlaces(s);
    } else {
      OrdinaryTurn(s, id);
    }
  }

  lemma StepKeepsCourse(s: State, l: Label, id: Id, d: nat)
    requires Inv(s) && Enabled(s, l) && GoodClock(s, l) && Awaits(s, id, d)
    ensures OnCourse(Step(s, l), id, d)
  {
    assert id in s.past.used;
    hide Inv, InWheel, Act, InLog;
    if !Concerns(s, l, id) {
      if l.Take? { TakeKeepsCourse(s, l.now, id, d); ActIsTake(s, l); } else { UnconcernedIsAlike(s, l, id); }
    } else {
      match l
      case Ready(_) => ReadyKeepsCourse(s, id, d);
      case Drain => TurnKeepsCourse(s, id, d);
      case _ => PickedKeepsCourse(s, l, id, d);
    }
  }

  lemma ActIsTake(s: State, l: Label)
    requires Enabled(s, l) && l.Take?
    ensures Step(s, l) == Tick(DoTake(s, l.now))
  {
  }

  lemma StaysLogged(s: State, l: Label, id: Id)
    requires Enabled(s, l) && InLog(s, id)
    ensures InLog(Step(s, l), id)
  {
    hide Step, Enabled;
    LogOnlyGrows(s, l);
    var k :| 0 <= k < |s.past.log| && s.past.log[k].id == id;
    assert Step(s, l).past.log[k] == s.past.log[k];
  }

  lemma {:induction false} RunKeepsCourse(states: seq<State>, labels: seq<Label>, id: Id, d: nat, k: nat, n: nat)
    requires IsRun(states, labels) && Inv(states[0]) && k < n <= |labels| && Enters(states[k], labels[k], id, d)
    ensures OnCourse(states[n], id, d)
  {
    hide Inv, Step, Enabled, Enters, Awaits, InLog;
    RunKeepsInv(states, labels, n - 1);
    if n == k + 1 {
      EntersOnCourse(states[k], labels[k], id, d);
    } else {
      RunKeepsCourse(states, labels, id, d, k, n - 1);
      if Awaits(states[n - 1], id, d) {
        StepKeepsCourse(states[n - 1], labels[n - 1], id, d);
      } else {
        StaysLogged(states[n - 1], labels[n - 1], id);
      }
    }
  }

  lemma PassEndsCourse(s: State, r: State, now: nat, id: Id, d: nat)
    requires Inv(r) && r.active == [] && ExactPass(s, r, now) && OnCourse(r, id, d) && d <= now
    ensures InLog(r, id)
  {
    hide Inv, InWheel, InLog;
    assert Awaits(r, id, d) ==> id in Deadlines(r);
  }

  /** In every run, a poll or a wait with a deadline, begun at any time, has been resumed when the
      first pass that begins afterwards, at its deadline or later, ends. */
  lemma ResumedByDeadline(states: seq<State>, labels: seq<Label>, id: Id, d: nat, k: nat, i: nat, e: nat)
    requires IsRun(states, labels) && Inv(states[0]) && k < i < e < |labels| && Enters(states[k], labels[k], id, d)
    requires labels[i].Take? && d <= labels[i].now && labels[e] == EndPass
    requires forall j :: i < j < e ==> !labels[j].EndPass?
    ensures InLog(states[e + 1], id)
  {
    hide Inv, IsRun, ExactPass, OnCourse, Enters, Act, InLog;
    PartIsRun(states, labels, i, e + 1);
    RunStep(states, labels, e);
    RunKeepsInv(states, labels, i);
    RunKeepsInv(states, labels, e + 1);
    PassIsExact(states[i..e + 2], labels[i..e + 1], labels[i].now);
    RunKeepsCourse(states, labels, id, d, k, e + 1);
    EndKeepsActive(states[e]);
    PassEndsCourse(states[i], states[e + 1], labels[i].now, id, d);
  }

  lemma EndKeepsActive(s: State)
    requires Enabled(s, EndPass)
    ensures Step(s, EndPass).active == []
  {
  }
}
