/** Timeouts come in order: a pass resumes the items whose time has come in the order of their
    slots, first in first out within a slot. */
module SchedulerPassOrder {
  import opened Seqs
  import opened WheelModel
  import opened Scheduler
  import opened SchedulerInv
  import opened SchedulerRuns
  import opened SchedulerPolls

  /** The item has been taken out of its slot, no signal has picked it since, and its turn is to come. */
  ghost predicate Due(s: State, x: Id) {
    x in s.active && x in s.timers && s.timers[x].timedOut && x !in s.past.signalled
  }

  /** A resumption by the clock alone. */
  predicate ByClock(w: Wake) {
    w.timedOut && w.cause.Otherwise?
  }

  ghost predicate Before(stamps: map<Id, Stamp>, x: Id, y: Id) {
    x in stamps && y in stamps && Earlier(stamps[x], stamps[y])
  }

  /** Since the log had length `n`, items were resumed by the clock in the order of the stamps. */
  ghost predicate LogInOrder(log: seq<Wake>, n: nat, stamps: map<Id, Stamp>) {
    forall i, j :: n <= i < j < |log| && ByClock(log[i]) && ByClock(log[j]) ==> Before(stamps, log[i].id, log[j].id)
  }

  /** The items due come after those that have been resumed, ... */
  ghost predicate LogBeforeDue(s: State, n: nat, stamps: map<Id, Stamp>) {
    forall i, x :: n <= i < |s.past.log| && ByClock(s.past.log[i]) && Due(s, x) ==> Before(stamps, s.past.log[i].id, x)
  }

  /** ... and stand in order. */
  ghost predicate DueInOrder(s: State, stamps: map<Id, Stamp>) {
    forall a, b :: 0 <= a < b < |s.active| && Due(s, s.active[a]) && Due(s, s.active[b]) ==>
      Before(stamps, s.active[a], s.active[b])
  }

  ghost predicate InOrderSince(s0: State, s: State) {
    && s0.past.log <= s.past.log
    && LogInOrder(s.past.log, |s0.past.log|, s0.past.stamps)
    && LogBeforeDue(s, |s0.past.log|, s0.past.stamps)
    && DueInOrder(s, s0.past.stamps)
  }

  // ---------------------------------------------------------------- step by step

  /** The items that a take gives out are in order, and nobody else is due. */
  lemma TakenAreInOrder(s: State, r: State, taken: seq<Id>)
    requires r.active == s.active + taken && r.past.log == s.past.log && Chronological(taken, s.past.stamps)
    requires forall x :: x in s.active ==> !Due(r, x)
    ensures InOrderSince(s, r)
  {
    var n := |s.active|;
    assert forall k :: 0 <= k < n ==> r.active[k] == s.active[k] && s.active[k] in s.active;
    forall a, b | 0 <= a < b < |r.active| && Due(r, r.active[a]) && Due(r, r.active[b])
      ensures Before(s.past.stamps, r.active[a], r.active[b])
    {
      assert r.active[a] == taken[a - n] && r.active[b] == taken[b - n];
    }
  }

  lemma TakeStartsInOrder(s: State, now: nat)
    requires Inv(s) && s.phase.Idle? && CountOk(|s.wheel.slots|, s.wheel.start, now)
    ensures |s.wheel.slots| > 0 && InOrderSince(s, Tick(DoTake(s, now)))
  {
    WheelOf(s);
    hide Inv, PlaceInv, WheelInv, InWheel, TakeAll, InOrderSince, Chronological;
    NobodyIsDue(s);
    TakeIsExact(s.wheel, s.past.stamps, now);
    var r, taken := Tick(DoTake(s, now)), TakeAll(s.wheel, now).1;
    forall x | x in s.active ensures !Due(r, x) {
      if x in taken { TakenWasOutside(s, x); }
    }
    TakenAreInOrder(s, r, taken);
  }

  lemma NobodyIsDue(s: State)
    requires Inv(s) && s.phase.Idle?
    ensures forall x :: x in s.timers ==> !s.timers[x].timedOut
  {
    forall x | x in s.timers ensures !s.timers[x].timedOut { assert s.timers[x].timedOut ==> TimedOutNow(s, x); }
  }

  lemma TakenWasOutside(s: State, x: Id)
    requires Inv(s) && InWheel(s.wheel, x)
    ensures x !in s.active
  {
  }

  /** A step that resumes nobody, makes nobody due, and keeps the order of those who stay due. */
  lemma FewerDue(s0: State, s: State, r: State, pos: seq<nat>)
    requires InOrderSince(s0, s) && r.past.log == s.past.log && (forall x :: Due(r, x) ==> Due(s, x))
    requires |pos| <= |r.active| && (forall i :: |pos| <= i < |r.active| ==> !Due(r, r.active[i]))
    requires Picks(s.active, r.active[..|pos|], pos)
    ensures InOrderSince(s0, r)
  {
    forall a, b | 0 <= a < b < |r.active| && Due(r, r.active[a]) && Due(r, r.active[b])
      ensures Before(s0.past.stamps, r.active[a], r.active[b])
    {
      assert a < |pos| && b < |pos| && pos[a] < pos[b];
      assert r.active[..|pos|][a] == s.active[pos[a]] && r.active[..|pos|][b] == s.active[pos[b]];
    }
  }

  lemma SignalKeepsOrder(s0: State, s: State, c: Cond)
    requires InOrderSince(s0, s)
    ensures InOrderSince(s0, DoSignal(s, c))
  {
    var q, r := Queue(s, c), DoSignal(s, c);
    if q != [] {
      var pos := WithoutPositions(s.active, q[0]);
      assert r.active[..|pos|] == Without(s.active, q[0]);
      FewerDue(s0, s, r, pos);
    }
  }

  lemma {:induction false} BroadcastKeepsOrder(s0: State, s: State, c: Cond)
    requires InOrderSince(s0, s)
    ensures InOrderSince(s0, DoBroadcast(s, c))
    decreases |Queue(s, c)|
  {
    hide InOrderSince;
    if Queue(s, c) != [] {
      SignalKeepsOrder(s0, s, c);
      BroadcastKeepsOrder(s0, DoSignal(s, c), c);
    }
  }

  lemma StartKeepsActive(s: State, l: Label)
    requires Enabled(s, l) && (l.StartPoll? || l.StartWait?)
    ensures var r := Act(s, l);
            && r.active == s.active && r.past.log == s.past.log && r.past.signalled == s.past.signalled
            && forall x :: x != l.id ==>
                 (x in r.timers <==> x in s.timers) && (x in s.timers ==> r.timers[x] == s.timers[x])
  {
    hide AddTimeout;
  }

  lemma SameActive(s0: State, s: State, r: State)
    requires InOrderSince(s0, s) && r.active == s.active && r.past.log == s.past.log
    requires forall x :: Due(r, x) ==> Due(s, x)
    ensures InOrderSince(s0, r)
  {
  }

  lemma StartKeepsOrder(s0: State, s: State, l: Label)
    requires InOrderSince(s0, s) && Inv(s) && Enabled(s, l) && (l.StartPoll? || l.StartWait?)
    ensures InOrderSince(s0, Act(s, l))
  {
    hide Inv, Act, InOrderSince;
    FreshItem(s, l.id);
    StartKeepsActive(s, l);
    SameActive(s0, s, Act(s, l));
  }

  /** The head leaves, to the log if it has been resumed. */
  lemma HeadLeaves(s0: State, s: State, r: State)
    requires InOrderSince(s0, s) && s.active != [] && r.active == s.active[1..] && (forall y :: Due(r, y) ==> Due(s, y))
    requires s.past.log <= r.past.log && |r.past.log| <= |s.past.log| + 1
    requires |r.past.log| > |s.past.log| ==>
               r.past.log[|s.past.log|].id == s.active[0] && (ByClock(r.past.log[|s.past.log|]) ==> Due(s, s.active[0]))
    ensures InOrderSince(s0, r)
  {
    hide Due, ByClock, Before;
    var n := |s.past.log|;
    forall i | 0 <= i < n ensures r.past.log[i] == s.past.log[i] {}
    if |r.past.log| > n && ByClock(r.past.log[n]) {
      forall y | Due(r, y) ensures Before(s0.past.stamps, s.active[0], y) { InActive(r, y); HeadFirst(s0, s, r, y); }
    }
    forall a, b | 0 <= a < b < |r.active| && Due(r, r.active[a]) && Due(r, r.active[b])
      ensures Before(s0.past.stamps, r.active[a], r.active[b])
    {
      assert r.active[a] == s.active[a + 1] && r.active[b] == s.active[b + 1];
    }
  }

  lemma InActive(s: State, y: Id)
    requires Due(s, y)
    ensures y in s.active
  {
  }

  lemma HeadFirst(s0: State, s: State, r: State, y: Id)
    requires DueInOrder(s, s0.past.stamps) && s.active != [] && r.active == s.active[1..] && y in r.active
    requires Due(s, s.active[0]) && Due(s, y)
    ensures Before(s0.past.stamps, s.active[0], y)
  {
    var i :| 0 <= i < |r.active| && r.active[i] == y;
    assert y == s.active[i + 1];
  }

  lemma DrainKeepsOrder(s0: State, s: State)
    requires InOrderSince(s0, s) && Inv(s) && Enabled(s, Drain)
    ensures InOrderSince(s0, DoDrain(s))
  {
    HeadIsAlone(s);
    hide Inv, AddTimeout, InOrderSince;
    var r := DoDrain(s);
    forall y | Due(r, y) ensures Due(s, y) { assert y in s.active[1..]; }
    HeadLeaves(s0, s, r);
  }

  lemma HeadIsAlone(s: State)
    requires Inv(s) && s.active != []
    ensures s.active[0] !in s.active[1..]
  {
  }

  lemma StepKeepsOrder(s0: State, s: State, l: Label)
    requires InOrderSince(s0, s) && Inv(s) && s.phase.Draining? && Enabled(s, l) && !l.EndPass?
    ensures InOrderSince(s0, Step(s, l))
  {
    hide Inv, InOrderSince, DoReady, DoDrain, DoStartPoll, DoStartWait, DoTake, DoSignal, DoBroadcast;
    match l {
      case StartPoll(_, _, _) => StartKeepsOrder(s0, s, l);
      case StartWait(_, _, _, _) => StartKeepsOrder(s0, s, l);
      case Signal(c) => SignalKeepsOrder(s0, s, c);
      case Broadcast(c) => BroadcastKeepsOrder(s0, s, c);
      case Drain => DrainKeepsOrder(s0, s);
    }
    TickKeepsOrder(s0, Act(s, l));
  }

  lemma TickKeepsOrder(s0: State, s: State)
    requires InOrderSince(s0, s)
    ensures InOrderSince(s0, Tick(s))
  {
    SameActive(s0, s, Tick(s));
  }

  // ---------------------------------------------------------------- over a whole pass

  lemma {:induction false} RunKeepsOrder(states: seq<State>, labels: seq<Label>, now: nat, n: nat)
    requires IsRun(states, labels) && Inv(states[0]) && 0 < n <= |labels|
    requires labels[0] == Take(now) && forall i :: 0 < i < n ==> !labels[i].EndPass?
    ensures InOrderSince(states[0], states[n]) && states[n].phase.Draining?
  {
    hide Inv, InOrderSince, Act, IsRun;
    RunStep(states, labels, n - 1);
    if n == 1 {
      TakeIsAct(states[0], now);
      TakeStartsInOrder(states[0], now);
    } else {
      RunKeepsOrder(states, labels, now, n - 1);
      RunKeepsInv(states, labels, n - 1);
      StepKeepsOrder(states[0], states[n - 1], labels[n - 1]);
      StaysDraining(states[n - 1], labels[n - 1]);
    }
  }

  lemma TakeIsAct(s: State, now: nat)
    requires Enabled(s, Take(now))
    ensures Act(s, Take(now)) == DoTake(s, now) && Act(s, Take(now)).phase == Draining(now)
  {
    hide TakeAll;
  }

  lemma StaysDraining(s: State, l: Label)
    requires Enabled(s, l) && s.phase.Draining? && !l.EndPass?
    ensures Step(s, l).phase == s.phase
  {
    hide AddTimeout, DoBroadcast;
    if l.Broadcast? { BroadcastKeepsTimers(s, l.cond); }
  }

  /** Two coroutines that a pass resumes because of their deadlines alone are resumed in the order of
      the slots that the pass took them from, and within a slot in the order in which they came. */
  lemma TimeoutsComeInOrder(states: seq<State>, labels: seq<Label>, now: nat, i: nat, j: nat)
    requires IsRun(states, labels) && Inv(states[0]) && |labels| >= 2
    requires labels[0] == Take(now) && labels[|labels| - 1] == EndPass
    requires forall k :: 0 < k < |labels| - 1 ==> !labels[k].EndPass?
    requires var log := states[|labels|].past.log;
             |states[0].past.log| <= i < j < |log| && ByClock(log[i]) && ByClock(log[j])
    ensures var log, stamps := states[|labels|].past.log, states[0].past.stamps;
            log[i].id in stamps && log[j].id in stamps && Earlier(stamps[log[i].id], stamps[log[j].id])
  {
    var n := |labels| - 1;
    hide Inv, IsRun;
    RunStep(states, labels, n);
    RunKeepsOrder(states, labels, now, n);
    assert states[n + 1].past.log == states[n].past.log;
    assert Before(states[0].past.stamps, states[n].past.log[i].id, states[n].past.log[j].id);
  }
}
