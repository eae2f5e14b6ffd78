/** The run in which a signal is lost: a wait longer than the wheel, a poll that ends in the same
    pass, and a signal sent by the coroutine of that poll. */
module SchedulerLostSignal {
  import opened Seqs
  import opened WheelModel
  import opened Scheduler
  import opened SchedulerInv
  import opened SchedulerRuns
  import opened SchedulerSignals

  /** A poll of 1 ms has begun. */
  ghost predicate PollAsleep(s: State, size: nat, start: nat) {
    && Inv(s) && s.phase == Idle && s.active == [] && s.queues == map[] && s.past.log == []
    && s.wheel.start == start && |s.wheel.slots| == size && s.past.used == {2} && s.past.tick == 1
    && s.timers == map[2 := Timer(start + 1, false, Poll(false, 0))]
    && s.past.stamps == map[2 := Stamp(start + 1, start + 1, 0)]
    && forall x :: InWheel(s.wheel, x) <==> x == 2
  }

  /** A wait of `size + 1` ms has begun as well; its deadline lies beyond the wheel. */
  ghost predicate BothAsleep(s: State, size: nat, start: nat) {
    && Inv(s) && s.phase == Idle && s.active == [] && Queue(s, 0) == [1] && s.past.log == []
    && s.wheel.start == start && |s.wheel.slots| == size
    && s.timers == map[2 := Timer(start + 1, false, Poll(false, 0)), 1 := Timer(start + size + 1, false, Waiter)]
    && s.past.stamps == map[2 := Stamp(start + 1, start + 1, 0), 1 := Stamp(start + size + 1, start + size - 1, 1)]
    && forall x :: InWheel(s.wheel, x) <==> x == 1 || x == 2
  }

  /** The pass at `start + size - 1` has taken both, the wait before its deadline. */
  ghost predicate BothTaken(s: State, size: nat, start: nat) {
    && Inv(s) && start + size > 0 && s.phase == Draining(start + size - 1) && s.active == [2, 1] && Queue(s, 0) == [1]
    && |s.wheel.slots| > 0
    && s.timers == map[2 := Timer(start + 1, true, Poll(false, 0)), 1 := Timer(start + size + 1, true, Waiter)]
  }

  lemma PollFallsAsleep(size: nat, start: nat)
    requires 2 <= size && start > 0
    ensures PollAsleep(Tick(DoStartPoll(Init(size, start), 2, 1, start)), size, start)
  {
    var s := Init(size, start);
    InitInv(size, start);
    assert forall x :: !InWheel(s.wheel, x);
    StartPollKeepsInv(s, 2, 1, start);
    AddKeepsInv(s.wheel, map[], 2, start + 1, start, 0);
  }

  lemma WaiterFallsAsleep(s: State, size: nat, start: nat)
    requires 2 <= size && start > 0 && PollAsleep(s, size, start)
    ensures BothAsleep(Tick(DoStartWait(s, 1, 0, size + 1, start)), size, start)
  {
    hide Inv, PlaceInv, WheelInv, InWheel, AddTimeout;
    WheelOf(s);
    AddFails(s.wheel, 1, start + size + 1, start);
    AddKeepsInv(s.wheel, s.past.stamps, 1, start + size + 1, start, 1);
    StartWaitKeepsInv(s, 1, 0, size + 1, start);
  }

  lemma BothAreTaken(s: State, size: nat, start: nat)
    requires 2 <= size <= INT_MAX && start > 0 && BothAsleep(s, size, start)
    ensures CountOk(size, start, start + size - 1)
    ensures BothTaken(Tick(DoTake(s, start + size - 1)), size, start)
  {
    hide Inv, PlaceInv, WheelInv, InWheel, TakeAll, CountOk, Chronological, NoDup;
    var now := start + size - 1;
    FitsInt(size, start);
    TakeKeepsInv(s, now);
    var taken := TakeAll(s.wheel, now).1;
    assert taken == [2, 1] by {
      WheelOf(s);
      TakeIsExact(s.wheel, s.past.stamps, now);
      TwoInOrder(taken, s.past.stamps);
    }
    TakeKeepsQueues(s, now);
  }

  lemma FitsInt(size: nat, start: nat)
    requires 0 < size <= INT_MAX
    ensures CountOk(size, start, start + size - 1)
  {
  }

  lemma TakeKeepsQueues(s: State, now: nat)
    requires |s.wheel.slots| > 0
    ensures Queue(DoTake(s, now), 0) == Queue(s, 0) && |DoTake(s, now).wheel.slots| == |s.wheel.slots|
  {
  }

  lemma TwoInOrder(s: seq<Id>, stamps: map<Id, Stamp>)
    requires Chronological(s, stamps) && 1 in s && 2 in s && forall x :: x in s ==> x == 1 || x == 2
    requires Earlier(stamps[2], stamps[1])
    ensures s == [2, 1]
  {
    var i :| 0 <= i < |s| && s[i] == 1;
    var j :| 0 <= j < |s| && s[j] == 2;
    assert NoDup(s);
    NoDupSize(s, {1, 2});
  }

  /** The poll's coroutine is resumed, with the waiter next in line. */
  lemma PollIsResumed(s: State, size: nat, start: nat)
    requires 2 <= size && start > 0 && BothTaken(s, size, start)
    ensures Enabled(s, Drain)
    ensures var r := Step(s, Drain);
            && Inv(r) && Queue(r, 0) == [1] && r.active == [1] && TakenEarly(r, 1)
            && |r.wheel.slots| > 0 && 1 in r.timers
  {
    hide Inv;
    assert Enabled(s, Drain);
    StepKeepsInv(s, Drain);
    assert Without([1], 2) == [1];
  }

  /** It signals: the waiter is picked. */
  lemma WaiterIsPicked(s: State)
    requires Inv(s) && Queue(s, 0) == [1] && s.active == [1] && TakenEarly(s, 1) && |s.wheel.slots| > 0
    ensures var r := Step(s, Signal(0));
            Inv(r) && r.active == [1] && TakenEarly(r, 1) && |r.wheel.slots| > 0
  {
    hide Inv;
    StepKeepsInv(s, Signal(0));
    assert Without([1], 1) == [];
  }

  /** The waiter's turn comes, and it is put back; the pass can end. */
  lemma WaiterIsPutBack(s: State)
    requires Inv(s) && s.active == [1] && TakenEarly(s, 1) && |s.wheel.slots| > 0
    ensures Enabled(s, Drain) && Enabled(Step(s, Drain), EndPass)
  {
    assert TimedOutNow(s, 1);
    PutBackKeepsPlaces(s);
    hide Inv;
  }

  /** One step of a run. */
  ghost predicate Leads(s: State, l: Label, r: State) {
    Enabled(s, l) && GoodClock(s, l) && r == Step(s, l)
  }

  lemma Extended(states: seq<State>, labels: seq<Label>, l: Label, r: State)
    requires IsRun(states, labels) && Leads(states[|labels|], l, r)
    ensures IsRun(states + [r], labels + [l])
  {
    hide Step, Enabled, GoodClock;
  }

  lemma FirstSteps(size: nat, start: nat) returns (s1: State, s2: State)
    requires 2 <= size && start > 0
    ensures Leads(Init(size, start), StartPoll(2, 1, start), s1)
    ensures Leads(s1, StartWait(1, 0, size + 1, start), s2) && BothAsleep(s2, size, start)
  {
    hide Inv, DoStartPoll, DoStartWait;
    PollFallsAsleep(size, start);
    s1 := Step(Init(size, start), StartPoll(2, 1, start));
    WaiterFallsAsleep(s1, size, start);
    s2 := Step(s1, StartWait(1, 0, size + 1, start));
  }

  /** The waiter alone is left in the active list, taken early. */
  ghost predicate WaiterNext(s: State) {
    Inv(s) && s.active == [1] && TakenEarly(s, 1) && |s.wheel.slots| > 0
  }

  lemma NextSteps(s2: State, size: nat, start: nat) returns (s3: State, s4: State)
    requires 2 <= size <= INT_MAX && start > 0 && BothAsleep(s2, size, start)
    ensures Leads(s2, Take(start + size - 1), s3) && Leads(s3, Drain, s4)
    ensures WaiterNext(s4) && Queue(s4, 0) == [1]
  {
    hide Inv, DoTake, DoDrain;
    BothAreTaken(s2, size, start);
    s3 := Step(s2, Take(start + size - 1));
    PollIsResumed(s3, size, start);
    s4 := Step(s3, Drain);
  }

  lemma LastSteps(s4: State) returns (s5: State, s6: State, s7: State)
    requires WaiterNext(s4) && Queue(s4, 0) == [1]
    ensures Leads(s4, Signal(0), s5) && Leads(s5, Drain, s6) && Leads(s6, EndPass, s7)
  {
    hide Inv, DoSignal, DoDrain;
    WaiterIsPicked(s4);
    s5 := Step(s4, Signal(0));
    WaiterIsPutBack(s5);
    s6 := Step(s5, Drain);
    s7 := Step(s6, EndPass);
  }

  /** A run up to a signal that picks waiter 1, and the rest of its pass, which ends without
      resuming the waiter. */
  lemma LostSignal(size: nat, start: nat)
    returns (before: seq<State>, labels: seq<Label>, pass: seq<State>, rest: seq<Label>)
    requires 2 <= size <= INT_MAX && start > 0
    ensures IsRun(before, labels) && before[0] == Init(size, start) && IsRun(pass, rest) && pass[0] == before[|labels|]
    ensures |rest| > 0 && rest[0] == Signal(0) && Queue(pass[0], 0) == [1] && rest[|rest| - 1] == EndPass
    ensures !Woken(pass[0], pass[|rest|], 1)
  {
    hide Inv, Leads, BothAsleep, IsRun, Woken;
    var s1, s2 := FirstSteps(size, start);
    var s3, s4 := NextSteps(s2, size, start);
    var s5, s6, s7 := LastSteps(s4);
    before, labels := FourSteps(Init(size, start), s1, s2, s3, s4,
                                StartPoll(2, 1, start), StartWait(1, 0, size + 1, start), Take(start + size - 1), Drain);
    pass, rest := ThreeSteps(s4, s5, s6, s7, Signal(0), Drain, EndPass);
    SignalWakesIff(pass, rest, 0);
  }

  lemma FourSteps(s0: State, s1: State, s2: State, s3: State, s4: State, a: Label, b: Label, c: Label, d: Label)
    returns (states: seq<State>, labels: seq<Label>)
    requires Leads(s0, a, s1) && Leads(s1, b, s2) && Leads(s2, c, s3) && Leads(s3, d, s4)
    ensures IsRun(states, labels) && |labels| == 4 && states[0] == s0 && states[4] == s4
  {
    hide Leads, Step, Enabled, GoodClock;
    states, labels := ThreeSteps(s0, s1, s2, s3, a, b, c);
    Extended(states, labels, d, s4);
    states, labels := states + [s4], labels + [d];
  }

  lemma ThreeSteps(s0: State, s1: State, s2: State, s3: State, a: Label, b: Label, c: Label)
    returns (states: seq<State>, labels: seq<Label>)
    requires Leads(s0, a, s1) && Leads(s1, b, s2) && Leads(s2, c, s3)
    ensures IsRun(states, labels) && labels == [a, b, c] && states == [s0, s1, s2, s3]
  {
    hide Step, Enabled, GoodClock;
    states, labels := [s0, s1, s2, s3], [a, b, c];
  }
}
