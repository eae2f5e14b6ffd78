/** Every suspended coroutine is woken exactly once, for one reason. */
module SchedulerPolls {
  import opened WheelModel
  import opened Scheduler
  import opened SchedulerInv
  import opened SchedulerOrder
  import opened SchedulerRuns

  /** The events delivered to a poll in the course of a run. */
  function ReadyCount(labels: seq<Label>, id: Id): nat {
    if labels == [] then 0
    else ReadyCount(labels[..|labels| - 1], id) + if labels[|labels| - 1] == Ready(id) then 1 else 0
  }

  ghost predicate InLog(s: State, id: Id) {
    exists k :: 0 <= k < |s.past.log| && s.past.log[k].id == id
  }

  /** Raise counts agree with the events delivered, for the living and for the woken; a wake by
      the clock has seen no event; and nobody who went to sleep has been lost. */
  ghost predicate WakeInv(s: State, labels: seq<Label>) {
    && (forall id :: id in s.timers && s.timers[id].kind.Poll? ==> s.timers[id].kind.raised == ReadyCount(labels, id))
    && (forall id :: id in s.timers && s.timers[id].kind.Waiter? ==> ReadyCount(labels, id) == 0)
    && (forall id :: id !in s.past.used ==> ReadyCount(labels, id) == 0)
    && (forall k :: 0 <= k < |s.past.log| ==> s.past.log[k].raised == ReadyCount(labels, s.past.log[k].id))
    && (forall k :: 0 <= k < |s.past.log| && s.past.log[k].timedOut ==> s.past.log[k].raised == 0)
    && (forall id :: id in s.past.stamps || id in s.past.arrivals ==> id in s.timers || InLog(s, id))
  }

  lemma ReadyCountAppend(labels: seq<Label>, l: Label, id: Id)
    ensures ReadyCount(labels + [l], id) == ReadyCount(labels, id) + if l == Ready(id) then 1 else 0
  {
    assert (labels + [l])[..|labels|] == labels;
  }

  lemma {:induction false} BroadcastKeepsTimers(s: State, c: Cond)
    ensures var r := DoBroadcast(s, c);
            && r.timers == s.timers && r.past.log == s.past.log && r.past.used == s.past.used
            && r.past.stamps == s.past.stamps && r.past.arrivals == s.past.arrivals && r.phase == s.phase
    decreases |Queue(s, c)|
  {
    if Queue(s, c) != [] {
      BroadcastKeepsTimers(DoSignal(s, c), c);
    }
  }

  /** At most the timer marks change, and items are added, fresh ones. */
  ghost predicate Quiet(s: State, r: State) {
    && r.past.log == s.past.log
    && (forall id :: id in s.timers ==> id in r.timers && r.timers[id].kind == s.timers[id].kind)
    && (forall id :: id in r.timers && id !in s.timers ==>
          id !in s.past.used && (r.timers[id].kind == Waiter || r.timers[id].kind == Poll(false, 0)))
    && (forall id :: id !in r.past.used ==> id !in s.past.used)
    && (forall id :: id in r.past.stamps || id in r.past.arrivals ==>
          id in r.timers || id in s.past.stamps || id in s.past.arrivals)
  }

  lemma StartPollIsQuiet(s: State, id: Id, timeout: int, now: nat)
    requires |s.wheel.slots| > 0 && id !in s.past.used && id !in s.timers && timeout != 0
    ensures Quiet(s, DoStartPoll(s, id, timeout, now))
  {
    hide AddTimeout;
    AddFails(s.wheel, id, now + PollWait(timeout), now);
  }

  lemma StartWaitIsQuiet(s: State, id: Id, c: Cond, ms: int, now: nat)
    requires |s.wheel.slots| > 0 && id !in s.past.used && id !in s.timers
    ensures Quiet(s, DoStartWait(s, id, c, ms, now))
  {
    hide AddTimeout;
    if ms > 0 { AddFails(s.wheel, id, now + ms, now); }
  }

  /** All steps are quiet, except for events and the draining loop. */
  lemma StepIsQuiet(s: State, l: Label)
    requires Inv(s) && Enabled(s, l) && GoodClock(s, l) && !l.Ready? && !l.Drain?
    ensures Quiet(s, Act(s, l))
  {
    if l.StartPoll? || l.StartWait? { FreshItem(s, l.id); }
    hide TakeAll, Inv, DoStartPoll, DoStartWait;
    match l
    case StartPoll(id, timeout, now) => StartPollIsQuiet(s, id, timeout, now);
    case StartWait(id, c, ms, now) => StartWaitIsQuiet(s, id, c, ms, now);
    case Broadcast(c) => BroadcastKeepsTimers(s, c);
    case _ =>
  }

  lemma QuietKeepsWakes(s: State, r: State, l: Label, labels: seq<Label>)
    requires Quiet(s, r) && !l.Ready? && WakeInv(s, labels)
    ensures WakeInv(Tick(r), labels + [l])
  {
    hide ReadyCount;
    forall id ensures ReadyCount(labels + [l], id) == ReadyCount(labels, id) { ReadyCountAppend(labels, l, id); }
    forall id | InLog(s, id) ensures InLog(Tick(r), id) {}
  }

  lemma ReadyKeepsWakes(s: State, id: Id, labels: seq<Label>)
    requires Inv(s) && Enabled(s, Ready(id)) && WakeInv(s, labels)
    ensures WakeInv(Tick(DoReady(s, id)), labels + [Ready(id)])
  {
    hide WheelInv, LineInv, KindInv, TimeInv, QueueInv, ReadyCount;
    var r := Tick(DoReady(s, id));
    assert r.past.log == s.past.log;
    forall x ensures ReadyCount(labels + [Ready(id)], x) == ReadyCount(labels, x) + if x == id then 1 else 0 {
      ReadyCountAppend(labels, Ready(id), x);
    }
    forall x | InLog(s, x) ensures InLog(r, x) {}
  }

  lemma PutBackIsQuiet(s: State)
    requires Inv(s) && s.phase.Draining? && s.active != []
    requires s.timers[s.active[0]].timedOut && s.phase.now < s.timers[s.active[0]].expire
    ensures Quiet(s, DoDrain(s))
  {
    hide AddTimeout, WheelInv, LineInv, QueueInv, KindInv;
    PutBackKeepsCore(s);
  }

  lemma ResumeKeepsWakes(s: State, id: Id, t: Timer, labels: seq<Label>)
    requires WakeInv(s, labels) && id in s.timers && s.timers[id] == t
    requires t.timedOut && t.kind.Poll? ==> t.kind.raised == 0
    ensures WakeInv(Tick(Resume(s, id, t)), labels + [Drain])
  {
    hide ReadyCount, InLog;
    var r := Tick(Resume(s, id, t));
    forall x ensures ReadyCount(labels + [Drain], x) == ReadyCount(labels, x) { ReadyCountAppend(labels, Drain, x); }
    forall x | InLog(s, x) || x == id ensures InLog(r, x) { LogGrows(s, r, x); }
  }

  lemma LogGrows(s: State, r: State, x: Id)
    requires |r.past.log| == |s.past.log| + 1 && r.past.log[..|s.past.log|] == s.past.log
    ensures InLog(r, x) <==> InLog(s, x) || x == r.past.log[|s.past.log|].id
  {
    assert forall k :: 0 <= k < |s.past.log| ==> r.past.log[k] == s.past.log[k];
  }

  lemma DrainKeepsWakes(s: State, labels: seq<Label>)
    requires Inv(s) && Enabled(s, Drain) && WakeInv(s, labels)
    ensures WakeInv(Tick(DoDrain(s)), labels + [Drain])
  {
    hide WheelInv, LineInv, QueueInv, AddTimeout, WakeInv;
    var id := s.active[0];
    var t := s.timers[id];
    assert Placed(s, id);
    if t.timedOut && s.phase.now < t.expire {
      PutBackIsQuiet(s);
      QuietKeepsWakes(s, DoDrain(s), Drain, labels);
    } else {
      var m := s.(active := s.active[1..]);
      assert WakeInv(m, labels) by { ActiveIsIrrelevant(s, m, labels); }
      ResumeKeepsWakes(m, id, t, labels);
    }
  }

  lemma ActiveIsIrrelevant(s: State, m: State, labels: seq<Label>)
    requires WakeInv(s, labels) && m.timers == s.timers && m.past == s.past
    ensures WakeInv(m, labels)
  {
    hide ReadyCount;
    forall x | InLog(s, x) ensures InLog(m, x) {}
  }

  lemma StepKeepsWakes(s: State, l: Label, labels: seq<Label>)
    requires Inv(s) && Enabled(s, l) && GoodClock(s, l) && WakeInv(s, labels)
    ensures WakeInv(Step(s, l), labels + [l])
  {
    hide Inv, WakeInv, DoReady, DoDrain, DoStartPoll, DoStartWait, DoTake, DoSignal, DoBroadcast;
    match l
    case Ready(id) => ReadyKeepsWakes(s, id, labels);
    case Drain => DrainKeepsWakes(s, labels);
    case _ => StepIsQuiet(s, l); QuietKeepsWakes(s, Act(s, l), l, labels);
  }

  lemma {:induction false} RunKeepsWakes(states: seq<State>, labels: seq<Label>, size: nat, start: nat, n: nat)
    requires IsRun(states, labels) && size > 0 && start > 0 && states[0] == Init(size, start) && n <= |labels|
    ensures WakeInv(states[n], labels[..n])
  {
    if n > 0 {
      InitInv(size, start);
      hide Inv, WakeInv, Step, Enabled;
      RunKeepsWakes(states, labels, size, start, n - 1);
      RunKeepsInv(states, labels, n - 1);
      assert labels[..n] == labels[..n - 1] + [labels[n - 1]];
      StepKeepsWakes(states[n - 1], labels[n - 1], labels[..n - 1]);
    }
  }

  /** In every run, each resumption is of a different item, its raise count is the number of
      events the item got, a timeout is never combined with an event, and the item is in no
      list afterwards. */
  lemma WokenExactlyOnce(states: seq<State>, labels: seq<Label>, size: nat, start: nat)
    requires IsRun(states, labels) && size > 0 && start > 0 && states[0] == Init(size, start)
    ensures var s := states[|labels|];
            var log := s.past.log;
            && (forall i, j :: 0 <= i < j < |log| ==> log[i].id != log[j].id)
            && (forall i :: 0 <= i < |log| ==>
                  && log[i].raised == ReadyCount(labels, log[i].id)
                  && (log[i].timedOut ==> log[i].raised == 0)
                  && log[i].id !in s.timers && log[i].id !in s.active && !InWheel(s.wheel, log[i].id)
                  && forall c :: log[i].id !in Queue(s, c))
  {
    var s := states[|labels|];
    InitInv(size, start);
    RunKeepsInv(states, labels, |labels|);
    RunKeepsWakes(states, labels, size, start, |labels|);
    assert labels[..|labels|] == labels;
    hide WheelInv, LineInv, KindInv, TimeInv, ReadyCount, IsRun;
    forall i, c | 0 <= i < |s.past.log| ensures s.past.log[i].id !in Queue(s, c) {
      assert s.past.log[i].id in Queue(s, c) ==> WaitsOn(s, s.past.log[i].id, c);
    }
  }

  /** In every run, whoever went to sleep has been woken or is alive in exactly one timer list,
      a waiter possibly in its queue instead. */
  lemma NobodyIsLost(states: seq<State>, labels: seq<Label>, size: nat, start: nat, id: Id)
    requires IsRun(states, labels) && size > 0 && start > 0 && states[0] == Init(size, start)
    ensures var s := states[|labels|];
            id in s.past.stamps || id in s.past.arrivals ==>
              || (InLog(s, id) && id !in s.timers)
              || (id in s.timers && !InLog(s, id)
                  && !(InWheel(s.wheel, id) && id in s.active)
                  && (InWheel(s.wheel, id) || id in s.active
                      || (s.timers[id].kind.Waiter? && id in s.past.arrivals
                          && id in Queue(s, s.past.arrivals[id].cond))))
  {
    var s := states[|labels|];
    InitInv(size, start);
    RunKeepsInv(states, labels, |labels|);
    RunKeepsWakes(states, labels, size, start, |labels|);
    hide WheelInv, LineInv, TimeInv, IsRun;
    if id in s.timers { assert Placed(s, id); }
  }

  /** With the active list empty, no live poll has got an event. */
  lemma NoEventIsPending(s: State)
    requires Inv(s) && s.active == []
    ensures forall id :: id in s.timers && s.timers[id].kind.Poll? ==> s.timers[id].kind.raised == 0
  {
    hide PlaceInv, TimeInv, LineInv, QueueInv, LogInv, InWheel;
    forall id | id in s.timers && s.timers[id].kind.Poll? ensures s.timers[id].kind.raised == 0 {
      assert Placed(s, id);
    }
  }

  ghost predicate LiveOrLogged(s: State, id: Id) {
    id in s.timers || InLog(s, id)
  }

  lemma ResumedIsLogged(s: State, id: Id)
    requires Enabled(s, Drain) && LiveOrLogged(s, id)
    ensures LiveOrLogged(Step(s, Drain), id)
  {
    hide AddTimeout, InLog;
    var r := Step(s, Drain);
    if r.past.log != s.past.log { LogGrows(s, r, id); } else { SameLog(s, r, id); }
  }

  lemma SameLog(s: State, r: State, id: Id)
    requires r.past.log == s.past.log
    ensures InLog(s, id) <==> InLog(r, id)
  {
  }

  lemma StaysLiveOrLogged(s: State, l: Label, id: Id)
    requires Inv(s) && Enabled(s, l) && GoodClock(s, l) && LiveOrLogged(s, id)
    ensures LiveOrLogged(Step(s, l), id)
  {
    hide Inv, InLog, DoReady, DoDrain, DoStartPoll, DoStartWait, DoTake, DoSignal, DoBroadcast;
    match l
    case Ready(x) => ReadyKeepsItems(s, x); SameLog(s, Step(s, l), id);
    case Drain => ResumedIsLogged(s, id);
    case _ => StepIsQuiet(s, l); SameLog(s, Step(s, l), id);
  }

  lemma ReadyKeepsItems(s: State, id: Id)
    requires id in s.timers && s.timers[id].kind.Poll?
    ensures DoReady(s, id).timers.Keys == s.timers.Keys && DoReady(s, id).past == s.past
  {
  }

  lemma {:induction false} RunStaysLiveOrLogged(states: seq<State>, labels: seq<Label>, id: Id, k: nat, n: nat)
    requires IsRun(states, labels) && Inv(states[0]) && k <= n <= |labels| && LiveOrLogged(states[k], id)
    ensures LiveOrLogged(states[n], id)
  {
    if k < n {
      hide Inv, LiveOrLogged, Step, Enabled;
      RunStaysLiveOrLogged(states, labels, id, k, n - 1);
      RunKeepsInv(states, labels, n - 1);
      StaysLiveOrLogged(states[n - 1], labels[n - 1], id);
    }
  }

  lemma {:induction false} ReadyIsCounted(labels: seq<Label>, id: Id, k: nat)
    requires k < |labels| && labels[k] == Ready(id)
    ensures ReadyCount(labels, id) > 0
  {
    if k < |labels| - 1 { ReadyIsCounted(labels[..|labels| - 1], id, k); }
  }

  /** The item has been resumed, with `n` events and not as a timeout. */
  ghost predicate Delivered(s: State, id: Id, n: nat) {
    && InLog(s, id)
    && forall i :: 0 <= i < |s.past.log| && s.past.log[i].id == id ==>
         !s.past.log[i].timedOut && s.past.log[i].raised == n
  }

  lemma EndOfPassDelivers(s: State, labels: seq<Label>, id: Id)
    requires Inv(s) && Enabled(s, EndPass) && WakeInv(Step(s, EndPass), labels)
    requires LiveOrLogged(Step(s, EndPass), id) && ReadyCount(labels, id) > 0
    ensures Delivered(Step(s, EndPass), id, ReadyCount(labels, id))
  {
    hide Inv, ReadyCount;
    NoEventIsPending(s);
  }

  /** In every run, a poll that got an event has been resumed when the pass ends, with all its
      events and not as a timeout. */
  lemma EventsAreDelivered(states: seq<State>, labels: seq<Label>, size: nat, start: nat, id: Id, k: nat, e: nat)
    requires IsRun(states, labels) && size > 0 && start > 0 && states[0] == Init(size, start)
    requires k < e < |labels| && labels[k] == Ready(id) && labels[e] == EndPass
    ensures ReadyCount(labels[..e + 1], id) > 0
    ensures Delivered(states[e + 1], id, ReadyCount(labels[..e + 1], id))
  {
    hide Inv, Step, IsRun, WakeInv, ReadyCount, Delivered;
    InitInv(size, start);
    RunStep(states, labels, k);
    RunStep(states, labels, e);
    RunKeepsInv(states, labels, e);
    RunKeepsWakes(states, labels, size, start, e + 1);
    RunStaysLiveOrLogged(states, labels, id, k, e + 1);
    ReadyIsCounted(labels[..e + 1], id, k);
    EndOfPassDelivers(states[e], labels[..e + 1], id);
  }

  /** No list holds an item twice, and no two lists hold the same item. */
  lemma OnePlaceEach(s: State, i: nat, a: nat, j: nat, b: nat)
    requires Inv(s) && i < |s.wheel.slots| && a < |s.wheel.slots[i]| && j < |s.wheel.slots| && b < |s.wheel.slots[j]|
    requires s.wheel.slots[i][a] == s.wheel.slots[j][b]
    ensures i == j && a == b
  {
    var id := s.wheel.slots[i][a];
    assert id in s.wheel.slots[i] && id in s.wheel.slots[j];
    OneSlot(s.wheel, s.past.stamps, id, i, j);
    assert InOrder(s.wheel.slots[i], s.past.stamps);
  }
}
