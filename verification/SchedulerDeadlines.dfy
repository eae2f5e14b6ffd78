/** The wheel and the event loop together refine a plain set of deadlines: a pass wakes the
    items whose deadline has come and leaves the others waiting. */
module SchedulerDeadlines {
  import opened WheelModel
  import opened Scheduler
  import opened SchedulerInv
  import opened SchedulerOrder
  import opened SchedulerRuns

  /** The item waits for its deadline. */
  ghost predicate Waits(s: State, id: Id) {
    id in s.timers && (InWheel(s.wheel, id) || s.timers[id].timedOut)
  }

  /** The plain set of deadlines that the scheduler stands for. */
  ghost function Deadlines(s: State): map<Id, nat> {
    map id | id in s.timers && Waits(s, id) :: s.timers[id].expire
  }

  /** Between `s` and `r`, the item was resumed because its time had come. */
  ghost predicate Fired(s: State, r: State, id: Id) {
    exists k :: |s.past.log| <= k < |r.past.log| && r.past.log[k].id == id && r.past.log[k].timedOut
  }

  /** Between `s` and `r`, the item was resumed by a signal, before its time. */
  ghost predicate Released(s: State, r: State, id: Id) {
    exists k :: |s.past.log| <= k < |r.past.log| && r.past.log[k].id == id
                && !r.past.log[k].timedOut && r.past.log[k].cause.BySignal?
  }

  // ---------------------------------------------------------------- in the middle of a pass

  ghost predicate Marked(s: State, id: Id, now: nat) {
    id in s.timers && s.timers[id].timedOut && s.timers[id].expire <= now
  }

  /** `s` is a state in the middle of a pass at `now` that began in `s0`. */
  ghost predicate MidItem(s0: State, s: State, now: nat, id: Id) {
    && (Waits(s0, id) && s0.timers[id].expire <= now <==> Fired(s0, s, id) || Marked(s, id, now))
    && (Waits(s0, id) && now < s0.timers[id].expire ==>
          || (Waits(s, id) && s.timers[id].expire == s0.timers[id].expire)
          || (id in s.timers && id in s.past.signalled && !s.timers[id].timedOut)
          || Released(s0, s, id))
  }

  ghost predicate Mid(s0: State, s: State, now: nat) {
    && s.phase == Draining(now) && s0.past.used <= s.past.used
    && s0.past.log <= s.past.log
    && forall id :: MidItem(s0, s, now, id)
  }

  lemma TakeStartsPass(s: State, now: nat)
    requires Inv(s) && s.phase.Idle? && CountOk(|s.wheel.slots|, s.wheel.start, now)
    ensures Mid(s, Tick(DoTake(s, now)), now)
  {
    hide WheelInv, LineInv, QueueInv, LogInv, KindInv, TakeAll, InWheel;
    TakeIsExact(s.wheel, s.past.stamps, now);
    var r := Tick(DoTake(s, now));
    forall id ensures MidItem(s, r, now, id) {
      assert !Fired(s, r, id);
      if Waits(s, id) {
        assert InWheel(s.wheel, id);
        StampBound(s, id);
      }
    }
  }

  lemma StampBound(s: State, id: Id)
    requires PlaceInv(s) && InWheel(s.wheel, id)
    ensures id in s.past.stamps && s.past.stamps[id].due <= s.past.stamps[id].expire == s.timers[id].expire
  {
  }

  /** A step that wakes nobody: items keep their timers and leave the wheel only when signalled. */
  ghost predicate Gentle(s: State, r: State) {
    && r.past.log == s.past.log && r.phase == s.phase && s.past.used <= r.past.used
    && (forall id :: id in s.timers ==> GentleOn(s, r, id))
    && (forall id :: id in r.timers && id !in s.timers ==> id !in s.past.used && !r.timers[id].timedOut)
  }

  ghost predicate GentleOn(s: State, r: State, id: Id)
    requires id in s.timers
  {
    && id in r.timers && r.timers[id] == s.timers[id]
    && (InWheel(s.wheel, id) ==> InWheel(r.wheel, id) || id in r.past.signalled)
    && (id in s.past.signalled ==> id in r.past.signalled)
  }

  lemma GentleKeepsMid(s0: State, s: State, r: State, now: nat)
    requires Inv(s0) && Mid(s0, s, now) && Gentle(s, r)
    ensures Mid(s0, Tick(r), now)
  {
    hide InWheel, WheelInv, LineInv, QueueInv, LogInv, KindInv, TimeInv;
    forall id ensures MidItem(s0, Tick(r), now, id) {
      assert MidItem(s0, s, now, id);
      assert Fired(s0, s, id) <==> Fired(s0, Tick(r), id);
      assert Released(s0, s, id) <==> Released(s0, Tick(r), id);
      if id in s.timers { assert GentleOn(s, r, id); }
    }
  }

  lemma AddIsGentle(s: State, r: State, id: Id, expire: nat, now: nat)
    requires PlaceInv(s) && id !in s.past.used && id !in s.timers && s.wheel.start <= now <= expire
    requires r.wheel == AddTimeout(s.wheel, id, expire, now).0
    requires id in r.timers && !r.timers[id].timedOut && r.timers == s.timers[id := r.timers[id]]
    requires r.past.log == s.past.log && r.phase == s.phase && s.past.used <= r.past.used
    requires r.past.signalled == s.past.signalled
    ensures Gentle(s, r)
  {
    hide WheelInv, InWheel, AddTimeout;
    AddKeepsInv(s.wheel, s.past.stamps, id, expire, now, s.past.tick);
  }

  lemma StartPollIsGentle(s: State, id: Id, timeout: int, now: nat)
    requires Inv(s) && id !in s.past.used && timeout != 0 && now > 0
    ensures Gentle(s, DoStartPoll(s, id, timeout, now))
  {
    FreshItem(s, id);
    hide WheelInv, LineInv, QueueInv, LogInv, KindInv, TimeInv, InWheel, AddTimeout;
    var r, expire := DoStartPoll(s, id, timeout, now), now + PollWait(timeout);
    AddFails(s.wheel, id, expire, now);
    if s.wheel.start <= now { AddIsGentle(s, r, id, expire, now); }
  }

  lemma StartWaitIsGentle(s: State, id: Id, c: Cond, ms: int, now: nat)
    requires Inv(s) && id !in s.past.used && now > 0
    ensures Gentle(s, DoStartWait(s, id, c, ms, now))
  {
    FreshItem(s, id);
    hide WheelInv, LineInv, QueueInv, LogInv, KindInv, TimeInv, InWheel, AddTimeout, Gentle;
    var r := DoStartWait(s, id, c, ms, now);
    if ms > 0 {
      AddFails(s.wheel, id, now + ms, now);
      if s.wheel.start <= now { AddIsGentle(s, r, id, now + ms, now); } else { SameItemsIsGentle(s, r); }
    } else {
      UntimedIsGentle(s, r, id);
    }
  }

  lemma SameItemsIsGentle(s: State, r: State)
    requires r.past.log == s.past.log && r.phase == s.phase && s.past.used <= r.past.used
    requires r.timers == s.timers && r.wheel == s.wheel && r.past.signalled == s.past.signalled
    ensures Gentle(s, r)
  {
  }

  lemma UntimedIsGentle(s: State, r: State, id: Id)
    requires id !in s.past.used && id !in s.timers
    requires r.past.log == s.past.log && r.phase == s.phase && s.past.used <= r.past.used
    requires id in r.timers && r.timers == s.timers[id := r.timers[id]] && !r.timers[id].timedOut
    requires r.wheel == s.wheel && r.past.signalled == s.past.signalled
    ensures Gentle(s, r)
  {
  }

  lemma SignalIsGentle(s: State, c: Cond)
    requires Inv(s)
    ensures Gentle(s, DoSignal(s, c))
  {
    var q := Queue(s, c);
    assert q != [] ==> WaitsOn(s, q[0], c);
    hide WheelInv, LineInv, QueueInv, LogInv, KindInv, TimeInv, InWheel;
    if q != [] {
      CancelKeepsInv(s.wheel, s.past.stamps, q[0]);
    }
  }

  lemma {:induction false} BroadcastIsGentle(s: State, c: Cond)
    requires Inv(s)
    ensures Gentle(s, DoBroadcast(s, c))
    decreases |Queue(s, c)|
  {
    hide Inv, InWheel;
    if Queue(s, c) != [] {
      var m, r := DoSignal(s, c), DoBroadcast(s, c);
      SignalIsGentle(s, c);
      SignalKeepsInv(s, c);
      BroadcastIsGentle(m, c);
      forall id | id in s.timers ensures GentleOn(s, r, id) {
        assert GentleOn(s, m, id) && GentleOn(m, r, id);
      }
    }
  }

  lemma FiredGrows(s0: State, s: State, r: State, w: Wake, id: Id)
    requires s0.past.log <= s.past.log && r.past.log == s.past.log + [w]
    ensures Fired(s0, r, id) <==> Fired(s0, s, id) || (w.id == id && w.timedOut)
    ensures Released(s0, r, id) <==> Released(s0, s, id) || (w.id == id && !w.timedOut && w.cause.BySignal?)
  {
    assert r.past.log[|s.past.log|] == w;
    assert forall k :: 0 <= k < |s.past.log| ==> r.past.log[k] == s.past.log[k];
  }

  lemma ResumeKeepsMid(s0: State, s: State, now: nat)
    requires Inv(s0) && Inv(s) && Mid(s0, s, now) && s.active != []
    requires !(s.timers[s.active[0]].timedOut && now < s.timers[s.active[0]].expire)
    ensures Mid(s0, Tick(DoDrain(s)), now)
  {
    var x := s.active[0];
    var r := Tick(DoDrain(s));
    assert Placed(s, x);
    hide WheelInv, LineInv, QueueInv, KindInv, TimeInv, InWheel, MidItem;
    forall id ensures MidItem(s0, r, now, id) {
      assert MidItem(s0, s, now, id);
      if id == x { ResumedInMid(s0, s, now); } else { OtherInMid(s0, s, now, id); }
    }
  }

  lemma OtherInMid(s0: State, s: State, now: nat, id: Id)
    requires MidItem(s0, s, now, id) && s0.past.log <= s.past.log && s.phase == Draining(now)
    requires |s.wheel.slots| > 0 && s.active != [] && s.active[0] in s.timers && id != s.active[0]
    requires !(s.timers[s.active[0]].timedOut && now < s.timers[s.active[0]].expire)
    ensures MidItem(s0, Tick(DoDrain(s)), now, id)
  {
    hide InWheel;
    var r := Tick(DoDrain(s));
    FiredGrows(s0, s, r, r.past.log[|s.past.log|], id);
  }

  lemma ResumedInMid(s0: State, s: State, now: nat)
    requires s.active != [] && MidItem(s0, s, now, s.active[0]) && s0.past.log <= s.past.log
    requires s.phase == Draining(now) && PlaceInv(s) && LogInv(s) && s.active[0] in s.timers && Placed(s, s.active[0])
    requires !(s.timers[s.active[0]].timedOut && now < s.timers[s.active[0]].expire)
    ensures MidItem(s0, Tick(DoDrain(s)), now, s.active[0])
  {
    hide InWheel, WheelInv;
    var r := Tick(DoDrain(s));
    FiredGrows(s0, s, r, r.past.log[|s.past.log|], s.active[0]);
    NotYetLogged(s0, s, s.active[0]);
  }

  lemma NotYetLogged(s0: State, s: State, id: Id)
    requires LogInv(s) && id in s.timers
    ensures !Fired(s0, s, id) && !Released(s0, s, id)
  {
  }

  lemma PutBackKeepsMid(s0: State, s: State, now: nat)
    requires Inv(s0) && Inv(s) && Mid(s0, s, now) && s.active != []
    requires s.timers[s.active[0]].timedOut && now < s.timers[s.active[0]].expire
    ensures Mid(s0, Tick(DoDrain(s)), now)
  {
    var x := s.active[0];
    assert TimedOutNow(s, x);
    PutBackKeepsPlaces(s);
    hide WheelInv, LineInv, QueueInv, KindInv, TimeInv, InWheel, PlaceInv, LogInv;
    var r := DoDrain(s);
    forall id ensures MidItem(s0, Tick(r), now, id) {
      assert MidItem(s0, s, now, id);
      assert Fired(s0, Tick(r), id) <==> Fired(s0, s, id);
      assert Released(s0, Tick(r), id) <==> Released(s0, s, id);
      if id != x { assert Alike(s, r, id); }
    }
  }

  lemma StepKeepsMid(s0: State, s: State, l: Label, now: nat)
    requires Inv(s0) && Inv(s) && Mid(s0, s, now) && Enabled(s, l) && GoodClock(s, l) && !l.EndPass?
    ensures Mid(s0, Step(s, l), now)
  {
    hide Inv, Mid, DoReady, DoDrain, DoStartPoll, DoStartWait, DoTake, DoSignal, DoBroadcast;
    assert s.phase == Draining(now) by { MidPhase(s0, s, now); }
    match l
    case StartPoll(id, timeout, t) =>
      StartPollIsGentle(s, id, timeout, t);
      GentleKeepsMid(s0, s, Act(s, l), now);
    case StartWait(id, c, ms, t) =>
      StartWaitIsGentle(s, id, c, ms, t);
      GentleKeepsMid(s0, s, Act(s, l), now);
    case Signal(c) => SignalIsGentle(s, c); GentleKeepsMid(s0, s, Act(s, l), now);
    case Broadcast(c) => BroadcastIsGentle(s, c); GentleKeepsMid(s0, s, Act(s, l), now);
    case Drain =>
      var t := s.timers[s.active[0]];
      if t.timedOut && now < t.expire { PutBackKeepsMid(s0, s, now); } else { ResumeKeepsMid(s0, s, now); }
  }

  lemma MidPhase(s0: State, s: State, now: nat)
    requires Mid(s0, s, now)
    ensures s.phase == Draining(now)
  {
  }

  lemma {:induction false} RunKeepsMid(states: seq<State>, labels: seq<Label>, now: nat, n: nat)
    requires IsRun(states, labels) && Inv(states[0]) && 0 < n <= |labels|
    requires labels[0] == Take(now) && forall i :: 0 < i < n ==> !labels[i].EndPass?
    ensures Mid(states[0], states[n], now)
  {
    hide Inv, Mid;
    if n == 1 {
      TakeStartsPass(states[0], now);
    } else {
      RunKeepsMid(states, labels, now, n - 1);
      RunKeepsInv(states, labels, n - 1);
      StepKeepsMid(states[0], states[n - 1], labels[n - 1], now);
    }
  }

  /** From `s` to `r`, a pass at `now` resumed as timeouts exactly the items whose deadline is
      `now` or earlier, each once; every other item goes on waiting for the same deadline unless
      a signal released it; and nobody who waits after the pass is overdue. */
  ghost predicate ExactPass(s: State, r: State, now: nat) {
    && s.past.log <= r.past.log
    && (forall id :: Fired(s, r, id) <==> id in Deadlines(s) && Deadlines(s)[id] <= now)
    && (forall i, j :: 0 <= i < j < |r.past.log| ==> r.past.log[i].id != r.past.log[j].id)
    && (forall id :: id in Deadlines(s) && now < Deadlines(s)[id] ==>
          Released(s, r, id) || (id in Deadlines(r) && Deadlines(r)[id] == Deadlines(s)[id]))
    && (forall id :: id in Deadlines(r) ==> now < Deadlines(r)[id])
  }

  /** Every pass is exact, whatever the resumed coroutines do in between. */
  lemma PassIsExact(states: seq<State>, labels: seq<Label>, now: nat)
    requires IsRun(states, labels) && Inv(states[0]) && |labels| >= 2
    requires labels[0] == Take(now) && labels[|labels| - 1] == EndPass
    requires forall i :: 0 < i < |labels| - 1 ==> !labels[i].EndPass?
    ensures ExactPass(states[0], states[|labels|], now)
  {
    var n := |labels| - 1;
    RunKeepsMid(states, labels, now, n);
    RunKeepsInv(states, labels, n);
    RunKeepsInv(states, labels, n + 1);
    EndIsExact(states[0], states[n], now);
    assert states[n + 1] == Step(states[n], EndPass);
  }

  lemma EndIsExact(s: State, m: State, now: nat)
    requires Inv(s) && Inv(m) && Mid(s, m, now) && m.active == []
    ensures ExactPass(s, Step(m, EndPass), now)
  {
    hide InWheel, WheelInv, LineInv, KindInv;
    var r := Step(m, EndPass);
    forall id ensures id in m.timers ==> !m.timers[id].timedOut && id !in m.past.signalled {
      assert id in m.timers && m.timers[id].timedOut ==> TimedOutNow(m, id);
      assert id in m.past.signalled ==> Picked(m, id);
    }
    forall id
      ensures Fired(s, r, id) <==> id in Deadlines(s) && Deadlines(s)[id] <= now
      ensures id in Deadlines(s) && now < Deadlines(s)[id] ==>
                Released(s, r, id) || (id in Deadlines(r) && Deadlines(r)[id] == Deadlines(s)[id])
    {
      assert MidItem(s, m, now, id);
      assert Fired(s, r, id) <==> Fired(s, m, id);
      assert Released(s, r, id) <==> Released(s, m, id);
    }
  }
}
