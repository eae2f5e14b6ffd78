/** The scheduler of libco/co_routine.cpp as a step machine.  A state holds the timer wheel, the
    active list, every live timer item (one per suspended poll or condition wait) and the
    queues of the condition variables.  Coroutine code may call in at any point, so its calls
    are steps of their own that interleave freely with the steps of the event loop. */
module Scheduler {
  import opened Seqs
  import opened WheelModel

  type Id = nat
  type Cond = nat

  /** The part of an item that the scheduler reads: stTimeoutItem_t, with the two counters of
      stPoll_t for a poll. */
  datatype Kind = Poll(detached: bool, raised: nat) | Waiter
  datatype Timer = Timer(expire: nat, timedOut: bool, kind: Kind)

  /** The event loop is between passes, or empties the active list of a pass begun at `now`. */
  datatype Phase = Idle | Draining(now: nat)

  /** Whether a waiter had been picked by a signal of its condition variable. */
  datatype Cause = BySignal(cond: Cond) | Otherwise

  /** One resumption of a suspended coroutine: what the item looked like at that moment. */
  datatype Wake = Wake(id: Id, timedOut: bool, cause: Cause, raised: nat)

  datatype Arrival = Arrival(cond: Cond, serial: nat)

  /** What has happened so far; the scheduler itself never reads it. */
  datatype Past = Past(
    tick: nat,
    used: set<Id>,
    stamps: map<Id, Stamp>,
    arrivals: map<Id, Arrival>,
    signalled: map<Id, Cond>,
    log: seq<Wake>)

  datatype State = State(
    wheel: Wheel<Id>,
    active: seq<Id>,
    timers: map<Id, Timer>,
    queues: map<Cond, seq<Id>>,
    phase: Phase,
    past: Past)

  datatype Label =
    | StartPoll(id: Id, timeout: int, now: nat)
    | StartWait(id: Id, cond: Cond, ms: int, now: nat)
    | Ready(id: Id)
    | Signal(cond: Cond)
    | Broadcast(cond: Cond)
    | Take(now: nat)
    | Drain
    | EndPass

  function Init(size: nat, start: nat): State {
    State(Wheel(start, 0, seq(size, _ => [])), [], map[], map[], Idle,
          Past(0, {}, map[], map[], map[], []))
  }

  function Queue(s: State, c: Cond): seq<Id> {
    if c in s.queues then s.queues[c] else []
  }

  // ---------------------------------------------------------------- the steps

  /** A poll timeout below zero waits as long as an `int` can say. */
  function PollWait(timeout: int): int {
    if timeout < 0 then INT_MAX else timeout
  }

  /** co_poll_inner up to its yield; a failing AddTimeout makes it return at once. */
  function DoStartPoll(s: State, id: Id, timeout: int, now: nat): State
    requires |s.wheel.slots| > 0 && timeout != 0
  {
    var expire := now + PollWait(timeout);
    var (w, err) := AddTimeout(s.wheel, id, expire, now);
    var p := s.past.(used := s.past.used + {id});
    if err != 0 then s.(wheel := w, past := p)
    else s.(wheel := w, timers := s.timers[id := Timer(expire, false, Poll(false, 0))],
            past := p.(stamps := p.stamps[id := StampOf(s.wheel, expire, now, s.past.tick)]))
  }

  /** The stamp an item gets from a successful AddTimeout at `now`. */
  function StampOf(w: Wheel<Id>, expire: nat, now: nat, serial: nat): Stamp
    requires |w.slots| > 0 && now <= expire
    requires Started(w, now).start <= now
  {
    NewStamp(Started(w, now), expire, serial)
  }

  /** co_cond_timedwait up to its yield; a wait without a deadline is in no timer list. */
  function DoStartWait(s: State, id: Id, c: Cond, ms: int, now: nat): State
    requires |s.wheel.slots| > 0
  {
    var p := s.past.(used := s.past.used + {id});
    if ms > 0 then
      var expire := now + ms;
      var (w, err) := AddTimeout(s.wheel, id, expire, now);
      if err != 0 then s.(wheel := w, past := p)
      else Enqueue(s.(wheel := w, past := p.(stamps := p.stamps[id := StampOf(s.wheel, expire, now, s.past.tick)])),
                   id, c, Timer(expire, false, Waiter))
    else Enqueue(s.(past := p), id, c, Timer(0, false, Waiter))
  }

  function Enqueue(s: State, id: Id, c: Cond, t: Timer): State {
    s.(timers := s.timers[id := t],
       queues := s.queues[c := Queue(s, c) + [id]],
       past := s.past.(arrivals := s.past.arrivals[id := Arrival(c, s.past.tick)]))
  }

  /** Detaches an item from its timer list and appends it to the active list. */
  function Activate(s: State, id: Id): State {
    s.(wheel := Cancel(s.wheel, id), active := Without(s.active, id) + [id])
  }

  /** OnPollPreparePfn: an event for one of the descriptors of a poll. */
  function DoReady(s: State, id: Id): State
    requires id in s.timers && s.timers[id].kind.Poll?
  {
    var t := s.timers[id];
    var s := s.(timers := s.timers[id := t.(kind := Poll(true, t.kind.raised + 1))]);
    if t.kind.detached then s else Activate(s, id)
  }

  /** co_cond_signal: the first waiter, if any, becomes active. */
  function DoSignal(s: State, c: Cond): State {
    var q := Queue(s, c);
    if q == [] then s
    else Activate(s.(queues := s.queues[c := q[1..]],
                     past := s.past.(signalled := s.past.signalled[q[0] := c])), q[0])
  }

  /** co_cond_broadcast: signal until no waiter is left. */
  function DoBroadcast(s: State, c: Cond): State
    decreases |Queue(s, c)|
  {
    if Queue(s, c) == [] then s else DoBroadcast(DoSignal(s, c), c)
  }

  function MarkTimedOut(timers: map<Id, Timer>, ids: seq<Id>): (r: map<Id, Timer>)
    ensures r.Keys == timers.Keys
    ensures forall id :: id in timers ==> r[id] == if id in ids then timers[id].(timedOut := true) else timers[id]
  {
    map id | id in timers :: if id in ids then timers[id].(timedOut := true) else timers[id]
  }

  /** The start of the timeout half of a pass: take, mark, join. */
  function DoTake(s: State, now: nat): State
    requires |s.wheel.slots| > 0
  {
    var (w, taken) := TakeAll(s.wheel, now);
    s.(wheel := w, active := s.active + taken, timers := MarkTimedOut(s.timers, taken),
       phase := Draining(now))
  }

  /** One round of the draining loop: the head of the active list goes back to the wheel if it
      was taken before its deadline, and is resumed otherwise. */
  function DoDrain(s: State): State
    requires |s.wheel.slots| > 0 && s.phase.Draining? && s.active != []
    requires s.active[0] in s.timers
  {
    var id := s.active[0];
    var t := s.timers[id];
    var s := s.(active := s.active[1..]);
    if t.timedOut && s.phase.now < t.expire then
      var (w, err) := AddTimeout(s.wheel, id, t.expire, s.phase.now);
      if err == 0 then PutBack(s, id, t, w)
      else Resume(s.(wheel := w), id, t)
    else Resume(s, id, t)
  }

  function PutBack(s: State, id: Id, t: Timer, w: Wheel<Id>): State
    requires |s.wheel.slots| > 0 && s.phase.Draining? && s.phase.now <= t.expire
    requires Started(s.wheel, s.phase.now).start <= s.phase.now
  {
    s.(wheel := w, timers := s.timers[id := t.(timedOut := false)],
       past := s.past.(stamps := s.past.stamps[id := StampOf(s.wheel, t.expire, s.phase.now, s.past.tick)],
                       signalled := s.past.signalled - {id}))
  }

  /** The coroutine runs on from its yield: a waiter leaves its queue, and the item is freed. */
  function Resume(s: State, id: Id, t: Timer): State {
    s.(timers := s.timers - {id},
       queues := map c | c in s.queues :: Without(s.queues[c], id),
       past := s.past.(signalled := s.past.signalled - {id},
                       log := s.past.log +
                              [Wake(id, t.timedOut,
                                    if id in s.past.signalled then BySignal(s.past.signalled[id]) else Otherwise,
                                    if t.kind.Poll? then t.kind.raised else 0)]))
  }

  /** When a step can happen at all. */
  predicate Enabled(s: State, l: Label) {
    && |s.wheel.slots| > 0
    && match l
       case StartPoll(id, timeout, _) => id !in s.past.used && timeout != 0
       case StartWait(id, _, _, _) => id !in s.past.used
       case Ready(id) => s.phase.Idle? && id in s.timers && s.timers[id].kind.Poll?
       case Signal(_) => true
       case Broadcast(_) => true
       case Take(_) => s.phase.Idle?
       case Drain => s.phase.Draining? && s.active != [] && s.active[0] in s.timers
       case EndPass => s.phase.Draining? && s.active == []
  }

  function Act(s: State, l: Label): State
    requires Enabled(s, l)
  {
    match l
    case StartPoll(id, timeout, now) => DoStartPoll(s, id, timeout, now)
    case StartWait(id, c, ms, now) => DoStartWait(s, id, c, ms, now)
    case Ready(id) => DoReady(s, id)
    case Signal(c) => DoSignal(s, c)
    case Broadcast(c) => DoBroadcast(s, c)
    case Take(now) => DoTake(s, now)
    case Drain => DoDrain(s)
    case EndPass => s.(phase := Idle)
  }

  function Tick(s: State): State {
    s.(past := s.past.(tick := s.past.tick + 1))
  }

  function Step(s: State, l: Label): State
    requires Enabled(s, l)
  {
    Tick(Act(s, l))
  }

  /** The clock reads more than 0, and no pass comes so late that the count of slots to visit
      does not fit (see WheelModel.TakeIsCompleteIff). */
  predicate GoodClock(s: State, l: Label) {
    match l
    case StartPoll(_, _, now) => now > 0
    case StartWait(_, _, _, now) => now > 0
    case Take(now) => now > 0 && CountOk(|s.wheel.slots|, s.wheel.start, now)
    case _ => true
  }

  /** A run: consecutive states, with the steps between them. */
  ghost predicate IsRun(states: seq<State>, labels: seq<Label>) {
    && |states| == |labels| + 1
    && forall i :: 0 <= i < |labels| ==>
         Enabled(states[i], labels[i]) && GoodClock(states[i], labels[i])
         && states[i + 1] == Step(states[i], labels[i])
  }
}
