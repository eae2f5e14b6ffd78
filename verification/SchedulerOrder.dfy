/** The order in which a condition variable lets its waiters go. */
module SchedulerOrder {
  import opened Seqs
  import opened WheelModel
  import opened Scheduler

  /** The waiters of `c` that a signal has resumed so far. */
  function LogLine(log: seq<Wake>, c: Cond): (r: seq<Id>)
  {
    if log == [] then []
    else LogLine(log[..|log| - 1], c) + (if log[|log| - 1].cause == BySignal(c) then [log[|log| - 1].id] else [])
  }

  /** The waiters of `c` that a signal has picked and that still stand in the active list. */
  function ActiveLine(active: seq<Id>, signalled: map<Id, Cond>, c: Cond): (r: seq<Id>)
    ensures forall x :: x in r ==> x in active && x in signalled && signalled[x] == c
  {
    if active == [] then []
    else (if active[0] in signalled && signalled[active[0]] == c then [active[0]] else [])
         + ActiveLine(active[1..], signalled, c)
  }

  /** Everyone who has waited for `c` and was not let go by the clock: first the waiters resumed
      by a signal, then those picked by a signal, then those still queued. */
  function Line(s: State, c: Cond): seq<Id> {
    LogLine(s.past.log, c) + ActiveLine(s.active, s.past.signalled, c) + Queue(s, c)
  }

  ghost predicate ByArrival(arrivals: map<Id, Arrival>, l: seq<Id>) {
    && (forall i :: 0 <= i < |l| ==> l[i] in arrivals)
    && forall i, j :: 0 <= i < j < |l| ==> arrivals[l[i]].serial < arrivals[l[j]].serial
  }

  ghost predicate WaitsOn(s: State, id: Id, c: Cond) {
    && id in s.timers && s.timers[id].kind.Waiter? && id !in s.past.signalled
    && id in s.past.arrivals && s.past.arrivals[id].cond == c
  }

  ghost predicate Picked(s: State, id: Id) {
    && id in s.active && id in s.timers && s.timers[id].kind.Waiter?
    && id in s.past.arrivals && id in s.past.signalled
    && s.past.arrivals[id].cond == s.past.signalled[id]
  }

  ghost predicate QueueInv(s: State) {
    && (forall c, id :: id in Queue(s, c) ==> WaitsOn(s, id, c))
    && (forall id :: id in s.past.signalled ==> Picked(s, id))
    && (forall id :: id in s.past.arrivals ==> s.past.arrivals[id].serial < s.past.tick)
  }

  ghost predicate LineInv(s: State) {
    forall c :: ByArrival(s.past.arrivals, Line(s, c))
  }

  /** Whoever was resumed is gone for good. */
  ghost predicate LogInv(s: State) {
    && (forall i :: 0 <= i < |s.past.log| ==> s.past.log[i].id in s.past.used && s.past.log[i].id !in s.timers)
    && forall i, j :: 0 <= i < j < |s.past.log| ==> s.past.log[i].id != s.past.log[j].id
  }

  // ---------------------------------------------------------------- lines under list operations

  lemma {:induction false} ActiveLineAppend(a: seq<Id>, b: seq<Id>, signalled: map<Id, Cond>, c: Cond)
    ensures ActiveLine(a + b, signalled, c) == ActiveLine(a, signalled, c) + ActiveLine(b, signalled, c)
  {
    if a == [] {
      assert a + b == b;
    } else {
      assert (a + b)[1..] == a[1..] + b;
      ActiveLineAppend(a[1..], b, signalled, c);
    }
  }

  lemma {:induction false} ActiveLineNone(a: seq<Id>, signalled: map<Id, Cond>, c: Cond)
    requires forall x :: x in a && x in signalled ==> signalled[x] != c
    ensures ActiveLine(a, signalled, c) == []
  {
    if a != [] {
      assert a[0] in a;
      ActiveLineNone(a[1..], signalled, c);
    }
  }

  /** An item that no signal has picked can come and go unnoticed. */
  lemma {:induction false} ActiveLineWithout(a: seq<Id>, x: Id, signalled: map<Id, Cond>, c: Cond)
    requires x !in signalled
    ensures ActiveLine(Without(a, x), signalled, c) == ActiveLine(a, signalled, c)
  {
    if a != [] {
      ActiveLineWithout(a[1..], x, signalled, c);
      if a[0] != x {
        assert Without(a, x)[1..] == Without(a[1..], x);
      }
    }
  }

  /** Picking an item matters only where the item stands. */
  lemma {:induction false} ActiveLineAgree(a: seq<Id>, m: map<Id, Cond>, n: map<Id, Cond>, c: Cond)
    requires forall x :: x in a ==> (x in m <==> x in n) && (x in m ==> m[x] == n[x])
    ensures ActiveLine(a, m, c) == ActiveLine(a, n, c)
  {
    if a != [] {
      assert a[0] in a;
      ActiveLineAgree(a[1..], m, n, c);
    }
  }

  lemma LogLineAppend(log: seq<Wake>, w: Wake, c: Cond)
    ensures LogLine(log + [w], c) == LogLine(log, c) + if w.cause == BySignal(c) then [w.id] else []
  {
    assert (log + [w])[..|log|] == log;
  }

  lemma ByArrivalSub(arrivals: map<Id, Arrival>, l: seq<Id>, r: seq<Id>, pos: seq<nat>)
    requires ByArrival(arrivals, l) && Picks(l, r, pos)
    ensures ByArrival(arrivals, r)
  {
    forall i, j | 0 <= i < j < |r|
      ensures r[i] in arrivals && r[j] in arrivals && arrivals[r[i]].serial < arrivals[r[j]].serial
    {
      assert pos[i] < pos[j];
    }
  }

  /** Leaving the line keeps the others in order. */
  lemma ByArrivalWithout(arrivals: map<Id, Arrival>, a: seq<Id>, b: seq<Id>, x: Id)
    requires ByArrival(arrivals, a + b)
    ensures ByArrival(arrivals, a + Without(b, x))
  {
    hide Without, Picks, ByArrival;
    var p := WithoutPositions(b, x);
    var pos := PicksBehind(a, b, Without(b, x), p);
    ByArrivalSub(arrivals, a + b, a + Without(b, x), pos);
  }

  lemma ByArrivalDrop(arrivals: map<Id, Arrival>, a: seq<Id>, x: Id, b: seq<Id>)
    requires ByArrival(arrivals, a + [x] + b)
    ensures ByArrival(arrivals, a + b)
  {
    var l := a + [x] + b;
    var pos := seq(|a + b|, i => if i < |a| then i else i + 1);
    ByArrivalSub(arrivals, l, a + b, pos);
  }

  lemma ByArrivalAgree(m: map<Id, Arrival>, n: map<Id, Arrival>, l: seq<Id>)
    requires ByArrival(m, l)
    requires forall x :: x in m ==> x in n && n[x] == m[x]
    ensures ByArrival(n, l)
  {
  }

  // ---------------------------------------------------------------- the invariants, step by step

  /** The steps that leave queues, signals, arrivals and the log alone. */
  lemma SameLines(s: State, r: State)
    requires LineInv(s)
    requires r.past.log == s.past.log && r.past.arrivals == s.past.arrivals && r.queues == s.queues
    requires forall c :: ActiveLine(r.active, r.past.signalled, c) == ActiveLine(s.active, s.past.signalled, c)
    ensures LineInv(r)
  {
    forall c ensures ByArrival(r.past.arrivals, Line(r, c)) {
      assert Line(r, c) == Line(s, c);
    }
  }

  lemma EnqueueKeepsLines(s: State, m: State, id: Id, c: Cond, t: Timer)
    requires LineInv(s) && id !in s.past.arrivals
    requires m.past.log == s.past.log && m.past.arrivals == s.past.arrivals && m.queues == s.queues
    requires m.active == s.active && m.past.signalled == s.past.signalled && m.past.tick == s.past.tick
    requires forall x :: x in s.past.arrivals ==> s.past.arrivals[x].serial < s.past.tick
    ensures LineInv(Enqueue(m, id, c, t))
    ensures Line(Enqueue(m, id, c, t), c) == Line(s, c) + [id]
    ensures forall d :: d != c ==> Line(Enqueue(m, id, c, t), d) == Line(s, d)
  {
    var r := Enqueue(m, id, c, t);
    assert Line(r, c) == Line(s, c) + [id];
    forall d ensures ByArrival(r.past.arrivals, Line(r, d)) {
      ByArrivalAgree(s.past.arrivals, r.past.arrivals, Line(s, d));
    }
  }

  /** A poll becomes active: no line notices. */
  lemma ReadyKeepsLines(s: State, id: Id)
    requires LineInv(s) && id in s.timers && s.timers[id].kind.Poll? && id !in s.past.signalled
    ensures LineInv(DoReady(s, id))
  {
    var r := DoReady(s, id);
    forall c ensures ActiveLine(r.active, r.past.signalled, c) == ActiveLine(s.active, s.past.signalled, c) {
      ActiveLineAppend(Without(s.active, id), [id], s.past.signalled, c);
      ActiveLineNone([id], s.past.signalled, c);
      ActiveLineWithout(s.active, id, s.past.signalled, c);
    }
    SameLines(s, r);
  }

  lemma ActivateLine(active: seq<Id>, signalled: map<Id, Cond>, x: Id, c: Cond, d: Cond)
    requires x !in signalled
    ensures ActiveLine(Without(active, x) + [x], signalled[x := c], d)
         == ActiveLine(active, signalled, d) + if c == d then [x] else []
  {
    var a := Without(active, x);
    ActiveLineAppend(a, [x], signalled[x := c], d);
    ActiveLineAgree(a, signalled[x := c], signalled, d);
    ActiveLineWithout(active, x, signalled, d);
  }

  /** A signal moves the boundary between the picked and the queued, and nobody else. */
  lemma SignalKeepsLines(s: State, c: Cond, d: Cond)
    requires Queue(s, c) != [] ==> Queue(s, c)[0] !in s.past.signalled
    ensures Line(DoSignal(s, c), d) == Line(s, d)
  {
    hide Cancel, ActiveLine, LogLine, Without;
    var q := Queue(s, c);
    if q != [] {
      ActivateLine(s.active, s.past.signalled, q[0], c, d);
      assert q == [q[0]] + q[1..];
    }
  }

  lemma TakeKeepsLines(s: State, now: nat)
    requires LineInv(s) && |s.wheel.slots| > 0
    requires forall x :: x in TakeAll(s.wheel, now).1 ==> x !in s.past.signalled
    ensures LineInv(DoTake(s, now))
  {
    hide TakeAll;
    var r := DoTake(s, now);
    var taken := TakeAll(s.wheel, now).1;
    forall c ensures ActiveLine(r.active, r.past.signalled, c) == ActiveLine(s.active, s.past.signalled, c) {
      ActiveLineAppend(s.active, taken, s.past.signalled, c);
      ActiveLineNone(taken, s.past.signalled, c);
    }
    SameLines(s, r);
  }

  /** The head of the active list leaves: its part of the lines is the front of the picked. */
  lemma ActiveLineTail(active: seq<Id>, signalled: map<Id, Cond>, c: Cond)
    requires active != [] && NoDup(active)
    ensures ActiveLine(active, signalled, c) ==
              (if active[0] in signalled && signalled[active[0]] == c then [active[0]] else [])
              + ActiveLine(active[1..], signalled - {active[0]}, c)
  {
    ActiveLineAgree(active[1..], signalled, signalled - {active[0]}, c);
  }

  lemma PutBackKeepsLines(s: State, r: State)
    requires LineInv(s) && s.active != [] && NoDup(s.active)
    requires r.active == s.active[1..] && r.past.signalled == s.past.signalled - {s.active[0]}
    requires r.past.log == s.past.log && r.past.arrivals == s.past.arrivals && r.queues == s.queues
    ensures LineInv(r)
  {
    hide ActiveLine, LogLine;
    var x := s.active[0];
    forall c ensures ByArrival(r.past.arrivals, Line(r, c)) {
      ActiveLineTail(s.active, s.past.signalled, c);
      var l, a, q := LogLine(s.past.log, c), ActiveLine(r.active, r.past.signalled, c), Queue(s, c);
      if x in s.past.signalled && s.past.signalled[x] == c {
        assert Line(s, c) == l + [x] + (a + q);
        ByArrivalDrop(s.past.arrivals, l, x, a + q);
        assert Line(r, c) == l + (a + q);
      } else {
        assert Line(r, c) == Line(s, c);
      }
    }
  }

  lemma ResumeKeepsLines(s: State, t: Timer)
    requires LineInv(s) && s.active != [] && NoDup(s.active)
    ensures LineInv(Resume(s.(active := s.active[1..]), s.active[0], t))
  {
    hide ActiveLine, LogLine, Without;
    var r := Resume(s.(active := s.active[1..]), s.active[0], t);
    forall c ensures ByArrival(r.past.arrivals, Line(r, c)) {
      ResumeKeepsLine(s, t, c);
      var l, a := LogLine(s.past.log, c), ActiveLine(s.active, s.past.signalled, c);
      assert Line(s, c) == l + a + Queue(s, c);
      ByArrivalWithout(s.past.arrivals, l + a, Queue(s, c), s.active[0]);
    }
  }

  /** What a resume does to a line: a signalled waiter at the head of the active list becomes the
      last one in the log, and a waiter that times out leaves the queue. */
  lemma ResumeKeepsLine(s: State, t: Timer, c: Cond)
    requires s.active != [] && NoDup(s.active)
    ensures Line(Resume(s.(active := s.active[1..]), s.active[0], t), c) ==
            LogLine(s.past.log, c) + ActiveLine(s.active, s.past.signalled, c) + Without(Queue(s, c), s.active[0])
  {
    hide ActiveLine, LogLine, Without;
    var x := s.active[0];
    var r := Resume(s.(active := s.active[1..]), x, t);
    var w := r.past.log[|s.past.log|];
    ActiveLineTail(s.active, s.past.signalled, c);
    LogLineAppend(s.past.log, w, c);
    assert r.past.log == s.past.log + [w];
    var l, a := LogLine(s.past.log, c), ActiveLine(r.active, r.past.signalled, c);
    assert l + [x] + a == l + ([x] + a);
    assert Queue(r, c) == Without(Queue(s, c), x);
  }
}
