/** When a state of the step machine describes the contents of an event loop, and that every
    operation of the loop is then described by the step of the machine.  Values only: `T` is what
    the items of the loop are. */
module LoopMatch {
  import opened Seqs
  import opened WheelModel
  import opened Scheduler
  import opened SchedulerInv
  import opened Renaming

  /** The contents of an event loop: the wheel, the active list, the live items, and the queues
      of the condition variables. */
  datatype Contents<T> = Contents(wheel: Wheel<T>, active: seq<T>, timers: map<T, Timer>, queues: map<Cond, seq<T>>)

  function QueueOf<T>(a: Contents<T>, c: Cond): seq<T> {
    if c in a.queues then a.queues[c] else []
  }

  ghost predicate AllLive<T>(l: seq<T>, timers: map<T, Timer>) {
    forall i :: 0 <= i < |l| ==> l[i] in timers
  }

  /** Distinct live items have distinct names, and the lists hold live items only. */
  ghost predicate WellNamed<T>(a: Contents<T>, name: T -> Id) {
    && |a.wheel.slots| > 0
    && (forall x, y :: x in a.timers && y in a.timers && name(x) == name(y) ==> x == y)
    && (forall j :: 0 <= j < |a.wheel.slots| ==> AllLive(a.wheel.slots[j], a.timers))
    && AllLive(a.active, a.timers)
    && (forall c :: AllLive(QueueOf(a, c), a.timers))
  }

  ghost predicate SameTimers<T>(timers: map<T, Timer>, named: map<Id, Timer>, name: T -> Id) {
    && (forall x :: x in timers ==> name(x) in named && named[name(x)] == timers[x])
    && (forall id :: id in named ==> IsName(id, timers, name))
  }

  ghost predicate IsName<T>(id: Id, timers: map<T, Timer>, name: T -> Id) {
    exists x :: x in timers && name(x) == id
  }

  ghost predicate SameLists<T>(a: Contents<T>, s: State, name: T -> Id) {
    && s.wheel == RenameWheel(a.wheel, name)
    && s.active == Rename(a.active, name)
    && (forall c :: Queue(s, c) == Rename(QueueOf(a, c), name))
  }

  ghost predicate Matches<T>(a: Contents<T>, s: State, name: T -> Id) {
    WellNamed(a, name) && SameLists(a, s, name) && SameTimers(a.timers, s.timers, name)
  }

  lemma LiveIsKnown<T>(a: Contents<T>, s: State, name: T -> Id, x: T)
    requires Matches(a, s, name) && x in a.timers
    ensures name(x) in s.timers && s.timers[name(x)] == a.timers[x]
  {
  }

  /** What is live is not named twice, and names are given to all lists alike. */
  lemma SameItems<T>(a: Contents<T>, b: Contents<T>, name: T -> Id)
    requires WellNamed(a, name) && b == a.(timers := b.timers) && b.timers.Keys == a.timers.Keys
    ensures WellNamed(b, name)
  {
    forall j | 0 <= j < |b.wheel.slots| ensures AllLive(b.wheel.slots[j], b.timers) {
      assert AllLive(a.wheel.slots[j], a.timers);
    }
    forall c ensures AllLive(QueueOf(b, c), b.timers) { assert AllLive(QueueOf(a, c), a.timers); }
  }

  // ---------------------------------------------------------------- becoming active

  /** RemoveFromLink and AddTail: an item is detached and appended to the active list. */
  function Activated<T(==)>(a: Contents<T>, x: T): Contents<T> {
    a.(wheel := Cancel(a.wheel, x), active := Without(a.active, x) + [x])
  }

  lemma ActivateMatches<T>(a: Contents<T>, s: State, name: T -> Id, x: T)
    requires Matches(a, s, name) && x in a.timers
    ensures Matches(Activated(a, x), Activate(s, name(x)), name)
  {
    hide Rename, Without;
    RenameCancel(a.wheel, x, name);
    RenameWithout(a.active, x, name);
    RenameAppend(Without(a.active, x), [x], name);
    var b := Activated(a, x);
    forall i | 0 <= i < |b.active| ensures b.active[i] in a.timers {
      assert b.active[i] in b.active;
    }
    forall j | 0 <= j < |b.wheel.slots| ensures AllLive(b.wheel.slots[j], b.timers) {
      assert AllLive(a.wheel.slots[j], a.timers);
      forall i | 0 <= i < |b.wheel.slots[j]| ensures b.wheel.slots[j][i] in a.timers {
        assert b.wheel.slots[j][i] in b.wheel.slots[j];
      }
    }
    forall c ensures Queue(Activate(s, name(x)), c) == Rename(QueueOf(b, c), name) && AllLive(QueueOf(b, c), b.timers) {
      assert QueueOf(b, c) == QueueOf(a, c) && AllLive(QueueOf(a, c), a.timers);
    }
  }

  lemma TimerMatches<T>(a: Contents<T>, s: State, name: T -> Id, x: T, t: Timer)
    requires Matches(a, s, name) && x in a.timers
    ensures Matches(a.(timers := a.timers[x := t]), s.(timers := s.timers[name(x) := t]), name)
  {
    var b, r := a.(timers := a.timers[x := t]), s.(timers := s.timers[name(x) := t]);
    SameItems(a, b, name);
    ListsKept(a, b, s, r, name);
    assert forall y, z :: y in a.timers && z in a.timers && name(y) == name(z) ==> y == z;
    hide WellNamed, SameLists;
  }

  lemma ListsKept<T>(a: Contents<T>, b: Contents<T>, s: State, r: State, name: T -> Id)
    requires SameLists(a, s, name) && b == a.(timers := b.timers)
    requires r.wheel == s.wheel && r.active == s.active && r.queues == s.queues
    ensures SameLists(b, r, name)
  {
    forall c ensures Queue(r, c) == Rename(QueueOf(b, c), name) { assert Queue(s, c) == Rename(QueueOf(a, c), name); }
  }

  /** OnPollPreparePfn. */
  function Readied<T(==)>(a: Contents<T>, x: T): Contents<T>
    requires x in a.timers && a.timers[x].kind.Poll?
  {
    var t := a.timers[x];
    var b := a.(timers := a.timers[x := t.(kind := Poll(true, t.kind.raised + 1))]);
    if t.kind.detached then b else Activated(b, x)
  }

  lemma ReadyMatches<T>(a: Contents<T>, s: State, name: T -> Id, x: T)
    requires Matches(a, s, name) && x in a.timers && a.timers[x].kind.Poll?
    ensures name(x) in s.timers && s.timers[name(x)] == a.timers[x]
    ensures Matches(Readied(a, x), DoReady(s, name(x)), name)
  {
    hide Matches, Activated, Activate;
    LiveIsKnown(a, s, name, x);
    var t := a.timers[x].(kind := Poll(true, a.timers[x].kind.raised + 1));
    TimerMatches(a, s, name, x, t);
    if !a.timers[x].kind.detached {
      ActivateMatches(a.(timers := a.timers[x := t]), s.(timers := s.timers[name(x) := t]), name, x);
    }
  }

  // ---------------------------------------------------------------- small changes

  /** The history and the phase of the machine are not part of the contents. */
  lemma HistoryIsFree<T>(a: Contents<T>, s: State, r: State, name: T -> Id)
    requires Matches(a, s, name)
    requires r.wheel == s.wheel && r.active == s.active && r.timers == s.timers && r.queues == s.queues
    ensures Matches(a, r, name)
  {
    ListsKept(a, a, s, r, name);
    hide WellNamed, SameLists;
  }

  lemma AddMatches<T>(a: Contents<T>, s: State, name: T -> Id, x: T, expire: nat, now: nat)
    requires Matches(a, s, name) && x in a.timers
    ensures var (w, err) := AddTimeout(a.wheel, x, expire, now);
            |s.wheel.slots| > 0 && err == AddTimeout(s.wheel, name(x), expire, now).1
            && Matches(a.(wheel := w), s.(wheel := AddTimeout(s.wheel, name(x), expire, now).0), name)
  {
    RenameAdd(a.wheel, x, expire, now, name);
    var b := a.(wheel := AddTimeout(a.wheel, x, expire, now).0);
    forall j | 0 <= j < |b.wheel.slots| ensures AllLive(b.wheel.slots[j], b.timers) {
      assert AllLive(a.wheel.slots[j], a.timers);
      forall i | 0 <= i < |b.wheel.slots[j]| ensures b.wheel.slots[j][i] in a.timers {
        assert i < |a.wheel.slots[j]| ==> b.wheel.slots[j][i] == a.wheel.slots[j][i];
      }
    }
    SameQueues(a, b, s, s.(wheel := AddTimeout(s.wheel, name(x), expire, now).0), name);
  }

  lemma SameQueues<T>(a: Contents<T>, b: Contents<T>, s: State, r: State, name: T -> Id)
    requires b.queues == a.queues && r.queues == s.queues && b.timers.Keys >= a.timers.Keys
    requires forall c :: Queue(s, c) == Rename(QueueOf(a, c), name) && AllLive(QueueOf(a, c), a.timers)
    ensures forall c :: Queue(r, c) == Rename(QueueOf(b, c), name) && AllLive(QueueOf(b, c), b.timers)
  {
    forall c ensures Queue(r, c) == Rename(QueueOf(b, c), name) && AllLive(QueueOf(b, c), b.timers) {
      assert QueueOf(b, c) == QueueOf(a, c) && AllLive(QueueOf(a, c), a.timers);
    }
  }

  lemma QueueMatches<T>(a: Contents<T>, s: State, name: T -> Id, c: Cond, q: seq<T>)
    requires Matches(a, s, name) && AllLive(q, a.timers)
    ensures Matches(a.(queues := a.queues[c := q]), s.(queues := s.queues[c := Rename(q, name)]), name)
  {
    var b, r := a.(queues := a.queues[c := q]), s.(queues := s.queues[c := Rename(q, name)]);
    forall d ensures Queue(r, d) == Rename(QueueOf(b, d), name) && AllLive(QueueOf(b, d), b.timers) {
      if d != c { assert Queue(s, d) == Rename(QueueOf(a, d), name) && AllLive(QueueOf(a, d), a.timers); }
    }
    hide Rename, RenameWheel;
  }

  /** Names for one item more. */
  ghost function Naming<T>(name: T -> Id, x: T, id: Id): T -> Id {
    y => if y == x then id else name(y)
  }

  lemma NamingMatches<T>(a: Contents<T>, s: State, name: T -> Id, x: T, id: Id)
    requires Matches(a, s, name) && x !in a.timers
    ensures Matches(a, s, Naming(name, x, id))
  {
    NamingLists(a, s, name, x, id);
    NamingTimers(a, s, name, x, id);
    hide SameLists, SameTimers, AllLive;
  }

  lemma NamingLists<T>(a: Contents<T>, s: State, name: T -> Id, x: T, id: Id)
    requires WellNamed(a, name) && SameLists(a, s, name) && x !in a.timers
    ensures SameLists(a, s, Naming(name, x, id))
  {
    var name' := Naming(name, x, id);
    forall j, i | 0 <= j < |a.wheel.slots| && 0 <= i < |a.wheel.slots[j]|
      ensures name'(a.wheel.slots[j][i]) == name(a.wheel.slots[j][i])
    {
      assert AllLive(a.wheel.slots[j], a.timers);
    }
    hide Rename, RenameWheel;
    RenameWheelAgrees(a.wheel, name, name');
    RenameAgrees(a.active, name, name');
    forall c ensures Queue(s, c) == Rename(QueueOf(a, c), name') {
      assert AllLive(QueueOf(a, c), a.timers);
      RenameAgrees(QueueOf(a, c), name, name');
    }
  }

  lemma NamingTimers<T>(a: Contents<T>, s: State, name: T -> Id, x: T, id: Id)
    requires SameTimers(a.timers, s.timers, name) && x !in a.timers
    ensures SameTimers(a.timers, s.timers, Naming(name, x, id))
    ensures forall y :: y in a.timers ==> Naming(name, x, id)(y) == name(y)
  {
    var name' := Naming(name, x, id);
    forall n | n in s.timers ensures IsName(n, a.timers, name') {
      assert IsName(n, a.timers, name);
      var y :| y in a.timers && name(y) == n;
      assert name'(y) == n;
    }
  }

  /** A new item comes to life. */
  lemma BirthMatches<T>(a: Contents<T>, s: State, name: T -> Id, x: T, t: Timer)
    requires Matches(a, s, name) && x !in a.timers && name(x) !in s.timers
    ensures Matches(a.(timers := a.timers[x := t]), s.(timers := s.timers[name(x) := t]), name)
  {
    var b, r := a.(timers := a.timers[x := t]), s.(timers := s.timers[name(x) := t]);
    forall j | 0 <= j < |b.wheel.slots| ensures AllLive(b.wheel.slots[j], b.timers) {
      assert AllLive(a.wheel.slots[j], a.timers);
    }
    SameQueues(a, b, s, r, name);
    BirthNamed(a.timers, s.timers, name, x, t);
    hide Rename, RenameWheel;
  }

  lemma BirthNamed<T>(timers: map<T, Timer>, named: map<Id, Timer>, name: T -> Id, x: T, t: Timer)
    requires SameTimers(timers, named, name) && x !in timers && name(x) !in named
    ensures SameTimers(timers[x := t], named[name(x) := t], name)
    ensures forall y :: y in timers ==> name(y) != name(x)
  {
    var more, grown := timers[x := t], named[name(x) := t];
    forall id | id in grown ensures IsName(id, more, name) {
      if id in named {
        assert IsName(id, timers, name);
        var y :| y in timers && name(y) == id;
        assert y in more;
      } else {
        assert x in more;
      }
    }
  }

  // ---------------------------------------------------------------- the steps

  /** co_poll_inner up to its yield, with a new item `x`. */
  function PollStarted<T>(a: Contents<T>, x: T, timeout: int, now: nat): Contents<T>
    requires |a.wheel.slots| > 0 && timeout != 0
  {
    var expire := now + PollWait(timeout);
    var (w, err) := AddTimeout(a.wheel, x, expire, now);
    a.(wheel := w, timers := if err != 0 then a.timers else a.timers[x := Timer(expire, false, Poll(false, 0))])
  }

  lemma AddFailsAlike<T>(a: Contents<T>, s: State, name: T -> Id, x: T, expire: nat, now: nat)
    requires Matches(a, s, name) && a.wheel.start > 0
    ensures |a.wheel.slots| > 0 && |s.wheel.slots| > 0
    ensures AddTimeout(a.wheel, x, expire, now).1 == AddTimeout(s.wheel, name(x), expire, now).1
    ensures AddTimeout(a.wheel, x, expire, now).1 != 0 ==>
              AddTimeout(a.wheel, x, expire, now).0 == a.wheel && AddTimeout(s.wheel, name(x), expire, now).0 == s.wheel
  {
    RenameAdd(a.wheel, x, expire, now, name);
  }

  lemma StartPollMatches<T>(a: Contents<T>, s: State, name: T -> Id, x: T, timeout: int, now: nat)
    requires Matches(a, s, name) && a.wheel.start > 0 && x !in a.timers && name(x) !in s.timers && timeout != 0
    ensures |a.wheel.slots| > 0 && |s.wheel.slots| > 0
    ensures Matches(PollStarted(a, x, timeout, now), DoStartPoll(s, name(x), timeout, now), name)
    ensures x in PollStarted(a, x, timeout, now).timers <==> name(x) in DoStartPoll(s, name(x), timeout, now).timers
  {
    hide Matches, AddTimeout;
    var expire := now + PollWait(timeout);
    var t := Timer(expire, false, Poll(false, 0));
    AddFailsAlike(a, s, name, x, expire, now);
    var r := DoStartPoll(s, name(x), timeout, now);
    if AddTimeout(a.wheel, x, expire, now).1 != 0 {
      HistoryIsFree(a, s, r, name);
      assert PollStarted(a, x, timeout, now) == a;
    } else {
      var b, m := a.(timers := a.timers[x := t]), s.(timers := s.timers[name(x) := t]);
      BirthMatches(a, s, name, x, t);
      AddMatches(b, m, name, x, expire, now);
      HistoryIsFree(PollStarted(a, x, timeout, now), m.(wheel := r.wheel), r, name);
    }
  }

  /** co_cond_timedwait up to its yield, with a new item `x`. */
  function WaitStarted<T>(a: Contents<T>, x: T, c: Cond, ms: int, now: nat): Contents<T>
    requires |a.wheel.slots| > 0
  {
    var t := Timer(if ms > 0 then now + ms else 0, false, Waiter);
    var (w, err) := if ms > 0 then AddTimeout(a.wheel, x, t.expire, now) else (a.wheel, 0);
    if err != 0 then a.(wheel := w)
    else a.(wheel := w, timers := a.timers[x := t], queues := a.queues[c := QueueOf(a, c) + [x]])
  }

  lemma EnqueueMatches<T>(a: Contents<T>, s: State, name: T -> Id, x: T, c: Cond)
    requires Matches(a, s, name) && x in a.timers
    ensures Matches(a.(queues := a.queues[c := QueueOf(a, c) + [x]]),
                    s.(queues := s.queues[c := Queue(s, c) + [name(x)]]), name)
  {
    var q := QueueOf(a, c);
    assert AllLive(q, a.timers) && Queue(s, c) == Rename(q, name);
    hide Matches;
    RenameAppend(q, [x], name);
    assert Rename([x], name) == [name(x)];
    QueueMatches(a, s, name, c, q + [x]);
  }

  lemma StartWaitMatches<T>(a: Contents<T>, s: State, name: T -> Id, x: T, c: Cond, ms: int, now: nat)
    requires Matches(a, s, name) && a.wheel.start > 0 && x !in a.timers && name(x) !in s.timers
    ensures |a.wheel.slots| > 0 && |s.wheel.slots| > 0
    ensures Matches(WaitStarted(a, x, c, ms, now), DoStartWait(s, name(x), c, ms, now), name)
  {
    hide Matches, AddTimeout;
    var t := Timer(if ms > 0 then now + ms else 0, false, Waiter);
    AddFailsAlike(a, s, name, x, t.expire, now);
    var r := DoStartWait(s, name(x), c, ms, now);
    if ms > 0 && AddTimeout(a.wheel, x, t.expire, now).1 != 0 {
      HistoryIsFree(a, s, r, name);
      assert WaitStarted(a, x, c, ms, now) == a;
    } else {
      var b, m := a.(timers := a.timers[x := t]), s.(timers := s.timers[name(x) := t]);
      BirthMatches(a, s, name, x, t);
      if ms > 0 { AddMatches(b, m, name, x, t.expire, now); }
      var b', m' := b.(wheel := WaitStarted(a, x, c, ms, now).wheel), m.(wheel := r.wheel);
      EnqueueMatches(b', m', name, x, c);
      HistoryIsFree(WaitStarted(a, x, c, ms, now), m'.(queues := r.queues), r, name);
    }
  }

  /** co_cond_signal. */
  function Signalled<T(==)>(a: Contents<T>, c: Cond): Contents<T> {
    var q := QueueOf(a, c);
    if q == [] then a else Activated(a.(queues := a.queues[c := q[1..]]), q[0])
  }

  lemma QueueIs<T>(a: Contents<T>, s: State, name: T -> Id, c: Cond)
    requires Matches(a, s, name)
    ensures Queue(s, c) == Rename(QueueOf(a, c), name) && AllLive(QueueOf(a, c), a.timers)
  {
  }

  lemma SignalMatches<T>(a: Contents<T>, s: State, name: T -> Id, c: Cond)
    requires Matches(a, s, name)
    ensures Matches(Signalled(a, c), DoSignal(s, c), name)
  {
    hide Matches, Activated, Activate;
    QueueIs(a, s, name, c);
    var q := QueueOf(a, c);
    if q != [] {
      RenameTail(q, name);
      QueueMatches(a, s, name, c, q[1..]);
      var b, m := a.(queues := a.queues[c := q[1..]]), s.(queues := s.queues[c := Rename(q[1..], name)]);
      var m' := m.(past := m.past.(signalled := m.past.signalled[name(q[0]) := c]));
      HistoryIsFree(b, m, m', name);
      ActivateMatches(b, m', name, q[0]);
    }
  }

  // ---------------------------------------------------------------- the take

  function Marked<T(==)>(timers: map<T, Timer>, taken: seq<T>): (r: map<T, Timer>)
    ensures r.Keys == timers.Keys
    ensures forall x :: x in timers ==> r[x] == if x in taken then timers[x].(timedOut := true) else timers[x]
  {
    map x | x in timers :: if x in taken then timers[x].(timedOut := true) else timers[x]
  }

  /** The timeout half of a pass: take, mark, join. */
  function Taken<T(==)>(a: Contents<T>, now: nat): Contents<T>
    requires |a.wheel.slots| > 0
  {
    var (w, taken) := TakeAll(a.wheel, now);
    a.(wheel := w, active := a.active + taken, timers := Marked(a.timers, taken))
  }

  lemma {:induction false} GatheredAreLive<T>(w: Wheel<T>, timers: map<T, Timer>, n: nat)
    requires |w.slots| > 0 && forall j :: 0 <= j < |w.slots| ==> AllLive(w.slots[j], timers)
    ensures AllLive(Gather(w, n), timers)
  {
    if n > 0 {
      GatheredAreLive(w, timers, n - 1);
      assert AllLive(At(w, n - 1), timers);
    }
  }

  lemma TakenAreLive<T>(w: Wheel<T>, timers: map<T, Timer>, now: nat)
    requires |w.slots| > 0 && forall j :: 0 <= j < |w.slots| ==> AllLive(w.slots[j], timers)
    ensures var (r, taken) := TakeAll(w, now);
            && AllLive(taken, timers) && |r.slots| == |w.slots|
            && forall j :: 0 <= j < |r.slots| ==> AllLive(r.slots[j], timers)
  {
    hide Gather;
    var w0, r := Started(w, now), TakeAll(w, now).0;
    if w0.start <= now {
      var cnt := TakeCount(|w0.slots|, w0.start, now);
      if cnt >= 0 { GatheredAreLive(w0, timers, cnt); }
    }
    forall j | 0 <= j < |r.slots| ensures AllLive(r.slots[j], timers) { assert AllLive(w.slots[j], timers); }
  }

  /** Live items are in a list of live items exactly if their names are in the list of names. */
  lemma NamedMember<T>(l: seq<T>, timers: map<T, Timer>, name: T -> Id, x: T)
    requires forall y, z :: y in timers && z in timers && name(y) == name(z) ==> y == z
    requires AllLive(l, timers) && x in timers
    ensures x in l <==> name(x) in Rename(l, name)
  {
    if x in l {
      var i :| 0 <= i < |l| && l[i] == x;
      assert Rename(l, name)[i] == name(x);
    }
    if name(x) in Rename(l, name) {
      var i :| 0 <= i < |l| && Rename(l, name)[i] == name(x);
      assert l[i] == x;
    }
  }

  lemma MarkMatches<T>(timers: map<T, Timer>, named: map<Id, Timer>, name: T -> Id, taken: seq<T>)
    requires forall y, z :: y in timers && z in timers && name(y) == name(z) ==> y == z
    requires SameTimers(timers, named, name) && AllLive(taken, timers)
    ensures SameTimers(Marked(timers, taken), MarkTimedOut(named, Rename(taken, name)), name)
  {
    hide Rename;
    var m, r := Marked(timers, taken), MarkTimedOut(named, Rename(taken, name));
    forall x | x in m ensures name(x) in r && r[name(x)] == m[x] { NamedMember(taken, timers, name, x); }
    forall id | id in r ensures IsName(id, m, name) {
      assert IsName(id, timers, name);
      var x :| x in timers && name(x) == id;
      assert x in m;
    }
  }

  lemma TakeMatches<T>(a: Contents<T>, s: State, name: T -> Id, now: nat)
    requires Matches(a, s, name)
    ensures |a.wheel.slots| > 0 && |s.wheel.slots| > 0
    ensures Matches(Taken(a, now), DoTake(s, now), name)
  {
    hide TakeAll, Rename;
    var taken := TakeAll(a.wheel, now).1;
    TakenAreLive(a.wheel, a.timers, now);
    MarkMatches(a.timers, s.timers, name, taken);
    TakeLists(a, s, name, now);
    TakeNamed(a, name, now);
    hide WellNamed, SameLists, SameTimers;
  }

  lemma TakeLists<T>(a: Contents<T>, s: State, name: T -> Id, now: nat)
    requires SameLists(a, s, name) && |a.wheel.slots| > 0 && |s.wheel.slots| > 0
    ensures SameLists(Taken(a, now), DoTake(s, now), name)
    ensures Rename(TakeAll(a.wheel, now).1, name) == TakeAll(s.wheel, now).1
  {
    hide TakeAll, Rename, RenameWheel;
    RenameTake(a.wheel, now, name);
    RenameAppend(a.active, TakeAll(a.wheel, now).1, name);
    var b, r := Taken(a, now), DoTake(s, now);
    forall c ensures Queue(r, c) == Rename(QueueOf(b, c), name) { assert Queue(s, c) == Rename(QueueOf(a, c), name); }
  }

  lemma TakeNamed<T>(a: Contents<T>, name: T -> Id, now: nat)
    requires WellNamed(a, name)
    ensures WellNamed(Taken(a, now), name)
  {
    hide TakeAll;
    TakenAreLive(a.wheel, a.timers, now);
    var b := Taken(a, now);
    forall j | 0 <= j < |b.wheel.slots| ensures AllLive(b.wheel.slots[j], b.timers) {
      assert AllLive(b.wheel.slots[j], a.timers);
    }
    forall c ensures AllLive(QueueOf(b, c), b.timers) { assert AllLive(QueueOf(a, c), a.timers); }
  }

  // ---------------------------------------------------------------- the draining loop

  /** The item has been resumed: it leaves its queue, and is gone. */
  function Gone<T(==)>(a: Contents<T>, x: T): Contents<T> {
    a.(timers := a.timers - {x}, queues := map c | c in a.queues :: Without(a.queues[c], x))
  }

  /** One round of the draining loop. */
  function Drained<T(==)>(a: Contents<T>, now: nat): Contents<T>
    requires |a.wheel.slots| > 0 && a.active != [] && a.active[0] in a.timers
  {
    var x := a.active[0];
    var t := a.timers[x];
    var b := a.(active := a.active[1..]);
    if t.timedOut && now < t.expire then
      var (w, err) := AddTimeout(a.wheel, x, t.expire, now);
      if err == 0 then b.(wheel := w, timers := b.timers[x := t.(timedOut := false)])
      else Gone(b.(wheel := w), x)
    else Gone(b, x)
  }

  lemma PopMatches<T>(a: Contents<T>, s: State, name: T -> Id)
    requires Matches(a, s, name) && a.active != []
    ensures s.active != [] && s.active[0] == name(a.active[0])
    ensures Matches(a.(active := a.active[1..]), s.(active := s.active[1..]), name)
  {
    RenameTail(a.active, name);
    var b, r := a.(active := a.active[1..]), s.(active := s.active[1..]);
    SameQueues(a, b, s, r, name);
    hide Rename, RenameWheel;
  }

  /** The item is in no timer list. */
  ghost predicate Loose<T>(a: Contents<T>, x: T) {
    x !in a.active && forall j :: 0 <= j < |a.wheel.slots| ==> x !in a.wheel.slots[j]
  }

  lemma GoneMatches<T>(a: Contents<T>, s: State, name: T -> Id, x: T, t: Timer)
    requires Matches(a, s, name) && x in a.timers && Loose(a, x)
    ensures Matches(Gone(a, x), Resume(s, name(x), t), name)
  {
    GoneNamed(a, name, x);
    GoneTimers(a, s.timers, name, x);
    GoneQueues(a, s, name, x, t);
    hide WellNamed, SameTimers, Without, Rename, RenameWheel;
  }

  lemma GoneNamed<T>(a: Contents<T>, name: T -> Id, x: T)
    requires WellNamed(a, name) && Loose(a, x)
    ensures WellNamed(Gone(a, x), name)
  {
    var b := Gone(a, x);
    forall j | 0 <= j < |b.wheel.slots| ensures AllLive(b.wheel.slots[j], b.timers) {
      assert AllLive(a.wheel.slots[j], a.timers) && x !in a.wheel.slots[j];
    }
    forall c ensures AllLive(QueueOf(b, c), b.timers) {
      assert AllLive(QueueOf(a, c), a.timers);
      assert QueueOf(b, c) == Without(QueueOf(a, c), x);
      forall i | 0 <= i < |QueueOf(b, c)| ensures QueueOf(b, c)[i] in b.timers {
        assert QueueOf(b, c)[i] in QueueOf(b, c);
      }
    }
  }

  lemma GoneTimers<T>(a: Contents<T>, named: map<Id, Timer>, name: T -> Id, x: T)
    requires WellNamed(a, name) && SameTimers(a.timers, named, name) && x in a.timers
    ensures SameTimers(a.timers - {x}, named - {name(x)}, name)
  {
    var m, r := a.timers - {x}, named - {name(x)};
    forall id | id in r ensures IsName(id, m, name) {
      assert IsName(id, a.timers, name);
      var y :| y in a.timers && name(y) == id;
      assert y in m;
    }
  }

  /** A name goes with its item. */
  lemma GoneIsUnnamed<T>(a: Contents<T>, s: State, b: Contents<T>, t: State, name: T -> Id, x: T)
    requires Matches(a, s, name) && x in a.timers && Matches(b, t, name) && b.timers.Keys == a.timers.Keys - {x}
    ensures name(x) !in t.timers
  {
    assert !IsName(name(x), b.timers, name);
  }

  lemma GoneQueues<T>(a: Contents<T>, s: State, name: T -> Id, x: T, t: Timer)
    requires Matches(a, s, name) && x in a.timers
    ensures forall c :: Queue(Resume(s, name(x), t), c) == Rename(QueueOf(Gone(a, x), c), name)
  {
    hide Without, Rename, RenameWheel;
    forall c ensures Queue(Resume(s, name(x), t), c) == Rename(QueueOf(Gone(a, x), c), name) {
      assert AllLive(QueueOf(a, c), a.timers);
      RenameWithout(QueueOf(a, c), x, name);
      assert Queue(Resume(s, name(x), t), c) == Without(Queue(s, c), name(x));
      assert QueueOf(Gone(a, x), c) == Without(QueueOf(a, c), x);
    }
  }

  /** An item popped off the active list is in no list any more. */
  lemma HeadIsLoose<T>(a: Contents<T>, s: State, name: T -> Id)
    requires Matches(a, s, name) && PlaceInv(s) && a.active != []
    ensures a.active[0] in a.timers && Loose(a.(active := a.active[1..]), a.active[0])
  {
    hide WheelInv;
    var x := a.active[0];
    assert s.active[0] == name(x) && !InWheel(s.wheel, s.active[0]);
    forall j, i | 0 <= j < |a.wheel.slots| && 0 <= i < |a.wheel.slots[j]| ensures a.wheel.slots[j][i] != x {
      assert s.wheel.slots[j][i] in s.wheel.slots[j];
    }
    forall i | 1 <= i < |a.active| ensures a.active[i] != x {
      assert s.active[i] != s.active[0];
    }
  }

  lemma DrainMatches<T>(a: Contents<T>, s: State, name: T -> Id)
    requires Matches(a, s, name) && PlaceInv(s) && a.active != [] && s.phase.Draining?
    ensures |a.wheel.slots| > 0 && a.active[0] in a.timers
    ensures |s.wheel.slots| > 0 && s.active != [] && s.active[0] in s.timers
    ensures Matches(Drained(a, s.phase.now), DoDrain(s), name)
  {
    hide AddTimeout, WheelInv, Matches, Loose, Gone, Resume, PlaceInv;
    NotEmptyWheel(a, s, name);
    HeadIsLoose(a, s, name);
    var x, now := a.active[0], s.phase.now;
    var t := a.timers[x];
    LiveIsKnown(a, s, name, x);
    PopMatches(a, s, name);
    var b, m := a.(active := a.active[1..]), s.(active := s.active[1..]);
    if t.timedOut && now < t.expire {
      AddMatches(b, m, name, x, t.expire, now);
      var (w, err) := AddTimeout(b.wheel, x, t.expire, now);
      var b', m' := b.(wheel := w), m.(wheel := AddTimeout(m.wheel, name(x), t.expire, now).0);
      if err == 0 {
        TimerMatches(b', m', name, x, t.(timedOut := false));
        HistoryIsFree(Drained(a, now), m'.(timers := m'.timers[name(x) := t.(timedOut := false)]), DoDrain(s), name);
      } else {
        FailedIsLoose(b, x, t.expire, now);
        GoneMatches(b', m', name, x, t);
      }
    } else {
      GoneMatches(b, m, name, x, t);
    }
  }

  /** The item at the head stays or goes together with its name. */
  lemma HeadNamed<T>(a: Contents<T>, s: State, name: T -> Id)
    requires Matches(a, s, name) && PlaceInv(s) && a.active != [] && s.phase.Draining?
    ensures |a.wheel.slots| > 0 && a.active[0] in a.timers
    ensures |s.wheel.slots| > 0 && s.active != [] && s.active[0] in s.timers
    ensures a.active[0] in Drained(a, s.phase.now).timers <==> name(a.active[0]) in DoDrain(s).timers
  {
    DrainMatches(a, s, name);
    hide Matches, DoDrain, PlaceInv, AddTimeout, Without;
    var x, b := a.active[0], Drained(a, s.phase.now);
    if x in b.timers {
      LiveIsKnown(b, DoDrain(s), name, x);
    } else {
      assert b.timers.Keys == a.timers.Keys - {x};
      GoneIsUnnamed(a, s, b, DoDrain(s), name, x);
    }
  }

  lemma NotEmptyWheel<T>(a: Contents<T>, s: State, name: T -> Id)
    requires Matches(a, s, name)
    ensures |a.wheel.slots| > 0 && |s.wheel.slots| > 0
  {
  }

  lemma FailedIsLoose<T>(a: Contents<T>, x: T, expire: nat, now: nat)
    requires |a.wheel.slots| > 0 && Loose(a, x) && AddTimeout(a.wheel, x, expire, now).1 != 0
    ensures Loose(a.(wheel := AddTimeout(a.wheel, x, expire, now).0), x)
  {
  }

  // ---------------------------------------------------------------- further steps

  /** A wait whose AddTimeout fails leaves everything as it is. */
  lemma FailedWaitMatches<T>(a: Contents<T>, s: State, name: T -> Id, id: Id, c: Cond, ms: int, now: nat)
    requires Matches(a, s, name) && 0 < a.wheel.start && now < a.wheel.start && ms > 0
    ensures |s.wheel.slots| > 0 && Matches(a, DoStartWait(s, id, c, ms, now), name)
    ensures DoStartWait(s, id, c, ms, now).timers == s.timers
  {
    NotEmptyWheel(a, s, name);
    HistoryIsFree(a, s, DoStartWait(s, id, c, ms, now), name);
  }

  /** co_cond_broadcast. */
  function Broadcasted<T(==)>(a: Contents<T>, c: Cond): Contents<T>
    decreases |QueueOf(a, c)|
  {
    if QueueOf(a, c) == [] then a else Broadcasted(Signalled(a, c), c)
  }

  lemma {:induction false} BroadcastMatches<T>(a: Contents<T>, s: State, name: T -> Id, c: Cond)
    requires Matches(a, s, name)
    ensures Matches(Broadcasted(a, c), DoBroadcast(s, c), name)
    decreases |QueueOf(a, c)|
  {
    hide Matches;
    QueueIs(a, s, name, c);
    if QueueOf(a, c) != [] {
      SignalMatches(a, s, name, c);
      BroadcastMatches(Signalled(a, c), DoSignal(s, c), name, c);
    }
  }

  /** All at once: the waiters leave the wheel and go, in order, to the end of the active list. */
  lemma {:induction false} BroadcastIs<T>(a: Contents<T>, c: Cond)
    requires c in a.queues && NoDup(a.queues[c])
    ensures Broadcasted(a, c) == a.(wheel := CancelAll(a.wheel, a.queues[c]),
                                    active := WithoutAll(a.active, a.queues[c]) + a.queues[c],
                                    queues := a.queues[c := []])
    decreases |a.queues[c]|
  {
    hide Cancel, Without;
    var q := a.queues[c];
    if q == [] {
      assert a.queues[c := []] == a.queues;
    } else {
      BroadcastIs(Signalled(a, c), c);
      MoveFirstToEnd(a.active, q);
      assert a.queues[c := q[1..]][c := []] == a.queues[c := []];
    }
  }

  /** A new condition variable has nobody waiting. */
  lemma NewQueueMatches<T>(a: Contents<T>, s: State, name: T -> Id, c: Cond)
    requires Matches(a, s, name) && c !in a.queues
    ensures Matches(a.(queues := a.queues[c := []]), s, name)
  {
    var b := a.(queues := a.queues[c := []]);
    forall d ensures Queue(s, d) == Rename(QueueOf(b, d), name) && AllLive(QueueOf(b, d), b.timers) {
      assert QueueOf(b, d) == QueueOf(a, d) && AllLive(QueueOf(a, d), a.timers);
    }
  }

  /** The starts, with a name `id` that has not been used. */
  lemma NewPollMatches<T>(a: Contents<T>, s: State, name: T -> Id, x: T, id: Id, timeout: int, now: nat)
    requires Matches(a, s, name) && a.wheel.start > 0 && x !in a.timers && id !in s.timers && timeout != 0
    ensures |a.wheel.slots| > 0 && |s.wheel.slots| > 0
    ensures Matches(PollStarted(a, x, timeout, now), DoStartPoll(s, id, timeout, now), Naming(name, x, id))
    ensures x in PollStarted(a, x, timeout, now).timers <==> id in DoStartPoll(s, id, timeout, now).timers
  {
    hide Matches, PollStarted, DoStartPoll;
    NamingMatches(a, s, name, x, id);
    StartPollMatches(a, s, Naming(name, x, id), x, timeout, now);
  }

  lemma NewWaitMatches<T>(a: Contents<T>, s: State, name: T -> Id, x: T, id: Id, c: Cond, ms: int, now: nat)
    requires Matches(a, s, name) && a.wheel.start > 0 && x !in a.timers && id !in s.timers
    ensures |a.wheel.slots| > 0 && |s.wheel.slots| > 0
    ensures Matches(WaitStarted(a, x, c, ms, now), DoStartWait(s, id, c, ms, now), Naming(name, x, id))
    ensures x in WaitStarted(a, x, c, ms, now).timers ==> id in DoStartWait(s, id, c, ms, now).timers
  {
    hide Matches, WaitStarted, DoStartWait;
    NamingMatches(a, s, name, x, id);
    StartWaitMatches(a, s, Naming(name, x, id), x, c, ms, now);
    var b := WaitStarted(a, x, c, ms, now);
    if x in b.timers { LiveIsKnown(b, DoStartWait(s, id, c, ms, now), Naming(name, x, id), x); }
  }

  /** A live item is where its name is. */
  lemma PlacesAgree<T>(a: Contents<T>, s: State, name: T -> Id, x: T)
    requires Matches(a, s, name) && x in a.timers
    ensures InWheel(s.wheel, name(x)) <==> InWheel(a.wheel, x)
    ensures name(x) in s.active <==> x in a.active
    ensures forall c :: name(x) in Queue(s, c) <==> x in QueueOf(a, c)
  {
    hide Rename;
    NamedMember(a.active, a.timers, name, x);
    forall c ensures name(x) in Queue(s, c) <==> x in QueueOf(a, c) {
      NamedMember(QueueOf(a, c), a.timers, name, x);
    }
    forall j | 0 <= j < |a.wheel.slots| ensures name(x) in s.wheel.slots[j] <==> x in a.wheel.slots[j] {
      assert AllLive(a.wheel.slots[j], a.timers);
      NamedMember(a.wheel.slots[j], a.timers, name, x);
    }
  }
}
