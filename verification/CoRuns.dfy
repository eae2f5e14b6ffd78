/** Shared stacks and the call stack over whole runs: any interleaving of resumes, yields, stack
    writes, creations, frees and resets. */
module CoRuns {
  import opened Wrappers
  import opened Seqs
  import opened CoSwitch

  function Init(main: Co, mems: map<Mem, StackMem>): Thread {
    Thread([main], map[main := Coroutine(false, false, None, 0, None)], mems, map[])
  }

  lemma InitInv(main: Co, mems: map<Mem, StackMem>)
    requires forall m :: m in mems ==> mems[m].occupant == None
    ensures Inv(Init(main, mems))
  {
  }

  /** Consecutive states with the events between them; the invariant a step relies on holds all
      along (see RunKeepsInv). */
  ghost predicate IsRun(ts: seq<Thread>, es: seq<Event>) {
    && |ts| == |es| + 1
    && forall i :: 0 <= i < |es| ==>
         Enabled(ts[i], es[i]) && (Inv(ts[i]) ==> ts[i + 1] == Step(ts[i], es[i]))
  }

  lemma {:induction false} RunKeepsInv(ts: seq<Thread>, es: seq<Event>, n: nat)
    requires IsRun(ts, es) && Inv(ts[0]) && n <= |es|
    ensures Inv(ts[n])
  {
    hide Inv, Enabled, Step;
    if n > 0 {
      RunKeepsInv(ts, es, n - 1);
      StepKeepsInv(ts[n - 1], es[n - 1]);
    }
  }

  // ---------------------------------------------------------------- from switch-out to switch-in

  predicate Switches(e: Event) {
    e.Resume? || e.Yield? || e.Finish?
  }

  /** The coroutine a switch goes to. */
  function Target(t: Thread, e: Event): Co
    requires Enabled(t, e) && Switches(e)
  {
    if e.Resume? then e.co else t.stack[|t.stack| - 2]
  }

  /** The thread as it is handed to co_swap. */
  function Prepared(t: Thread, e: Event): Thread
    requires Enabled(t, e) && Switches(e)
  {
    match e
    case Resume(co, _) => t.(stack := t.stack + [co], cos := t.cos[co := t.cos[co].(started := true)])
    case Yield(_) => t.(stack := t.stack[..|t.stack| - 1])
    case Finish(_) => Ended(t).(stack := t.stack[..|t.stack| - 1])
  }

  function First(t: Thread, e: Event): bool
    requires Enabled(t, e)
  {
    e.Resume? && !t.cos[e.co].started
  }

  lemma ReadyToSwitch(t: Thread, e: Event)
    requires Inv(t) && Enabled(t, e) && Switches(e)
    ensures Switchable(Prepared(t, e), Current(t), Target(t, e), e.sp, First(t, e))
  {
    var next := Target(t, e);
    assert next in t.cos && Current(t) in t.cos && next != Current(t);
    InvGivesSwap(t, next);
    assert CoOk(t, Current(t)) && CoOk(t, next);
  }

  lemma SwitchIsSwap(t: Thread, e: Event)
    requires Inv(t) && Enabled(t, e) && Switches(e)
    ensures Switchable(Prepared(t, e), Current(t), Target(t, e), e.sp, First(t, e))
    ensures Step(t, e) == Swap(Prepared(t, e), Current(t), Target(t, e), e.sp, First(t, e))
    ensures Current(Prepared(t, e)) == Target(t, e)
  {
    hide Swap, Inv, Switchable;
    ReadyToSwitch(t, e);
  }

  /** The mark and the contents a coroutine leaves behind. */
  lemma FallsAsleep(t: Thread, e: Event)
    requires Inv(t) && Enabled(t, e) && Switches(e) && Shares(t, Current(t))
    ensures var p, r := Current(t), Step(t, e);
            && Shares(r, p) && r.cos[p].sp == e.sp && r.cos[p].mem == t.cos[p].mem
            && p in r.frames && r.frames[p] == MemOf(t, p).bytes[e.sp..]
  {
    hide Swap, Inv, Switchable, Step;
    SwitchIsSwap(t, e);
    SwapCos(Prepared(t, e), Current(t), Target(t, e), e.sp, First(t, e), Current(t));
  }

  /** Whoever wakes up finds the contents left behind, if anybody occupied the memory. */
  lemma WakesUp(t: Thread, e: Event, p: Co)
    requires Inv(t) && Enabled(t, e) && Switches(e) && Target(t, e) == p && Shares(t, p) && t.cos[p].started
    ensures var r := Step(t, e);
            && Shares(r, p) && r.cos[p].sp == t.cos[p].sp <= |MemOf(r, p).bytes| && p in t.frames
            && (if MemOf(t, p).occupant.Some?
                then MemOf(r, p).bytes[t.cos[p].sp..] == t.frames[p]
                else MemOf(r, p).bytes == MemOf(t, p).bytes)
  {
    hide Swap, Inv, Step;
    SwitchIsSwap(t, e);
    SwapRestores(Prepared(t, e), Current(t), p, e.sp);
  }

  /** What a switch leaves of a coroutine. */
  lemma SwitchLeaves(t: Thread, e: Event, c: Co)
    requires Inv(t) && Enabled(t, e) && Switches(e) && c in t.cos
    ensures var r := Step(t, e);
            && c in r.cos && r.cos[c].mem == t.cos[c].mem
            && r.cos[c].ended == (t.cos[c].ended || (e.Finish? && c == Current(t)))
            && r.cos[c].started == (t.cos[c].started || (e.Resume? && e.co == c))
            && (c != Current(t) ==> r.cos[c].sp == t.cos[c].sp && (c in r.frames <==> c in t.frames)
                                    && (c in t.frames ==> r.frames[c] == t.frames[c]))
  {
    hide Swap, Inv, Switchable, Step;
    SwitchIsSwap(t, e);
    SwapCos(Prepared(t, e), Current(t), Target(t, e), e.sp, First(t, e), c);
  }

  lemma SwitchLength(t: Thread, e: Event, m: Mem)
    requires Inv(t) && Enabled(t, e) && Switches(e) && m in t.mems
    ensures m in Step(t, e).mems && |Step(t, e).mems[m].bytes| == |t.mems[m].bytes|
  {
    hide Swap, Inv, Step;
    SwitchIsSwap(t, e);
    SwapMems(Prepared(t, e), Current(t), Target(t, e), e.sp, First(t, e), m);
  }

  /** `p` sleeps, with mark `sp` on memory `m` and contents `frame` left behind. */
  ghost predicate Asleep(t: Thread, p: Co, m: Mem, sp: nat, frame: seq<Byte>) {
    && p in t.cos && t.cos[p].started && t.cos[p].mem == Some(m) && m in t.mems
    && t.cos[p].sp == sp && p in t.frames && t.frames[p] == frame
  }

  /** Unless it is freed or reset. */
  ghost predicate AsleepIfStarted(t: Thread, p: Co, m: Mem, sp: nat, frame: seq<Byte>) {
    p in t.cos && t.cos[p].started ==> Asleep(t, p, m, sp, frame)
  }

  lemma SleepsOn(t: Thread, e: Event, p: Co, m: Mem, sp: nat, frame: seq<Byte>)
    requires Inv(t) && Enabled(t, e) && p != Current(t) && AsleepIfStarted(t, p, m, sp, frame)
    requires Step(t, e).stack != [] && Current(Step(t, e)) != p
    ensures AsleepIfStarted(Step(t, e), p, m, sp, frame)
  {
    if Switches(e) {
      hide Swap, Inv, Switchable, Step;
      SwitchIsSwap(t, e);
      SwapCos(Prepared(t, e), Current(t), Target(t, e), e.sp, First(t, e), Target(t, e));
      if p in t.cos { SwapCos(Prepared(t, e), Current(t), Target(t, e), e.sp, First(t, e), p); }
    } else if p in t.cos {
      assert CoOk(t, p);
    }
  }

  lemma {:induction false} SleepsThrough(ts: seq<Thread>, es: seq<Event>, j: nat, k: nat, p: Co, m: Mem)
    requires IsRun(ts, es) && Inv(ts[0]) && j < k <= |es| && Switches(es[j])
    requires ts[j].stack != [] && Current(ts[j]) == p && Shares(ts[j], p) && ts[j].cos[p].mem == Some(m)
    requires forall n :: j < n <= k ==> ts[n].stack != [] && Current(ts[n]) != p
    requires es[j].sp <= |MemOf(ts[j], p).bytes|
    ensures AsleepIfStarted(ts[k], p, m, es[j].sp, MemOf(ts[j], p).bytes[es[j].sp..])
  {
    RunKeepsInv(ts, es, k - 1);
    hide Inv, Step;
    if k == j + 1 {
      FallsAsleep(ts[j], es[j]);
    } else {
      SleepsThrough(ts, es, j, k - 1, p, m);
      assert ts[k] == Step(ts[k - 1], es[k - 1]);
      SleepsOn(ts[k - 1], es[k - 1], p, m, es[j].sp, MemOf(ts[j], p).bytes[es[j].sp..]);
    }
  }

  // ---------------------------------------------------------------- when a switch brings the stack back

  /** The thread with other contents in the stack memory of `p`. */
  function WithBytes(t: Thread, p: Co, bytes: seq<Byte>): Thread
    requires Shares(t, p)
  {
    t.(mems := t.mems[t.cos[p].mem.value := MemOf(t, p).(bytes := bytes)])
  }

  /** The memory of `p` may just as well hold `bytes` when `e` happens, for all the code knows. */
  ghost predicate MayHold(t: Thread, e: Event, p: Co, bytes: seq<Byte>)
    requires Shares(t, p)
  {
    |bytes| == |MemOf(t, p).bytes| && Inv(WithBytes(t, p, bytes)) && Enabled(WithBytes(t, p, bytes), e)
  }

  /** The switch `e` to `p` lets it find `left` from its stack mark on. */
  ghost predicate Finds(t: Thread, e: Event, p: Co, left: seq<Byte>)
    requires Inv(t) && Enabled(t, e) && Shares(t, p)
  {
    var r := Step(t, e);
    Shares(r, p) && t.cos[p].sp <= |MemOf(r, p).bytes| && MemOf(r, p).bytes[t.cos[p].sp..] == left
  }

  /** A switch to `p` brings back what `p` left, whatever the memory holds by then, exactly if the
      memory has an occupant, or `p` left nothing. */
  lemma SwitchRestoresIff(t: Thread, e: Event, p: Co)
    requires Inv(t) && Enabled(t, e) && Switches(e) && Target(t, e) == p && Shares(t, p) && t.cos[p].started
    ensures p in t.frames
    ensures MemOf(t, p).occupant.Some? || t.frames[p] == [] <==>
            forall bytes :: MayHold(t, e, p, bytes) ==> Finds(WithBytes(t, p, bytes), e, p, t.frames[p])
  {
    NextIsHeld(t, e, p);
    hide Inv, Enabled, Step, Held;
    if MemOf(t, p).occupant.Some? || t.frames[p] == [] {
      forall bytes | MayHold(t, e, p, bytes) ensures Finds(WithBytes(t, p, bytes), e, p, t.frames[p]) {
        SameTarget(t, e, p, bytes);
        WakesUp(WithBytes(t, p, bytes), e, p);
      }
    } else {
      OtherContents(t, e, p);
    }
  }

  lemma NextIsHeld(t: Thread, e: Event, p: Co)
    requires Inv(t) && Enabled(t, e) && Switches(e) && Target(t, e) == p && Shares(t, p) && t.cos[p].started
    ensures p in t.frames && t.cos[p].sp + |t.frames[p]| == |MemOf(t, p).bytes| && p != Current(t)
  {
    assert CoOk(t, p);
  }

  lemma SameTarget(t: Thread, e: Event, p: Co, bytes: seq<Byte>)
    requires Enabled(t, e) && Switches(e) && Shares(t, p) && MayHold(t, e, p, bytes)
    ensures Target(WithBytes(t, p, bytes), e) == Target(t, e)
  {
  }

  /** Nobody relies on the contents of a memory without an occupant. */
  lemma UnoccupiedIsFree(t: Thread, e: Event, p: Co, bytes: seq<Byte>)
    requires Inv(t) && Enabled(t, e) && Switches(e) && Shares(t, p) && MemOf(t, p).occupant == None
    requires |bytes| == |MemOf(t, p).bytes|
    ensures MayHold(t, e, p, bytes)
  {
    var u := WithBytes(t, p, bytes);
    forall x | x in u.cos ensures CoOk(u, x) { assert CoOk(t, x); }
    forall m | m in u.mems ensures MemOk(u, m) { assert MemOk(t, m); }
  }

  /** Contents of an unoccupied memory with which `p` does not find what it left. */
  lemma OtherContents(t: Thread, e: Event, p: Co)
    requires Inv(t) && Enabled(t, e) && Switches(e) && Target(t, e) == p && Shares(t, p) && t.cos[p].started
    requires MemOf(t, p).occupant == None && p in t.frames && t.frames[p] != []
    ensures exists bytes :: MayHold(t, e, p, bytes) && !Finds(WithBytes(t, p, bytes), e, p, t.frames[p])
  {
    NextIsHeld(t, e, p);
    hide Inv, Enabled, Step;
    var sp := t.cos[p].sp;
    var bytes := MemOf(t, p).bytes[sp := t.frames[p][0] + 1];
    UnoccupiedIsFree(t, e, p, bytes);
    SameTarget(t, e, p, bytes);
    WakesUp(WithBytes(t, p, bytes), e, p);
    assert bytes[sp..][0] != t.frames[p][0];
  }

  /** In every run: a coroutine on a shared stack that was switched out by event `j` and is
      switched to again by event `i` is sure to find the bytes from its stack mark on as they
      were -- whatever the memory holds by then -- if and only if the memory has an occupant, or
      there were no such bytes. */
  lemma StackPreservedIff(ts: seq<Thread>, es: seq<Event>, j: nat, i: nat, p: Co)
    requires IsRun(ts, es) && Inv(ts[0]) && j < i < |es| && Switches(es[j]) && Switches(es[i])
    requires ts[j].stack != [] && Current(ts[j]) == p && Shares(ts[j], p) && es[j].sp <= |MemOf(ts[j], p).bytes|
    requires forall n :: j < n <= i ==> ts[n].stack != [] && Current(ts[n]) != p
    requires Target(ts[i], es[i]) == p && p in ts[i].cos && ts[i].cos[p].started
    ensures Shares(ts[i], p) && ts[i].cos[p].sp == es[j].sp
    ensures var left := MemOf(ts[j], p).bytes[es[j].sp..];
            MemOf(ts[i], p).occupant.Some? || left == [] <==>
            forall bytes :: MayHold(ts[i], es[i], p, bytes) ==> Finds(WithBytes(ts[i], p, bytes), es[i], p, left)
  {
    SleepsThrough(ts, es, j, i, p, ts[j].cos[p].mem.value);
    RunKeepsInv(ts, es, i);
    hide Inv, Step;
    SwitchRestoresIff(ts[i], es[i], p);
  }

  /** With an occupant, the coroutine finds them. */
  lemma FoundIfOccupied(ts: seq<Thread>, es: seq<Event>, j: nat, i: nat, p: Co)
    requires IsRun(ts, es) && Inv(ts[0]) && j < i < |es| && Switches(es[j]) && Switches(es[i])
    requires ts[j].stack != [] && Current(ts[j]) == p && Shares(ts[j], p) && es[j].sp <= |MemOf(ts[j], p).bytes|
    requires forall n :: j < n <= i ==> ts[n].stack != [] && Current(ts[n]) != p
    requires Target(ts[i], es[i]) == p && p in ts[i].cos && ts[i].cos[p].started
    requires Shares(ts[i], p) ==> MemOf(ts[i], p).occupant.Some?
    ensures Shares(ts[i + 1], p) && es[j].sp <= |MemOf(ts[i + 1], p).bytes|
    ensures MemOf(ts[i + 1], p).bytes[es[j].sp..] == MemOf(ts[j], p).bytes[es[j].sp..]
  {
    SleepsThrough(ts, es, j, i, p, ts[j].cos[p].mem.value);
    RunKeepsInv(ts, es, i);
    hide Inv, Step;
    assert ts[i + 1] == Step(ts[i], es[i]);
    WakesUp(ts[i], es[i], p);
  }

  // ---------------------------------------------------------------- runs that keep their occupants

  /** Every memory with a started coroutine has an occupant. */
  ghost predicate Occupied(t: Thread) {
    forall co :: Shares(t, co) && t.cos[co].started ==> MemOf(t, co).occupant.Some?
  }

  /** The event does not free or reset the occupant of a stack memory. */
  predicate SparesOccupants(t: Thread, e: Event) {
    e.Free? || e.Reset? ==> Shares(t, e.co) ==> MemOf(t, e.co).occupant != Some(e.co)
  }

  lemma StaysOccupied(t: Thread, e: Event)
    requires Inv(t) && Enabled(t, e) && Occupied(t) && SparesOccupants(t, e)
    ensures Occupied(Step(t, e))
  {
    var r := Step(t, e);
    forall co | Shares(r, co) && r.cos[co].started ensures MemOf(r, co).occupant.Some? {
      if Switches(e) {
        SwitchOccupies(t, e, co);
      } else {
        assert Shares(t, co);
      }
    }
  }

  lemma SwitchOccupies(t: Thread, e: Event, co: Co)
    requires Inv(t) && Enabled(t, e) && Switches(e) && Occupied(t)
    requires Shares(Step(t, e), co) && Step(t, e).cos[co].started
    ensures MemOf(Step(t, e), co).occupant.Some?
  {
    hide Swap, Inv, Step;
    SwitchIsSwap(t, e);
    var u, next := Prepared(t, e), Target(t, e);
    SwapCos(u, Current(t), next, e.sp, First(t, e), next);
    assert co in Step(t, e).cos.Keys;
    SwapCos(u, Current(t), next, e.sp, First(t, e), co);
    SwapMems(u, Current(t), next, e.sp, First(t, e), u.cos[co].mem.value);
    if co != next { assert Shares(t, co) && t.cos[co].started; }
  }

  lemma {:induction false} RunStaysOccupied(ts: seq<Thread>, es: seq<Event>, n: nat)
    requires IsRun(ts, es) && Inv(ts[0]) && Occupied(ts[0]) && n <= |es|
    requires forall i :: 0 <= i < n ==> SparesOccupants(ts[i], es[i])
    ensures Occupied(ts[n])
  {
    hide Step, Occupied, Enabled;
    if n > 0 {
      RunStaysOccupied(ts, es, n - 1);
      RunKeepsInv(ts, es, n - 1);
      StaysOccupied(ts[n - 1], es[n - 1]);
    }
  }

  /** In every run from the start that frees and resets no current occupant, stack contents are
      always preserved. */
  lemma StackPreserved(ts: seq<Thread>, es: seq<Event>, main: Co, mems: map<Mem, StackMem>, j: nat, i: nat, p: Co)
    requires IsRun(ts, es) && ts[0] == Init(main, mems) && forall m :: m in mems ==> mems[m].occupant == None
    requires forall k :: 0 <= k < |es| ==> SparesOccupants(ts[k], es[k])
    requires j < i < |es| && Switches(es[j]) && Switches(es[i])
    requires ts[j].stack != [] && Current(ts[j]) == p && Shares(ts[j], p) && es[j].sp <= |MemOf(ts[j], p).bytes|
    requires forall n :: j < n <= i ==> ts[n].stack != [] && Current(ts[n]) != p
    requires Target(ts[i], es[i]) == p && p in ts[i].cos && ts[i].cos[p].started
    ensures Shares(ts[i + 1], p) && es[j].sp <= |MemOf(ts[i + 1], p).bytes|
    ensures MemOf(ts[i + 1], p).bytes[es[j].sp..] == MemOf(ts[j], p).bytes[es[j].sp..]
  {
    InitInv(main, mems);
    RunStaysOccupied(ts, es, i);
    hide Inv, Step, IsRun;
    FoundIfOccupied(ts, es, j, i, p);
  }

  // ---------------------------------------------------------------- a run that loses a stack

  const MAIN := Coroutine(false, false, None, 0, None)

  function Sharer(started: bool, save: Option<seq<Byte>>): Coroutine {
    Coroutine(started, false, Some(0), 0, save)
  }

  /** The threads of the run below, from the first switch on. */
  function Losing(n: nat, a: Byte, b: Byte): Thread {
    var cos := map[0 := MAIN, 1 := Sharer(true, None), 2 := Sharer(false, None)];
    var saved := map[0 := MAIN, 1 := Sharer(true, Some([a])), 2 := Sharer(true, None)];
    if n == 0 then Thread([0], map[0 := MAIN], map[0 := StackMem(None, [a])], map[])
    else if n == 1 then Thread([0], map[0 := MAIN, 1 := Sharer(false, None)], map[0 := StackMem(None, [a])], map[])
    else if n == 2 then Thread([0], cos[1 := Sharer(false, None)], map[0 := StackMem(None, [a])], map[])
    else if n == 3 then Thread([0, 1], cos, map[0 := StackMem(Some(1), [a])], map[])
    else if n == 4 then Thread([0], cos, map[0 := StackMem(Some(1), [a])], map[1 := [a]])
    else if n == 5 then Thread([0, 2], saved, map[0 := StackMem(Some(2), [a])], map[1 := [a]])
    else if n == 6 then Thread([0, 2], saved, map[0 := StackMem(Some(2), [b])], map[1 := [a]])
    else if n == 7 then Thread([0], saved, map[0 := StackMem(Some(2), [b])], map[1 := [a], 2 := [b]])
    else if n == 8 then Thread([0], saved - {2}, map[0 := StackMem(None, [b])], map[1 := [a]])
    else Thread([0, 1], saved - {2}, map[0 := StackMem(Some(1), [b])], map[1 := [a]])
  }

  function LosingEvent(n: nat, b: Byte): Event {
    [Create(1, Some(0)), Create(2, Some(0)), Resume(1, 0), Yield(0), Resume(2, 0), Write([b]), Yield(0), Free(2),
     Resume(1, 0)][if n < 9 then n else 8]
  }

  ghost predicate LosingStep(n: nat, a: Byte, b: Byte) {
    var t, e := Losing(n, a, b), LosingEvent(n, b);
    Enabled(t, e) && (Inv(t) ==> Step(t, e) == Losing(n + 1, a, b))
  }

  lemma LosingSetup(n: nat, a: Byte, b: Byte)
    requires (n == 0 || n == 1 || n == 5) && Inv(Losing(n, a, b))
    ensures LosingStep(n, a, b)
  {
    hide Inv;
    var s, r := Step(Losing(n, a, b), LosingEvent(n, b)), Losing(n + 1, a, b);
    assert s.stack == r.stack && s.cos == r.cos && s.mems == r.mems && s.frames == r.frames;
  }

  lemma LosingYields(n: nat, a: Byte, b: Byte)
    requires (n == 3 || n == 6) && Inv(Losing(n, a, b))
    ensures LosingStep(n, a, b)
  {
    hide Inv;
    var s, r := Step(Losing(n, a, b), LosingEvent(n, b)), Losing(n + 1, a, b);
    assert s.stack == r.stack && s.cos == r.cos && s.mems == r.mems && s.frames == r.frames;
  }

  lemma LosingFirstResume(n: nat, a: Byte, b: Byte)
    requires n == 2 && Inv(Losing(n, a, b))
    ensures LosingStep(n, a, b)
  {
    hide Inv;
    var s, r := Step(Losing(n, a, b), LosingEvent(n, b)), Losing(n + 1, a, b);
    assert s.stack == r.stack && s.cos == r.cos && s.mems == r.mems && s.frames == r.frames;
  }

  lemma LosingSecondResume(n: nat, a: Byte, b: Byte)
    requires n == 4 && Inv(Losing(n, a, b))
    ensures LosingStep(n, a, b)
  {
    hide Inv;
    var s, r := Step(Losing(n, a, b), LosingEvent(n, b)), Losing(n + 1, a, b);
    assert s.stack == r.stack && s.cos == r.cos && s.mems == r.mems && s.frames == r.frames;
  }

  lemma LosingFree(n: nat, a: Byte, b: Byte)
    requires n == 7 && Inv(Losing(n, a, b))
    ensures LosingStep(n, a, b)
  {
    hide Inv;
    var s, r := Step(Losing(n, a, b), LosingEvent(n, b)), Losing(n + 1, a, b);
    assert s.stack == r.stack && s.cos == r.cos && s.mems == r.mems && s.frames == r.frames;
  }

  lemma LosingEnd(n: nat, a: Byte, b: Byte)
    requires n == 8 && Inv(Losing(n, a, b))
    ensures LosingStep(n, a, b)
  {
    hide Inv;
    var s, r := Step(Losing(n, a, b), LosingEvent(n, b)), Losing(n + 1, a, b);
    assert s.stack == r.stack && s.cos == r.cos && s.mems == r.mems && s.frames == r.frames;
  }

  lemma {:induction false} LosingSteps(n: nat, a: Byte, b: Byte)
    requires n <= 9
    ensures Inv(Losing(n, a, b)) && forall i :: 0 <= i < n ==> LosingStep(i, a, b)
  {
    hide Inv, Step, Enabled;
    if n == 0 {
      InitInv(0, map[0 := StackMem(None, [a])]);
      assert Losing(0, a, b) == Init(0, map[0 := StackMem(None, [a])]);
    } else {
      var i := n - 1;
      LosingSteps(i, a, b);
      if i == 0 || i == 1 || i == 5 { LosingSetup(i, a, b); }
      else if i == 3 || i == 6 { LosingYields(i, a, b); }
      else if i == 2 { LosingFirstResume(i, a, b); }
      else if i == 4 { LosingSecondResume(i, a, b); }
      else if i == 7 { LosingFree(i, a, b); }
      else { LosingEnd(i, a, b); }
      StepKeepsInv(Losing(i, a, b), LosingEvent(i, b));
    }
  }

  /** Coroutines 1 and 2 share memory 0; 2 takes it over from 1, is switched out and freed, and 1
      is resumed: where it left `a` it finds what 2 left there. */
  lemma FreedOccupantLosesStack(a: Byte, b: Byte) returns (ts: seq<Thread>, es: seq<Event>)
    ensures IsRun(ts, es) && ts[0] == Init(0, map[0 := StackMem(None, [a])]) && |es| == 9
    ensures es[3] == Yield(0) && ts[3].stack != [] && Current(ts[3]) == 1
    ensures Shares(ts[3], 1) && MemOf(ts[3], 1).bytes == [a]
    ensures es[8] == Resume(1, 0) && ts[9].stack != [] && Current(ts[9]) == 1
    ensures Shares(ts[9], 1) && MemOf(ts[9], 1).bytes == [b]
  {
    hide Inv, Step, Enabled;
    LosingSteps(9, a, b);
    ts := seq(10, i requires 0 <= i => Losing(i, a, b));
    es := seq(9, i requires 0 <= i => LosingEvent(i, b));
    forall i | 0 <= i < |es| ensures Enabled(ts[i], es[i]) && (Inv(ts[i]) ==> ts[i + 1] == Step(ts[i], es[i])) {
      assert LosingStep(i, a, b);
    }
  }

  // ---------------------------------------------------------------- the call stack

  /** A step changes the call stack only at its end. */
  lemma StackStep(t: Thread, e: Event)
    requires Inv(t) && Enabled(t, e)
    ensures Step(t, e).stack == match e
                                case Resume(co, _) => t.stack + [co]
                                case Yield(_) => t.stack[..|t.stack| - 1]
                                case Finish(_) => t.stack[..|t.stack| - 1]
                                case _ => t.stack
  {
    if Switches(e) {
      hide Swap, Inv, Step;
      SwitchIsSwap(t, e);
      SwapCos(Prepared(t, e), Current(t), Target(t, e), e.sp, First(t, e), Target(t, e));
    }
  }

  /** As long as a run stays above depth `n`, the lowest `n` entries stay. */
  lemma {:induction false} LowerEntriesStay(ts: seq<Thread>, es: seq<Event>, j: nat, k: nat, n: nat)
    requires IsRun(ts, es) && Inv(ts[0]) && j <= k <= |es|
    requires forall i :: j <= i <= k ==> |ts[i].stack| >= n
    ensures ts[k].stack[..n] == ts[j].stack[..n]
  {
    if j < k {
      hide Inv, Step, Enabled;
      LowerEntriesStay(ts, es, j, k - 1, n);
      RunKeepsInv(ts, es, k - 1);
      StackStep(ts[k - 1], es[k - 1]);
      assert ts[k].stack[..n] == ts[k - 1].stack[..n];
    }
  }

  /** In every state of every run from the start the entries of the call stack are distinct, at
      most 128, with the main coroutine at the bottom. */
  lemma CallStackIsProper(ts: seq<Thread>, es: seq<Event>, main: Co, mems: map<Mem, StackMem>, k: nat)
    requires IsRun(ts, es) && ts[0] == Init(main, mems) && forall m :: m in mems ==> mems[m].occupant == None
    requires k <= |es|
    ensures ts[k].stack != [] && ts[k].stack[0] == main && NoDup(ts[k].stack) && |ts[k].stack| <= CALL_STACK_SIZE
  {
    InitInv(main, mems);
    forall i | 0 <= i <= k ensures |ts[i].stack| >= 1 { RunKeepsInv(ts, es, i); }
    RunKeepsInv(ts, es, k);
    LowerEntriesStay(ts, es, 0, k, 1);
    assert ts[k].stack[0] == ts[k].stack[..1][0];
  }

  /** Call-stack discipline, in every run from the start: when activity that began by resuming a
      coroutine has come back to the old depth, control is with the resumer, on the old stack. */
  lemma CallStackDiscipline(ts: seq<Thread>, es: seq<Event>, main: Co, mems: map<Mem, StackMem>, j: nat, i: nat)
    requires IsRun(ts, es) && ts[0] == Init(main, mems) && forall m :: m in mems ==> mems[m].occupant == None
    requires j < i <= |es| && es[j].Resume? && |ts[i].stack| == |ts[j].stack|
    requires forall k :: j < k < i ==> |ts[k].stack| > |ts[j].stack|
    ensures ts[i].stack == ts[j].stack != [] && Current(ts[i]) == Current(ts[j])
    ensures ts[i].stack[0] == main && NoDup(ts[i].stack) && |ts[i].stack| <= CALL_STACK_SIZE
  {
    InitInv(main, mems);
    RunKeepsInv(ts, es, j);
    LowerEntriesStay(ts, es, j, i, |ts[j].stack|);
    CallStackIsProper(ts, es, main, mems, i);
  }
}
