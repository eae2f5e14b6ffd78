/** The program of libco/example_copystack.cpp: coroutines on one shared stack take turns, and
    each of them finds the buffer on its stack as it left it. */
module CopyStack {
  import opened Wrappers
  import opened CoSwitch
  import opened CoRuns
  import opened CoObjects
  import opened TrackedThread

  /** Coroutines 1 to |ids| run on shared stack 0, of `size` bytes, or sleep with their stack mark
      at `sp`; those that have run hold their own id at position `at`. */
  ghost predicate TakingTurns(t: Thread, size: nat, sp: nat, at: nat, ids: seq<Byte>) {
    && 0 in t.mems && |t.mems[0].bytes| == size && 0 in t.cos && t.cos[0].mem == None
    && forall c :: 1 <= c <= |ids| ==> Sleeper(t, c, sp, at, ids)
  }

  ghost predicate Sleeper(t: Thread, c: Co, sp: nat, at: nat, ids: seq<Byte>)
    requires 1 <= c <= |ids|
  {
    && c in t.cos && t.cos[c].mem == Some(0) && !t.cos[c].ended
    && (t.cos[c].started && t.stack != [] && c != Current(t) ==>
          && t.cos[c].sp == sp && c in t.frames
          && sp <= at < sp + |t.frames[c]| && t.frames[c][at - sp] == ids[c - 1])
  }

  lemma TurnBegins(t: Thread, c: Co, size: nat, sp: nat, at: nat, ids: seq<Byte>)
    requires Inv(t) && t.stack == [0] && TakingTurns(t, size, sp, at, ids) && 1 <= c <= |ids| && Occupied(t)
    ensures var e := Resume(c, 0);
            && Enabled(t, e) && Step(t, e).stack == [0, c] && TakingTurns(Step(t, e), size, sp, at, ids)
            && Occupied(Step(t, e))
            && (t.cos[c].started ==> at < size && Step(t, e).mems[0].bytes[at] == ids[c - 1])
  {
    assert Sleeper(t, c, sp, at, ids) && SpOk(t, Current(t), 0);
    var e := Resume(c, 0);
    var r := Step(t, e);
    hide Inv, Step;
    StaysOccupied(t, e);
    StackStep(t, e);
    SwitchLength(t, e, 0);
    SwitchLeaves(t, e, 0);
    forall x | 1 <= x <= |ids| ensures Sleeper(r, x, sp, at, ids) {
      assert Sleeper(t, x, sp, at, ids);
      SwitchLeaves(t, e, x);
    }
    if t.cos[c].started {
      WakesUp(t, e, c);
      assert Shares(t, c) && r.cos[c].mem == Some(0);
      assert r.mems[0].bytes[at] == r.mems[0].bytes[sp..][at - sp];
    }
  }

  lemma TurnEnds(t: Thread, c: Co, size: nat, sp: nat, at: nat, ids: seq<Byte>)
    requires Inv(t) && t.stack == [0, c] && TakingTurns(t, size, sp, at, ids) && 1 <= c <= |ids| && Occupied(t)
    requires sp <= at < size && t.mems[0].bytes[at] == ids[c - 1]
    ensures var e := Yield(sp);
            && Enabled(t, e) && Step(t, e).stack == [0] && TakingTurns(Step(t, e), size, sp, at, ids)
            && Occupied(Step(t, e))
  {
    assert Sleeper(t, c, sp, at, ids) && SpOk(t, Current(t), sp);
    var e := Yield(sp);
    var r := Step(t, e);
    hide Inv, Step;
    StaysOccupied(t, e);
    StackStep(t, e);
    SwitchLength(t, e, 0);
    SwitchLeaves(t, e, 0);
    FallsAsleep(t, e);
    forall x | 1 <= x <= |ids| ensures Sleeper(r, x, sp, at, ids) {
      assert Sleeper(t, x, sp, at, ids);
      SwitchLeaves(t, e, x);
    }
  }

  lemma WritesOwnId(t: Thread, c: Co, size: nat, sp: nat, at: nat, ids: seq<Byte>)
    requires Inv(t) && t.stack == [0, c] && TakingTurns(t, size, sp, at, ids) && 1 <= c <= |ids| && Occupied(t)
    requires sp <= at < size
    ensures Shares(t, c) && t.cos[c].mem == Some(0)
    ensures var e := Write(t.mems[0].bytes[at := ids[c - 1]]);
            && Enabled(t, e) && Step(t, e).stack == [0, c] && TakingTurns(Step(t, e), size, sp, at, ids)
            && Occupied(Step(t, e)) && Step(t, e).mems[0].bytes[at] == ids[c - 1]
  {
    assert Sleeper(t, c, sp, at, ids);
    var e := Write(t.mems[0].bytes[at := ids[c - 1]]);
    var r := Step(t, e);
    StaysOccupied(t, e);
    forall x | 1 <= x <= |ids| ensures Sleeper(r, x, sp, at, ids) {
      assert Sleeper(t, x, sp, at, ids);
    }
  }

  /** The thread runs its own coroutine, and the others sleep on `mem`. */
  ghost predicate Resting(th: CoThread, mem: StackMemory, sp: nat, at: nat, ids: seq<Byte>)
    reads th, th.env, CoSet(th.cast), Saves(th.cast), MemSet(th.cast), Buffers(th.cast)
  {
    && th.Valid() && th.cast.mems == map[0 := mem] && th.T().stack == [0] && Occupied(th.T())
    && TakingTurns(th.T(), mem.buffer.Length, sp, at, ids)
  }

  lemma RestingIs(th: CoThread, mem: StackMemory, sp: nat, at: nat, ids: seq<Byte>)
    requires Resting(th, mem, sp, at, ids)
    ensures |th.ts| > 0 && 0 in th.cast.cos
  {
    KeysAgree(th.cast, th.T());
  }

  lemma Objects(th: CoThread, mem: StackMemory, c: Co, sp: nat, at: nat, ids: seq<Byte>)
    requires th.Valid() && th.cast.mems == map[0 := mem] && c in th.cast.cos && c <= |ids|
    requires TakingTurns(th.T(), mem.buffer.Length, sp, at, ids)
    ensures |th.ts| > 0 && Inv(th.T()) && c in th.T().cos
    ensures 0 in th.T().mems && mem.buffer[..] == th.T().mems[0].bytes
    ensures th.T().cos[c].started == th.cast.cos[c].started
    ensures th.cast.cos[c].isShareStack == th.T().cos[c].mem.Some?
    ensures th.cast.cos[c].isShareStack ==> th.cast.cos[c].stackMem == mem
    ensures th.cast.cos[c].Displaced() <= CoSet(th.cast)
    ensures |th.env.callStack| == |th.T().stack|
    ensures forall i :: 0 <= i < |th.T().stack| ==>
              th.T().stack[i] in th.cast.cos && th.env.callStack[i] == th.cast.cos[th.T().stack[i]]
  {
    hide Inv, IsRun, Describes;
    DescribedCo(th.cast, th.T(), c);
    DescribedMem(th.cast, th.T(), 0);
    assert c > 0 ==> Sleeper(th.T(), c, sp, at, ids);
  }

  /** The running coroutine fills its buffer and yields. */
  method FillAndYield(th: CoThread, mem: StackMemory, sp: nat, at: nat, id: Byte, ghost c: Co, ghost ids: seq<Byte>)
    requires th.Valid() && th.cast.mems == map[0 := mem] && th.T().stack == [0, c] && Occupied(th.T())
    requires TakingTurns(th.T(), mem.buffer.Length, sp, at, ids) && sp <= at < mem.buffer.Length
    requires 1 <= c <= |ids| && ids[c - 1] == id && c in th.cast.cos && 0 in th.cast.cos
    modifies th, th.env, CoSet(th.cast), mem, mem.buffer
    ensures Resting(th, mem, sp, at, ids) && th.cast == old(th.cast)
  {
    hide Inv, Step, Describes, IsRun, Enabled, CoThread.Valid, CoSet;
    ghost var size := mem.buffer.Length;
    Objects(th, mem, c, sp, at, ids);
    WritesOwnId(th.T(), c, size, sp, at, ids);
    th.Write(at, id);
    Objects(th, mem, 0, sp, at, ids);
    TurnEnds(th.T(), c, size, sp, at, ids);
    th.Yield(sp);
  }

  /** A coroutine is resumed, looks at the buffer on its stack unless it runs for the first time,
      fills it, and yields. */
  method Turn(th: CoThread, co: CoRoutine, mem: StackMemory, sp: nat, at: nat, id: Byte,
              ghost c: Co, ghost ids: seq<Byte>)
    returns (found: bool)
    requires Resting(th, mem, sp, at, ids) && sp <= at < mem.buffer.Length
    requires 1 <= c <= |ids| && ids[c - 1] == id && c in th.cast.cos && th.cast.cos[c] == co
    modifies th, th.env, CoSet(th.cast), mem, mem.buffer
    ensures Resting(th, mem, sp, at, ids) && th.cast == old(th.cast) && found
  {
    hide Inv, Step, Describes, IsRun, Enabled, CoThread.Valid, CoSet;
    RestingIs(th, mem, sp, at, ids);
    var before := co.started;
    Objects(th, mem, c, sp, at, ids);
    TurnBegins(th.T(), c, mem.buffer.Length, sp, at, ids);
    th.Resume(co, 0, c);
    Objects(th, mem, c, sp, at, ids);
    found := before ==> mem.buffer[at] == id;
    FillAndYield(th, mem, sp, at, id, c, ids);
  }

  lemma OneMore(t: Thread, size: nat, sp: nat, at: nat, ids: seq<Byte>, n: nat)
    requires n < |ids| && Inv(t) && t.stack == [0] && TakingTurns(t, size, sp, at, ids[..n]) && Occupied(t)
    requires n + 1 !in t.cos
    ensures var e := Create(n + 1, Some(0));
            && Enabled(t, e) && Step(t, e).stack == [0] && TakingTurns(Step(t, e), size, sp, at, ids[..n + 1])
            && Occupied(Step(t, e))
  {
    var e := Create(n + 1, Some(0));
    var r, more := Step(t, e), ids[..n + 1];
    StaysOccupied(t, e);
    forall x | 1 <= x <= |more| ensures Sleeper(r, x, sp, at, more) {
      if x <= n { assert Sleeper(t, x, sp, at, ids[..n]); }
    }
  }

  method Begin(th: CoThread, mem: StackMemory, sp: nat, at: nat, ghost ids: seq<Byte>, ghost n: nat)
    returns (co: CoRoutine)
    requires n < |ids| && Resting(th, mem, sp, at, ids[..n]) && n + 1 !in th.cast.cos
    modifies th
    ensures Resting(th, mem, sp, at, ids[..n + 1]) && fresh(co)
    ensures th.cast == old(th.cast).(cos := old(th.cast.cos)[n + 1 := co], memOf := old(th.cast.memOf)[n + 1 := Some(0)])
  {
    hide Inv, Step, Describes, IsRun, Enabled, CoSet;
    KeysAgree(th.cast, th.T());
    OneMore(th.T(), mem.buffer.Length, sp, at, ids, n);
    co := th.Create(true, mem, n + 1, Some(0));
  }

  /** A thread with one shared stack and nobody on it. */
  method NewThread(size: nat, ghost sp: nat, ghost at: nat) returns (th: CoThread, mem: StackMemory)
    ensures fresh(th) && fresh(th.env) && fresh(mem) && fresh(mem.buffer) && mem.buffer.Length == size
    ensures Resting(th, mem, sp, at, []) && th.cast.cos.Keys == {0} && fresh(th.cast.cos[0])
  {
    hide Inv, Describes, IsRun, CoSet;
    var own := new StackMemory(0);
    mem := new StackMemory(size);
    var main := new CoRoutine(false, own);
    th := new CoThread(main, 0, map[0 := mem]);
  }

  /** Coroutine `c` of the thread is `cos[c - 1]`, and there are no others but the thread's own. */
  ghost predicate Staffed(all: map<Co, CoRoutine>, cos: seq<CoRoutine>) {
    && (forall c :: c in all ==> c <= |cos|)
    && (forall c :: 1 <= c <= |cos| ==> c in all && all[c] == cos[c - 1])
  }

  lemma StaffGrows(all: map<Co, CoRoutine>, cos: seq<CoRoutine>, co: CoRoutine)
    requires Staffed(all, cos)
    ensures Staffed(all[|cos| + 1 := co], cos + [co])
  {
  }

  /** The program: every coroutine is created and resumed, and then they take turns; whenever one
      of them runs again, it finds what it left on its stack. */
  method Example(size: nat, sp: nat, at: nat, ids: seq<Byte>, rounds: nat) returns (found: bool)
    requires sp <= at < size
    ensures found
  {
    hide Resting;
    var th, mem := NewThread(size, sp, at);
    var cos: seq<CoRoutine> := [];
    found := true;
    assert ids[..0] == [];
    for i := 0 to |ids|
      invariant Resting(th, mem, sp, at, ids[..i]) && Staffed(th.cast.cos, cos) && |cos| == i && found
      invariant forall c :: c in th.cast.cos ==> fresh(th.cast.cos[c])
    {
      ghost var all := th.cast.cos;
      var co := Begin(th, mem, sp, at, ids, i);
      StaffGrows(all, cos, co);
      cos := cos + [co];
      var ok := Turn(th, co, mem, sp, at, ids[i], i + 1, ids[..i + 1]);
      found := found && ok;
    }
    assert ids[..|ids|] == ids;
    for r := 0 to rounds
      invariant Resting(th, mem, sp, at, ids) && Staffed(th.cast.cos, cos) && |cos| == |ids| && found
      invariant forall c :: c in th.cast.cos ==> fresh(th.cast.cos[c])
    {
      for k := 0 to |ids|
        invariant Resting(th, mem, sp, at, ids) && Staffed(th.cast.cos, cos) && found
        invariant forall c :: c in th.cast.cos ==> fresh(th.cast.cos[c])
      {
        var ok := Turn(th, cos[k], mem, sp, at, ids[k], k + 1, ids);
        found := found && ok;
      }
    }
  }
}
