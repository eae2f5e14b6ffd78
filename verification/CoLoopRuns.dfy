/** What the runs of the scheduler say about a thread with its event loop: leaving out what does not
    concern the scheduler, a run of both machines is a run of the scheduler. */
module CoLoopRuns {
  import opened Wrappers
  import opened CoLoop
  import opened CoLoopStacks
  import S = Scheduler
  import SR = SchedulerRuns
  import SP = SchedulerPolls
  import D = SchedulerPlain
  import C = CoSwitch
  import R = CoRuns

  /** The step of the scheduler that a move makes. */
  function LabelOf(v: Move): Option<S.Label> {
    match v
    case Sleep(l, _) => Some(l)
    case Wake(_) => Some(S.Drain)
    case Loop(l) => Some(l)
    case Call(l) => Some(l)
    case Own(_) => None
  }

  lemma SchedOf(base: seq<C.Co>, m: Machine, v: Move)
    requires Inv(base, m) && Possible(base, m, v)
    ensures match LabelOf(v)
            case None => Do(base, m, v).sched == m.sched
            case Some(l) =>
              S.Enabled(m.sched, l) && S.GoodClock(m.sched, l) && Do(base, m, v).sched == S.Step(m.sched, l)
  {
    if v.Wake? { NextCanBeResumed(base, m, v.sp); }
    hide SR.Inv, C.Inv, C.Step, S.Step;
  }

  function Labels(vs: seq<Move>): seq<S.Label> {
    if vs == [] then []
    else
      var l := LabelOf(vs[|vs| - 1]);
      Labels(vs[..|vs| - 1]) + if l.Some? then [l.value] else []
  }

  function States(ms: seq<Machine>, vs: seq<Move>): seq<S.State>
    requires |ms| == |vs| + 1
  {
    if vs == [] then [ms[0].sched]
    else States(ms[..|vs|], vs[..|vs| - 1]) + if LabelOf(vs[|vs| - 1]).Some? then [ms[|vs|].sched] else []
  }

  lemma {:induction false} LabelsAppend(a: seq<Move>, b: seq<Move>)
    ensures Labels(a + b) == Labels(a) + Labels(b)
  {
    if b == [] {
      assert a + b == a;
    } else {
      var n := |b| - 1;
      LabelsAppend(a, b[..n]);
      assert (a + b)[..|a + b| - 1] == a + b[..n];
    }
  }

  lemma {:induction false} FromMoves(vs: seq<Move>, l: S.Label)
    requires l in Labels(vs)
    ensures exists j :: 0 <= j < |vs| && LabelOf(vs[j]) == Some(l)
  {
    var n := |vs| - 1;
    if l in Labels(vs[..n]) {
      FromMoves(vs[..n], l);
      var j :| 0 <= j < n && LabelOf(vs[..n][j]) == Some(l);
      assert vs[j] == vs[..n][j];
    } else {
      assert LabelOf(vs[n]) == Some(l);
    }
  }

  /** The scheduler's part of a run is a run of the scheduler. */
  lemma {:induction false} IsSchedulerRun(base: seq<C.Co>, ms: seq<Machine>, vs: seq<Move>)
    requires IsRun(base, ms, vs) && Inv(base, ms[0])
    ensures |States(ms, vs)| == |Labels(vs)| + 1 && S.IsRun(States(ms, vs), Labels(vs))
    ensures States(ms, vs)[0] == ms[0].sched && States(ms, vs)[|Labels(vs)|] == ms[|vs|].sched
  {
    hide Inv, Possible, Do, S.Step, S.Enabled, S.GoodClock;
    if vs != [] {
      var n := |vs| - 1;
      RunStep(base, ms, vs, n);
      SchedOf(base, ms[n], vs[n]);
      assert IsRun(base, ms[..n + 1], vs[..n]);
      IsSchedulerRun(base, ms[..n + 1], vs[..n]);
    }
  }

  /** A stretch of a run is a run. */
  lemma PartIsRun(base: seq<C.Co>, ms: seq<Machine>, vs: seq<Move>, i: nat, j: nat)
    requires IsRun(base, ms, vs) && i <= j <= |vs|
    ensures |ms| == |vs| + 1 && IsRun(base, ms[i..j + 1], vs[i..j])
  {
    hide Inv, Possible, Do;
  }

  lemma OneLabel(v: Move)
    requires LabelOf(v).Some?
    ensures Labels([v]) == [LabelOf(v).value]
  {
    assert [v][..0] == [];
  }

  lemma LabelsFour(a: seq<Move>, u: Move, mid: seq<Move>, w: Move)
    requires LabelOf(u).Some? && LabelOf(w).Some?
    ensures Labels(a + [u] + mid + [w]) == Labels(a) + [LabelOf(u).value] + Labels(mid) + [LabelOf(w).value]
  {
    hide Labels;
    OneLabel(u);
    OneLabel(w);
    LabelsAppend(a + [u] + mid, [w]);
    LabelsAppend(a + [u], mid);
    LabelsAppend(a, [u]);
  }

  lemma LabelsFirst(vs: seq<Move>)
    requires vs != [] && LabelOf(vs[0]).Some?
    ensures Labels(vs) != [] && Labels(vs)[0] == LabelOf(vs[0]).value
  {
    hide Labels;
    OneLabel(vs[0]);
    assert vs == [vs[0]] + vs[1..];
    LabelsAppend([vs[0]], vs[1..]);
  }

  lemma LabelsSplit(vs: seq<Move>, i: nat)
    requires 0 < i < |vs| - 1 && vs[0].Sleep? && vs[i].Loop? && vs[|vs| - 1] == Loop(S.EndPass)
    ensures Labels(vs) == Labels(vs[..i]) + [vs[i].l] + Labels(vs[i + 1..|vs| - 1]) + [S.EndPass]
    ensures Labels(vs[..i]) != [] && Labels(vs[..i])[0] == vs[0].l
  {
    hide Labels;
    var e := |vs| - 1;
    assert vs == vs[..i] + [vs[i]] + vs[i + 1..e] + [vs[e]];
    LabelsFour(vs[..i], vs[i], vs[i + 1..e], vs[e]);
    LabelsFirst(vs[..i]);
  }

  lemma NoEndPass(vs: seq<Move>, j: nat)
    requires j < |Labels(vs)| && forall k :: 0 <= k < |vs| ==> LabelOf(vs[k]) != Some(S.EndPass)
    ensures !Labels(vs)[j].EndPass?
  {
    assert Labels(vs)[j] in Labels(vs);
    FromMoves(vs, Labels(vs)[j]);
  }

  /** The labels of a stretch that begins with a sleep, has a take in the middle and ends with the
      end of that pass. */
  lemma LabelsOfPass(vs: seq<Move>, i: nat)
    requires 0 < i < |vs| - 1 && vs[0].Sleep? && vs[i].Loop? && vs[|vs| - 1] == Loop(S.EndPass)
    requires forall j :: i < j < |vs| - 1 ==> LabelOf(vs[j]) != Some(S.EndPass)
    ensures var ls, a := Labels(vs), |Labels(vs[..i])|;
            && 0 < a < |ls| - 1 && ls[0] == vs[0].l && ls[a] == vs[i].l && ls[|ls| - 1] == S.EndPass
            && forall j :: a < j < |ls| - 1 ==> !ls[j].EndPass?
  {
    hide Labels;
    LabelsSplit(vs, i);
    var ls, a, mid := Labels(vs), |Labels(vs[..i])|, vs[i + 1..|vs| - 1];
    forall j | a < j < |ls| - 1 ensures !ls[j].EndPass? {
      assert ls[j] == Labels(mid)[j - a - 1];
      NoEndPass(mid, j - a - 1);
    }
  }

  /** In every run: the item of a poll or a timed wait has been resumed when the first pass that begins
      afterwards, at its deadline or later, ends. */
  lemma ItemIsResumed(base: seq<C.Co>, ms: seq<Machine>, vs: seq<Move>, id: S.Id, d: nat, k: nat, i: nat, e: nat)
    requires IsRun(base, ms, vs) && Inv(base, ms[0]) && k < i < e < |vs|
    requires vs[k].Sleep? && D.Enters(ms[k].sched, vs[k].l, id, d)
    requires vs[i].Loop? && vs[i].l.Take? && d <= vs[i].l.now && vs[e] == Loop(S.EndPass)
    requires forall j :: i < j < e ==> LabelOf(vs[j]) != Some(S.EndPass)
    ensures SP.InLog(ms[e + 1].sched, id)
  {
    hide IsRun, Inv, S.IsRun, D.Enters, SP.InLog, Labels, States, SR.Inv;
    PartIsRun(base, ms, vs, k, e + 1);
    RunStep(base, ms, vs, k);
    var us, ns := vs[k..e + 1], ms[k..e + 2];
    IsSchedulerRun(base, ns, us);
    assert forall j :: i - k < j < |us| - 1 ==> us[j] == vs[k + j];
    LabelsOfPass(us, i - k);
    SchedInv(base, ms[k]);
    var ls := Labels(us);
    D.ResumedByDeadline(States(ns, us), ls, id, d, 0, |Labels(us[..i - k])|, |ls| - 1);
  }

  lemma SchedInv(base: seq<C.Co>, m: Machine)
    requires Inv(base, m)
    ensures SR.Inv(m.sched) && m.owner.Keys == m.sched.timers.Keys
  {
    hide SR.Inv, C.Inv;
  }

  // ---------------------------------------------------------------- asleep, and back

  /** Where the item leaves. */
  lemma {:induction false} Leaves(ms: seq<Machine>, id: S.Id, a: nat, b: nat) returns (n: nat)
    requires a < b < |ms| && id in ms[a].owner && id !in ms[b].owner
    ensures a <= n < b && (forall j :: a <= j <= n ==> id in ms[j].owner) && id !in ms[n + 1].owner
    decreases b - a
  {
    if id !in ms[a + 1].owner {
      n := a;
    } else {
      n := Leaves(ms, id, a + 1, b);
    }
  }

  lemma OnlyWakingRemoves(base: seq<C.Co>, m: Machine, v: Move, id: S.Id)
    requires Inv(base, m) && Possible(base, m, v) && id in m.owner && id !in Do(base, m, v).owner
    ensures v.Wake?
  {
    hide Inv, S.Step, C.Step;
  }

  lemma LoggedIsGone(base: seq<C.Co>, m: Machine, id: S.Id)
    requires Inv(base, m) && SP.InLog(m.sched, id)
    ensures id !in m.owner
  {
    LogOf(m.sched, id);
    hide SR.Inv, C.Inv;
  }

  lemma LogOf(s: S.State, id: S.Id)
    requires SR.Inv(s) && SP.InLog(s, id)
    ensures id !in s.timers
  {
  }

  lemma EntersOwner(base: seq<C.Co>, m: Machine, l: S.Label, sp: nat, id: S.Id, d: nat)
    requires Inv(base, m) && Possible(base, m, Sleep(l, sp)) && D.Enters(m.sched, l, id, d)
    ensures l.id == id && id in Do(base, m, Sleep(l, sp)).owner
  {
    SchedInv(base, m);
    D.EntersOnCourse(m.sched, l, id, d);
    hide Inv, SR.Inv, S.Step, C.Step, S.Enabled, C.Enabled;
  }

  /** In every run that frees and resets no occupant: a coroutine on a shared stack that begins a poll
      or a timed wait has been resumed when the first pass that begins afterwards, at its deadline or
      later, ends; and when it was resumed, it ran on top of the loop's call stack and found its part
      of the shared stack as it had left it. */
  lemma SleeperComesBack(base: seq<C.Co>, ms: seq<Machine>, vs: seq<Move>, id: S.Id, d: nat, k: nat, i: nat, e: nat)
    returns (n: nat)
    requires IsRun(base, ms, vs) && Inv(base, ms[0]) && R.Occupied(ms[0].thread) && k < i < e < |vs|
    requires forall j :: 0 <= j < e ==> Spares(ms[j], vs[j])
    requires vs[k].Sleep? && D.Enters(ms[k].sched, vs[k].l, id, d)
    requires vs[i].Loop? && vs[i].l.Take? && d <= vs[i].l.now && vs[e] == Loop(S.EndPass)
    requires forall j :: i < j < e ==> LabelOf(vs[j]) != Some(S.EndPass)
    requires ms[k].thread.stack != [] && C.Shares(ms[k].thread, C.Current(ms[k].thread))
    requires vs[k].sp <= |C.MemOf(ms[k].thread, C.Current(ms[k].thread)).bytes|
    ensures k < n < e && vs[n].Wake?
    ensures var p, sp, t := C.Current(ms[k].thread), vs[k].sp, ms[n + 1].thread;
            && t.stack == base + [p] && C.Shares(t, p) && sp <= |C.MemOf(t, p).bytes|
            && C.MemOf(t, p).bytes[sp..] == C.MemOf(ms[k].thread, p).bytes[sp..]
  {
    hide IsRun, Inv, Possible, Do, Spares, D.Enters, SP.InLog, R.Occupied, LabelOf;
    ItemIsResumed(base, ms, vs, id, d, k, i, e);
    RunStep(base, ms, vs, k);
    RunStep(base, ms, vs, e);
    LoggedIsGone(base, ms[e + 1], id);
    EntersOwner(base, ms[k], vs[k].l, vs[k].sp, id, d);
    n := Leaves(ms, id, k + 1, e + 1);
    RunStep(base, ms, vs, n);
    OnlyWakingRemoves(base, ms[n], vs[n], id);
    SleepKeepsStack(base, ms, vs, id, k, n);
  }
}
