/** The merging of poll sets in the hooked poll of libco/co_hook_sys_call.cpp: requests for the
    same descriptor become one request, and its result is handed back to each of them. */
module PollMerge {
  import opened Seqs

  type Events = bv16

  datatype PollFd = PollFd(fd: int, events: Events, revents: Events)

  function Or(a: Events, b: Events): Events { a | b }

  lemma OrZero(a: Events)
    ensures Or(a, 0) == a && Or(0, a) == a
  {
  }

  /** The events requested for `fd` in any entry. */
  function Requested(fds: seq<PollFd>, fd: int): Events {
    if fds == [] then 0
    else
      var n := |fds| - 1;
      if fds[n].fd == fd then Or(Requested(fds[..n], fd), fds[n].events) else Requested(fds[..n], fd)
  }

  /** The first entry for `fd`; the number of entries if there is none. */
  function FirstIndex(fds: seq<PollFd>, fd: int): (i: nat)
    ensures i <= |fds| && (i < |fds| ==> fds[i].fd == fd)
    ensures forall k :: 0 <= k < i ==> fds[k].fd != fd
  {
    if fds == [] then 0
    else
      var n := |fds| - 1;
      var i := FirstIndex(fds[..n], fd);
      if i < n then i else if fds[n].fd == fd then n else |fds|
  }

  ghost predicate DistinctFds(fds: seq<PollFd>) {
    forall i, j :: 0 <= i < j < |fds| ==> fds[i].fd != fds[j].fd
  }

  /** `merged` lists every descriptor of `fds` once, in the order of first appearance, and `slot`
      says where. */
  ghost predicate ListsOnce(fds: seq<PollFd>, merged: seq<PollFd>, slot: map<int, nat>) {
    && (forall i :: 0 <= i < |fds| ==> fds[i].fd in slot)
    && (forall fd :: fd in slot ==> slot[fd] < |merged| && merged[slot[fd]].fd == fd && FirstIndex(fds, fd) < |fds|)
    && (forall j :: 0 <= j < |merged| ==> merged[j].fd in slot && slot[merged[j].fd] == j)
    && (forall i, j :: 0 <= i < j < |merged| ==> FirstIndex(fds, merged[i].fd) < FirstIndex(fds, merged[j].fd))
  }

  /** Each entry of `merged` asks for all the events requested for its descriptor, and is
      otherwise a copy of the first entry for it. */
  ghost predicate AsksForAll(fds: seq<PollFd>, merged: seq<PollFd>) {
    forall j :: 0 <= j < |merged| ==>
      && FirstIndex(fds, merged[j].fd) < |fds|
      && merged[j].events == Requested(fds, merged[j].fd)
      && merged[j].revents == fds[FirstIndex(fds, merged[j].fd)].revents
  }

  ghost predicate IsMerge(fds: seq<PollFd>, merged: seq<PollFd>, slot: map<int, nat>) {
    ListsOnce(fds, merged, slot) && AsksForAll(fds, merged)
  }

  lemma OneMore(fds: seq<PollFd>, p: PollFd, fd: int)
    ensures Requested(fds + [p], fd) == if p.fd == fd then Or(Requested(fds, fd), p.events) else Requested(fds, fd)
    ensures FirstIndex(fds + [p], fd) ==
            if FirstIndex(fds, fd) < |fds| then FirstIndex(fds, fd) else if p.fd == fd then |fds| else |fds| + 1
  {
    hide Or;
    assert (fds + [p])[..|fds|] == fds;
  }

  lemma {:induction false} UnrequestedIsZero(fds: seq<PollFd>, fd: int)
    requires forall i :: 0 <= i < |fds| ==> fds[i].fd != fd
    ensures Requested(fds, fd) == 0
  {
    hide Or;
    if fds != [] { UnrequestedIsZero(fds[..|fds| - 1], fd); }
  }

  lemma ListNew(fds: seq<PollFd>, merged: seq<PollFd>, slot: map<int, nat>, p: PollFd)
    requires ListsOnce(fds, merged, slot) && p.fd !in slot
    ensures ListsOnce(fds + [p], merged + [p], slot[p.fd := |merged|])
  {
    hide FirstIndex, Or;
    forall fd { OneMore(fds, p, fd); }
  }

  lemma MergeNew(fds: seq<PollFd>, merged: seq<PollFd>, slot: map<int, nat>, p: PollFd)
    requires IsMerge(fds, merged, slot) && p.fd !in slot
    ensures IsMerge(fds + [p], merged + [p], slot[p.fd := |merged|])
  {
    hide FirstIndex, Or, Requested;
    ListNew(fds, merged, slot, p);
    UnrequestedIsZero(fds, p.fd);
    OrZero(p.events);
    NotListed(fds, p.fd);
    forall j | 0 <= j <= |merged|
      ensures var q, all := (merged + [p])[j], fds + [p];
              && FirstIndex(all, q.fd) < |all| && q.events == Requested(all, q.fd)
              && q.revents == all[FirstIndex(all, q.fd)].revents
    {
      OneMore(fds, p, (merged + [p])[j].fd);
    }
  }

  lemma NotListed(fds: seq<PollFd>, fd: int)
    requires forall i :: 0 <= i < |fds| ==> fds[i].fd != fd
    ensures FirstIndex(fds, fd) == |fds|
  {
  }

  lemma ListKnown(fds: seq<PollFd>, merged: seq<PollFd>, slot: map<int, nat>, p: PollFd, more: seq<PollFd>)
    requires ListsOnce(fds, merged, slot) && p.fd in slot && |more| == |merged|
    requires forall j :: 0 <= j < |more| ==> more[j].fd == merged[j].fd
    ensures ListsOnce(fds + [p], more, slot)
  {
    hide FirstIndex;
    forall fd ensures FirstIndex(fds, fd) < |fds| ==> FirstIndex(fds + [p], fd) == FirstIndex(fds, fd) {
      OneMore(fds, p, fd);
    }
  }

  lemma MergeKnown(fds: seq<PollFd>, merged: seq<PollFd>, slot: map<int, nat>, p: PollFd)
    requires IsMerge(fds, merged, slot) && p.fd in slot
    ensures var j := slot[p.fd];
            IsMerge(fds + [p], merged[j := merged[j].(events := Or(merged[j].events, p.events))], slot)
  {
    hide FirstIndex, Or, Requested;
    var k := slot[p.fd];
    var more := merged[k := merged[k].(events := Or(merged[k].events, p.events))];
    ListKnown(fds, merged, slot, p, more);
    forall j | 0 <= j < |more|
      ensures var all := fds + [p];
              && FirstIndex(all, more[j].fd) < |all| && more[j].events == Requested(all, more[j].fd)
              && more[j].revents == all[FirstIndex(all, more[j].fd)].revents
    {
      OneMore(fds, p, more[j].fd);
    }
  }

  /** The merging loop. */
  method Merge(fds: seq<PollFd>) returns (merged: seq<PollFd>, slot: map<int, nat>)
    ensures IsMerge(fds, merged, slot)
  {
    hide IsMerge;
    merged, slot := [], map[];
    EmptyMerge();
    for i := 0 to |fds|
      invariant IsMerge(fds[..i], merged, slot)
    {
      assert fds[..i + 1] == fds[..i] + [fds[i]];
      if fds[i].fd !in slot {
        MergeNew(fds[..i], merged, slot, fds[i]);
        slot := slot[fds[i].fd := |merged|];
        merged := merged + [fds[i]];
      } else {
        MergeKnown(fds[..i], merged, slot, fds[i]);
        SlotInRange(fds[..i], merged, slot, fds[i].fd);
        var j := slot[fds[i].fd];
        merged := merged[j := merged[j].(events := Or(merged[j].events, fds[i].events))];
      }
    }
    assert fds[..|fds|] == fds;
  }

  lemma EmptyMerge()
    ensures IsMerge([], [], map[])
  {
  }

  lemma SlotInRange(fds: seq<PollFd>, merged: seq<PollFd>, slot: map<int, nat>, fd: int)
    requires IsMerge(fds, merged, slot) && fd in slot
    ensures slot[fd] < |merged| && merged[slot[fd]].fd == fd
  {
  }

  // ---------------------------------------------------------------- when merging changes nothing

  /** Entry `j` of the merged set comes from entry `j` of the request or later, and leaves room
      for those behind it. */
  lemma {:induction false} FirstIndexBounds(fds: seq<PollFd>, merged: seq<PollFd>, slot: map<int, nat>, j: nat)
    requires IsMerge(fds, merged, slot) && j < |merged|
    ensures j <= FirstIndex(fds, merged[j].fd)
  {
    hide FirstIndex, Requested, AsksForAll;
    if j > 0 { FirstIndexBounds(fds, merged, slot, j - 1); }
  }

  lemma {:induction false} FirstIndexRoom(fds: seq<PollFd>, merged: seq<PollFd>, slot: map<int, nat>, j: nat)
    requires IsMerge(fds, merged, slot) && j < |merged|
    ensures FirstIndex(fds, merged[j].fd) + (|merged| - j) <= |fds|
    decreases |merged| - j
  {
    hide FirstIndex, Requested, AsksForAll;
    if j + 1 < |merged| { FirstIndexRoom(fds, merged, slot, j + 1); }
  }

  lemma {:induction false} OnlyRequest(fds: seq<PollFd>, i: nat)
    requires DistinctFds(fds) && i < |fds|
    ensures Requested(fds, fds[i].fd) == fds[i].events
  {
    var n := |fds| - 1;
    if i < n {
      OnlyRequest(fds[..n], i);
    } else {
      UnrequestedIsZero(fds[..n], fds[n].fd);
      OrZero(fds[n].events);
    }
  }

  /** Merging shortens the request exactly when a descriptor occurs twice, and changes nothing
      otherwise. */
  lemma MergeShortensIff(fds: seq<PollFd>, merged: seq<PollFd>, slot: map<int, nat>)
    requires IsMerge(fds, merged, slot)
    ensures |merged| <= |fds|
    ensures |merged| == |fds| <==> DistinctFds(fds)
    ensures DistinctFds(fds) ==> merged == fds
  {
    hide Or;
    if merged != [] {
      FirstIndexRoom(fds, merged, slot, 0);
    }
    if |merged| == |fds| {
      SameLength(fds, merged, slot);
    }
    if DistinctFds(fds) {
      AllListed(fds, merged, slot);
      SameLength(fds, merged, slot);
    }
  }

  lemma SameLength(fds: seq<PollFd>, merged: seq<PollFd>, slot: map<int, nat>)
    requires IsMerge(fds, merged, slot) && |merged| == |fds|
    ensures DistinctFds(fds) && merged == fds
  {
    hide Or, Requested;
    forall j | 0 <= j < |merged| ensures FirstIndex(fds, merged[j].fd) == j && merged[j].fd == fds[j].fd {
      FirstIndexBounds(fds, merged, slot, j);
      FirstIndexRoom(fds, merged, slot, j);
    }
    assert DistinctFds(fds);
    forall j | 0 <= j < |merged| ensures merged[j] == fds[j] {
      OnlyRequest(fds, j);
    }
  }

  lemma AllListed(fds: seq<PollFd>, merged: seq<PollFd>, slot: map<int, nat>)
    requires IsMerge(fds, merged, slot) && DistinctFds(fds)
    ensures |merged| >= |fds|
  {
    hide FirstIndex, AsksForAll;
    var asked := seq(|fds|, i requires 0 <= i < |fds| => slot[fds[i].fd]);
    forall i, j | 0 <= i < j < |asked| ensures asked[i] != asked[j] {
      assert merged[asked[i]].fd == fds[i].fd && merged[asked[j]].fd == fds[j].fd;
    }
    forall i | 0 <= i < |asked| ensures asked[i] < |merged| { assert fds[i].fd in slot; }
    NoDupBelow(asked, |merged|);
  }

  // ---------------------------------------------------------------- the whole call

  /** What the call leaves in the caller's array when the merged request was answered by `raised`:
      each entry gets the raised bits of its descriptor that it asked for. */
  ghost predicate HandedOut(was: seq<PollFd>, now: seq<PollFd>, slot: map<int, nat>, raised: seq<Events>) {
    && |now| == |was|
    && forall i :: 0 <= i < |was| ==>
         && was[i].fd in slot && slot[was[i].fd] < |raised|
         && now[i] == was[i].(revents := raised[slot[was[i].fd]] & was[i].events)
  }

  /** The hooked poll, with the coroutine poll as a function of its request. */
  method Poll(fds: array<PollFd>, inner: seq<PollFd> -> (int, seq<Events>))
    returns (ret: int, ghost merged: seq<PollFd>, ghost slot: map<int, nat>)
    requires forall s :: |inner(s).1| == |s|
    modifies fds
    ensures DistinctFds(old(fds[..])) ==>
              && ret == inner(old(fds[..])).0
              && forall i :: 0 <= i < fds.Length ==>
                   fds[i] == old(fds[i]).(revents := inner(old(fds[..])).1[i])
    ensures !DistinctFds(old(fds[..])) ==>
              && IsMerge(old(fds[..]), merged, slot) && ret == inner(merged).0
              && (ret > 0 ==> HandedOut(old(fds[..]), fds[..], slot, inner(merged).1))
              && (ret <= 0 ==> fds[..] == old(fds[..]))
  {
    hide IsMerge;
    ghost var was := fds[..];
    var request, place := [], map[];
    if fds.Length > 1 {
      request, place := Merge(fds[..]);
      MergeShortensIff(was, request, place);
    }
    merged, slot := request, place;
    if |request| == fds.Length || fds.Length == 1 {
      var (r, raised) := inner(fds[..]);
      WriteBack(fds, raised);
      return r, merged, slot;
    } else {
      var (r, raised) := inner(request);
      if r > 0 {
        HandOut(fds, request, place, raised);
      }
      return r, merged, slot;
    }
  }

  method WriteBack(fds: array<PollFd>, raised: seq<Events>)
    requires |raised| == fds.Length
    modifies fds
    ensures forall i :: 0 <= i < fds.Length ==> fds[i] == old(fds[i]).(revents := raised[i])
  {
    for i := 0 to fds.Length
      invariant forall k :: 0 <= k < i ==> fds[k] == old(fds[k]).(revents := raised[k])
      invariant forall k :: i <= k < fds.Length ==> fds[k] == old(fds[k])
    {
      fds[i] := fds[i].(revents := raised[i]);
    }
  }

  method HandOut(fds: array<PollFd>, merged: seq<PollFd>, slot: map<int, nat>, raised: seq<Events>)
    requires IsMerge(fds[..], merged, slot) && |raised| == |merged|
    modifies fds
    ensures HandedOut(old(fds[..]), fds[..], slot, raised)
  {
    ghost var was := fds[..];
    for i := 0 to fds.Length
      invariant forall k :: 0 <= k < i ==>
                  was[k].fd in slot && fds[k] == was[k].(revents := raised[slot[was[k].fd]] & was[k].events)
      invariant forall k :: i <= k < fds.Length ==> fds[k] == was[k]
    {
      assert was[i].fd in slot;
      var j := slot[fds[i].fd];
      fds[i] := fds[i].(revents := raised[j] & fds[i].events);
    }
  }
}
