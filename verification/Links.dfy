/** The intrusive doubly linked lists of libco/co_routine.cpp: a node carries its own
    `prev`/`next` pointers and names the list it is in (`link`).  The templates
    RemoveFromLink, AddTail, PopHead and Join work for timer items and for condition-variable
    waiters alike, so the payload type is a parameter here too. */
module Links {
  import opened Seqs

  class Node<P> {
    var prev: Node?<P>
    var next: Node?<P>
    var link: Link?<P>
    var payload: P

    constructor (payload: P)
      ensures this.payload == payload && prev == null && next == null && link == null
    {
      this.payload := payload;
      prev, next, link := null, null, null;
    }
  }

  /** The node before position `i` of a list, null in front of the first. */
  ghost function Before<P>(s: seq<Node<P>>, i: nat): Node?<P>
    requires i < |s|
  {
    if i == 0 then null else s[i - 1]
  }

  /** The node after position `i` of a list, null behind the last. */
  ghost function After<P>(s: seq<Node<P>>, i: nat): Node?<P>
    requires i < |s|
  {
    if i + 1 == |s| then null else s[i + 1]
  }

  class Link<P> {
    var head: Node?<P>
    var tail: Node?<P>
    /** The nodes of the list, in order. */
    ghost var items: seq<Node<P>>

    ghost predicate Valid()
      reads this, items
    {
      && NoDup(items)
      && head == (if items == [] then null else items[0])
      && tail == (if items == [] then null else items[|items| - 1])
      && (forall i {:trigger items[i].link} :: 0 <= i < |items| ==> items[i].link == this)
      && (forall i {:trigger items[i].prev} :: 0 <= i < |items| ==> items[i].prev == Before(items, i))
      && (forall i {:trigger items[i].next} :: 0 <= i < |items| ==> items[i].next == After(items, i))
    }

    constructor ()
      ensures Valid() && items == []
    {
      head, tail, items := null, null, [];
    }
  }

  /** Lists never share a node, since a node names the one list it is in. */
  lemma DisjointLists<P>(a: Link<P>, b: Link<P>)
    requires a.Valid() && b.Valid() && a != b
    ensures forall i, j :: 0 <= i < |a.items| && 0 <= j < |b.items| ==> a.items[i] != b.items[j]
    ensures NoDup(a.items + b.items)
  {
    forall i, j | 0 <= i < |a.items| && 0 <= j < |b.items| ensures a.items[i] != b.items[j] {
      assert a.items[i].link == a && b.items[j].link == b;
    }
  }

  /** A list is well formed again once node `k` has been bypassed in both directions. */
  lemma Spliced<P>(lst: Link<P>, s: seq<Node<P>>, k: nat)
    requires k < |s| && NoDup(s) && lst.items == s[..k] + s[k + 1..]
    requires lst.head == if k > 0 then s[0] else After(s, 0)
    requires lst.tail == if k + 1 < |s| then s[|s| - 1] else Before(s, k)
    requires forall i {:trigger s[i].link} :: 0 <= i < |s| && i != k ==> s[i].link == lst
    requires forall i {:trigger s[i].prev} :: 0 <= i < |s| && i != k ==>
               s[i].prev == if i == k + 1 then Before(s, k) else Before(s, i)
    requires forall i {:trigger s[i].next} :: 0 <= i < |s| && i != k ==>
               s[i].next == if i + 1 == k then After(s, k) else After(s, i)
    ensures lst.Valid()
  {
    var r := lst.items;
    forall i | 0 <= i < |r| ensures r[i].link == lst && r[i].prev == Before(r, i) && r[i].next == After(r, i) {
      assert r[i] == if i < k then s[i] else s[i + 1];
    }
  }

  /** Two lists laid end to end form one, once the seam points both ways. */
  lemma Concatenated<P>(lst: Link<P>, s: seq<Node<P>>, t: seq<Node<P>>)
    requires lst.items == s + t && NoDup(s + t) && t != []
    requires lst.head == (s + t)[0] && lst.tail == t[|t| - 1]
    requires forall i {:trigger s[i].link} :: 0 <= i < |s| ==> s[i].link == lst
    requires forall i {:trigger t[i].link} :: 0 <= i < |t| ==> t[i].link == lst
    requires forall i {:trigger s[i].prev} :: 0 <= i < |s| ==> s[i].prev == Before(s, i)
    requires forall i {:trigger s[i].next} :: 0 <= i < |s| ==>
               s[i].next == if i + 1 == |s| then t[0] else After(s, i)
    requires forall i {:trigger t[i].prev} :: 0 <= i < |t| ==>
               t[i].prev == if i == 0 && s != [] then s[|s| - 1] else Before(t, i)
    requires forall i {:trigger t[i].next} :: 0 <= i < |t| ==> t[i].next == After(t, i)
    ensures lst.Valid()
  {
    var r := lst.items;
    forall i | 0 <= i < |r| ensures r[i].link == lst && r[i].prev == Before(r, i) && r[i].next == After(r, i) {
      assert r[i] == if i < |s| then s[i] else t[i - |s|];
    }
  }

  /** The first half of RemoveFromLink: the forward pointers bypass `ap`. */
  method BypassForward<P>(lst: Link<P>, ap: Node<P>, ghost k: nat)
    requires lst.Valid() && k < |lst.items| && lst.items[k] == ap
    modifies lst`head
    modifies (if ap.prev == null then {} else {ap.prev})`next
    modifies (if ap.next == null then {} else {ap.next})`prev
    ensures var s := lst.items;
            && lst.head == (if k > 0 then s[0] else After(s, 0))
            && (forall i {:trigger s[i].next} :: 0 <= i < |s| ==>
                  s[i].next == if i + 1 == k then After(s, k) else After(s, i))
            && (forall i {:trigger s[i].prev} :: 0 <= i < |s| ==>
                  s[i].prev == if k == 0 && i == 1 then null else Before(s, i))
  {
    ghost var s := lst.items;
    assert ap.prev == Before(s, k) && ap.next == After(s, k);
    if ap == lst.head {
      lst.head := ap.next;
      if lst.head != null {
        lst.head.prev := null;
      }
    } else {
      if ap.prev != null {
        ap.prev.next := ap.next;
      }
    }
  }

  /** The second half: the backward pointers bypass `ap` too, and `ap` lets go of the list. */
  method BypassBackward<P>(lst: Link<P>, ap: Node<P>, ghost k: nat)
    requires k < |lst.items| && lst.items[k] == ap && NoDup(lst.items)
    requires lst.tail == lst.items[|lst.items| - 1]
    requires ap.prev == Before(lst.items, k) && ap.next == After(lst.items, k)
    modifies lst`tail, ap`prev, ap`next, ap`link
    modifies (if ap.prev == null then {} else {ap.prev})`next
    modifies (if ap.next == null then {} else {ap.next})`prev
    ensures var s := lst.items;
            && lst.tail == (if k + 1 < |s| then s[|s| - 1] else Before(s, k))
            && (forall i {:trigger s[i].next} :: 0 <= i < |s| && i != k ==>
                  s[i].next == if k + 1 == |s| == i + 2 then null else old(s[i].next))
            && (forall i {:trigger s[i].prev} :: 0 <= i < |s| && i != k ==>
                  s[i].prev == if i == k + 1 then Before(s, k) else old(s[i].prev))
            && ap.prev == null && ap.next == null && ap.link == null
  {
    if ap == lst.tail {
      lst.tail := ap.prev;
      if lst.tail != null {
        lst.tail.next := null;
      }
    } else {
      ap.next.prev := ap.prev;
    }

    ap.prev, ap.next := null, null;
    ap.link := null;
  }

  /** Takes node `k` out of the list it is in. */
  method Unlink<P>(lst: Link<P>, ap: Node<P>, ghost k: nat)
    requires lst.Valid() && k < |lst.items| && lst.items[k] == ap
    modifies lst, ap`prev, ap`next, ap`link
    modifies (if ap.prev == null then {} else {ap.prev})`next
    modifies (if ap.next == null then {} else {ap.next})`prev
    ensures lst.Valid() && lst.items == old(lst.items)[..k] + old(lst.items)[k + 1..]
    ensures ap.link == null && ap.prev == null && ap.next == null
  {
    ghost var s := lst.items;
    assert ap.prev == Before(s, k) && ap.next == After(s, k);
    BypassForward(lst, ap, k);
    BypassBackward(lst, ap, k);
    lst.items := s[..k] + s[k + 1..];
    Spliced(lst, s, k);
  }

  /** Detaches `ap` from whatever list it is in; a node in no list is left alone. */
  method RemoveFromLink<P>(ap: Node<P>)
    requires ap.link != null ==> ap.link.Valid() && ap in ap.link.items
    modifies ap`prev, ap`next, ap`link
    modifies if ap.link == null then {} else {ap.link}
    modifies (if ap.link == null || ap.prev == null then {} else {ap.prev})`next
    modifies (if ap.link == null || ap.next == null then {} else {ap.next})`prev
    ensures old(ap.link) == null ==> ap.prev == old(ap.prev) && ap.next == old(ap.next) && ap.link == null
    ensures old(ap.link) != null ==>
              && old(ap.link).Valid()
              && old(ap.link).items == Without(old(ap.link.items), ap)
              && ap.link == null && ap.prev == null && ap.next == null
  {
    hide Without;
    var lst := ap.link;
    if lst == null { return; }
    ghost var k :| 0 <= k < |lst.items| && lst.items[k] == ap;
    WithoutAt(lst.items, k);
    Unlink(lst, ap, k);
  }

  /** Appends `ap`, unless it is in a list already. */
  method AddTail<P>(apLink: Link<P>, ap: Node<P>)
    requires apLink.Valid()
    requires ap.link == null ==> ap !in apLink.items
    modifies apLink, ap`prev, ap`next, ap`link
    modifies (if apLink.tail == null then {} else {apLink.tail})`next
    ensures apLink.Valid()
    ensures old(ap.link) != null ==>
              apLink.items == old(apLink.items) && ap.link == old(ap.link)
    ensures old(ap.link) == null ==>
              apLink.items == old(apLink.items) + [ap] && ap.link == apLink
  {
    if ap.link != null {
      return;
    }
    if apLink.tail != null {
      apLink.tail.next := ap;
      ap.next := null;
      ap.prev := apLink.tail;
      apLink.tail := ap;
    } else {
      apLink.head, apLink.tail := ap, ap;
      ap.next, ap.prev := null, null;
    }
    ap.link := apLink;
    apLink.items := apLink.items + [ap];
  }

  /** Drops the first node, if there is one. */
  method PopHead<P>(apLink: Link<P>)
    requires apLink.Valid()
    modifies apLink
    modifies (set n | n in apLink.items)`prev
    modifies (if apLink.head == null then {} else {apLink.head})`next
    modifies (if apLink.head == null then {} else {apLink.head})`link
    ensures apLink.Valid()
    ensures old(apLink.items) == [] ==> apLink.items == []
    ensures old(apLink.items) != [] ==>
              && apLink.items == old(apLink.items)[1..]
              && old(apLink.items)[0].link == null
              && old(apLink.items)[0].prev == null
              && old(apLink.items)[0].next == null
  {
    if apLink.head == null {
      return;
    }
    var lp := apLink.head;
    if apLink.head == apLink.tail {
      apLink.head, apLink.tail := null, null;
    } else {
      apLink.head := apLink.head.next;
    }

    lp.prev, lp.next := null, null;
    lp.link := null;

    if apLink.head != null {
      apLink.head.prev := null;
    }
    apLink.items := apLink.items[1..];
  }

  /** Moves every node of `apOther` behind the nodes of `apLink`, leaving `apOther` empty. */
  method Join<P>(apLink: Link<P>, apOther: Link<P>)
    requires apLink.Valid() && apOther.Valid() && apLink != apOther
    modifies apLink, apOther
    modifies (set n | n in apOther.items)`link
    modifies (set n | n in apOther.items)`prev
    modifies (if apLink.tail == null then {} else {apLink.tail})`next
    ensures apLink.Valid() && apOther.Valid()
    ensures apLink.items == old(apLink.items) + old(apOther.items)
    ensures apOther.items == []
  {
    if apOther.head == null {
      return;
    }
    var lp := apOther.head;
    ghost var s, t := apLink.items, apOther.items;
    DisjointLists(apLink, apOther);
    ghost var k := 0;
    while lp != null
      invariant 0 <= k <= |t|
      invariant lp == (if k == |t| then null else t[k])
      invariant forall i {:trigger t[i].link} :: 0 <= i < k ==> t[i].link == apLink
      invariant forall i {:trigger t[i].link} :: k <= i < |t| ==> t[i].link == apOther
      invariant unchanged(apLink) && unchanged(apOther)
      invariant forall i {:trigger t[i].prev} :: 0 <= i < |t| ==> t[i].prev == Before(t, i)
      invariant forall i {:trigger t[i].next} :: 0 <= i < |t| ==> t[i].next == After(t, i)
      invariant apLink.Valid()
      decreases |t| - k
    {
      lp.link := apLink;
      lp := lp.next;
      k := k + 1;
    }
    lp := apOther.head;
    if apLink.tail != null {
      apLink.tail.next := lp;
      lp.prev := apLink.tail;
      apLink.tail := apOther.tail;
    } else {
      apLink.head := apOther.head;
      apLink.tail := apOther.tail;
    }

    apOther.head, apOther.tail := null, null;
    apLink.items, apOther.items := s + t, [];
    Concatenated(apLink, s, t);
  }

  // ---------------------------------------------------------------- many lists over the same nodes

  /** All lists are well formed, and every node is in the one list it names, or in none. */
  ghost predicate World<P>(lists: set<Link<P>>, nodes: set<Node<P>>)
    reads lists, nodes
  {
    && (forall l :: l in lists ==> (forall n :: n in l.items ==> n in nodes) && l.Valid())
    && forall n :: n in nodes && n.link != null ==> n.link in lists && n in n.link.items
  }

  /** The neighbours of a node are in the same list. */
  lemma Neighbours<P>(ap: Node<P>)
    requires ap.link != null && ap.link.Valid() && ap in ap.link.items
    ensures ap.prev != null ==> ap.prev in ap.link.items && ap.prev.link == ap.link
    ensures ap.next != null ==> ap.next in ap.link.items && ap.next.link == ap.link
  {
    var s := ap.link.items;
    var k :| 0 <= k < |s| && s[k] == ap;
    assert s[k].prev == Before(s, k) && s[k].next == After(s, k);
  }

  /** A node is not in a list it does not name. */
  lemma Elsewhere<P>(ap: Node<P>, l: Link<P>)
    requires l.Valid() && ap.link != l
    ensures ap !in l.items
  {
    forall i | 0 <= i < |l.items| ensures l.items[i] != ap { assert l.items[i].link == l; }
  }

  method RemoveIn<P>(ap: Node<P>, ghost lists: set<Link<P>>, ghost nodes: set<Node<P>>)
    requires World(lists, nodes) && ap in nodes
    modifies lists, nodes`prev, nodes`next, ap`link
    ensures World(lists, nodes) && ap.link == null
    ensures forall l :: l in lists ==> l.items == Without(old(l.items), ap)
  {
    hide Without;
    forall l | l in lists && l != ap.link ensures ap !in l.items { Elsewhere(ap, l); }
    if ap.link == null {
      return;
    }
    RemoveListed(ap, lists, nodes);
  }

  method RemoveListed<P>(ap: Node<P>, ghost lists: set<Link<P>>, ghost nodes: set<Node<P>>)
    requires World(lists, nodes) && ap in nodes && ap.link != null
    modifies lists, nodes`prev, nodes`next, ap`link
    ensures World(lists, nodes) && ap.link == null
    ensures old(ap.link).items == Without(old(ap.link.items), ap)
    ensures forall l :: l in lists && l != old(ap.link) ==> l.items == old(l.items)
  {
    hide Without;
    Neighbours(ap);
    ghost var lst := ap.link;
    RemoveFromLink(ap);
    forall l | l in lists && l != lst ensures l.Valid() && l.items == old(l.items) && ap !in l.items {
      forall i | 0 <= i < |l.items| ensures l.items[i] != ap {
        assert old(l.items[i].link) == l;
      }
    }
  }

  method AddTailIn<P>(apLink: Link<P>, ap: Node<P>, ghost lists: set<Link<P>>, ghost nodes: set<Node<P>>)
    requires World(lists, nodes) && apLink in lists && ap in nodes && ap.link == null
    modifies apLink, nodes`next, ap`prev, ap`link
    ensures World(lists, nodes) && ap.link == apLink
    ensures apLink.items == old(apLink.items) + [ap]
    ensures forall l :: l in lists && l != apLink ==> l.items == old(l.items)
  {
    ghost var tail := if apLink.tail == null then {} else {apLink.tail};
    assert forall n :: n in tail ==> n == apLink.items[|apLink.items| - 1] && n.link == apLink;
    AddTail(apLink, ap);
    forall l | l in lists && l != apLink ensures l.Valid() {
      forall i | 0 <= i < |l.items| ensures l.items[i] != ap && l.items[i] !in tail {
        assert old(l.items[i].link) == l;
      }
    }
  }

  method PopHeadIn<P>(apLink: Link<P>, ghost lists: set<Link<P>>, ghost nodes: set<Node<P>>)
    requires World(lists, nodes) && apLink in lists && apLink.items != []
    modifies apLink, nodes`prev, nodes`next, nodes`link
    ensures World(lists, nodes) && apLink.items == old(apLink.items)[1..]
    ensures old(apLink.items)[0].link == null
    ensures forall l :: l in lists && l != apLink ==> l.items == old(l.items)
    ensures forall n :: n in nodes && n != old(apLink.items)[0] ==> n.link == old(n.link)
  {
    ghost var s := apLink.items;
    PopHead(apLink);
    forall l | l in lists && l != apLink ensures l.Valid() {
      forall i | 0 <= i < |l.items| ensures l.items[i] !in s {
        assert old(l.items[i].link) == l;
        assert forall k :: 0 <= k < |s| ==> old(s[k].link) == apLink;
      }
    }
  }

  method JoinIn<P>(apLink: Link<P>, apOther: Link<P>, ghost lists: set<Link<P>>, ghost nodes: set<Node<P>>)
    requires World(lists, nodes) && apLink in lists && apOther in lists && apLink != apOther
    modifies apLink, apOther, nodes`prev, nodes`next, nodes`link
    ensures World(lists, nodes)
    ensures apLink.items == old(apLink.items) + old(apOther.items) && apOther.items == []
    ensures forall l :: l in lists && l != apLink && l != apOther ==> l.items == old(l.items)
  {
    ghost var s, t := apLink.items, apOther.items;
    assert forall k :: 0 <= k < |s| ==> s[k].link == apLink;
    assert forall k :: 0 <= k < |t| ==> t[k].link == apOther;
    Join(apLink, apOther);
    forall n | n in nodes && n.link != null ensures n.link in lists && n in n.link.items {
      if n in t {
        var k :| 0 <= k < |t| && t[k] == n;
        assert apLink.items[|s| + k] == n && apLink.items[|s| + k].link == apLink;
      } else {
        assert old(n.link) == n.link && n in old(n.link.items);
      }
    }
    forall l | l in lists && l != apLink && l != apOther ensures l.Valid() {
      forall i | 0 <= i < |l.items| ensures l.items[i] !in s && l.items[i] !in t {
        assert old(l.items[i].link) == l;
      }
    }
  }

  /** Writing to the payload of a node disturbs no list. */
  method SetPayload<P>(n: Node<P>, payload: P, ghost lists: set<Link<P>>, ghost nodes: set<Node<P>>)
    requires World(lists, nodes)
    modifies n`payload
    ensures n.payload == payload && World(lists, nodes)
  {
    n.payload := payload;
    assert forall l :: l in lists ==> l.Valid();
  }

  /** memset of an empty list: nothing is dropped. */
  method Reset<P>(l: Link<P>, ghost lists: set<Link<P>>, ghost nodes: set<Node<P>>)
    requires World(lists, nodes) && l in lists && l.items == []
    modifies l
    ensures World(lists, nodes) && l.items == []
  {
    l.head, l.tail := null, null;
    assert forall k :: k in lists ==> k.Valid();
  }

  lemma LooseNodeJoinsWorld<P>(n: Node<P>, lists: set<Link<P>>, nodes: set<Node<P>>)
    requires World(lists, nodes) && n.link == null
    ensures World(lists, nodes + {n})
  {
  }

  lemma EmptyListJoinsWorld<P>(l: Link<P>, lists: set<Link<P>>, nodes: set<Node<P>>)
    requires World(lists, nodes) && l.Valid() && l.items == []
    ensures World(lists + {l}, nodes)
  {
  }
}
