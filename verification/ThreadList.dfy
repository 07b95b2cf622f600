/** kern/thread/threadlist.c: doubly linked lists of threads with a sentinel at each end.  The
    list refines the sequence of its nodes. */
module ThreadList {
  import opened Common

  /** struct threadlistnode; a thread's own node names the thread, a sentinel names none. */
  class Node {
    var prev: Node?
    var next: Node?
    const self: Option<nat>

    /** threadlistnode_init, and the sentinels of threadlist_init */
    constructor (self: Option<nat>)
      ensures prev == null && next == null && this.self == self
    {
      prev, next := null, null;
      this.self := self;
    }
  }

  /** The nodes from one sentinel to the other, linked both ways. */
  ghost predicate Linked(chain: seq<Node>)
    reads chain
  {
    && |chain| >= 2
    && (forall i, j :: 0 <= i < j < |chain| ==> chain[i] != chain[j])
    && chain[0].prev == null && chain[|chain| - 1].next == null
    && (forall i :: 0 <= i < |chain| - 1 ==> chain[i].next == chain[i + 1])
    && (forall i :: 0 < i < |chain| ==> chain[i].prev == chain[i - 1])
  }

  /** threadlist_insertafternode */
  method InsertAfterNode(onlist: Node, addee: Node, ghost chain: seq<Node>, ghost i: nat)
    requires Linked(chain) && i < |chain| - 1 && chain[i] == onlist
    requires addee !in chain && addee.prev == null && addee.next == null
    modifies chain, addee
    ensures Linked(chain[..i + 1] + [addee] + chain[i + 1..])
  {
    var after := onlist.next;
    assert after == chain[i + 1];
    addee.prev := onlist;
    addee.next := onlist.next;
    addee.prev.next := addee;
    addee.next.prev := addee;
    ghost var chain' := chain[..i + 1] + [addee] + chain[i + 1..];
    assert forall j :: 0 <= j < |chain'| ==>
      chain'[j] == if j <= i then chain[j] else if j == i + 1 then addee else chain[j - 1];
  }

  /** threadlist_insertbeforenode */
  method InsertBeforeNode(addee: Node, onlist: Node, ghost chain: seq<Node>, ghost i: nat)
    requires Linked(chain) && 0 < i < |chain| && chain[i] == onlist
    requires addee !in chain && addee.prev == null && addee.next == null
    modifies chain, addee
    ensures Linked(chain[..i] + [addee] + chain[i..])
  {
    assert onlist.prev == chain[i - 1];
    addee.prev := onlist.prev;
    addee.next := onlist;
    addee.prev.next := addee;
    addee.next.prev := addee;
    ghost var chain' := chain[..i] + [addee] + chain[i..];
    assert forall j :: 0 <= j < |chain'| ==>
      chain'[j] == if j < i then chain[j] else if j == i then addee else chain[j - 1];
  }

  /** threadlist_removenode */
  method RemoveNode(tln: Node, ghost chain: seq<Node>, ghost i: nat)
    requires Linked(chain) && 0 < i < |chain| - 1 && chain[i] == tln
    modifies chain
    ensures Linked(chain[..i] + chain[i + 1..])
    ensures tln.prev == null && tln.next == null
  {
    assert tln.prev == chain[i - 1] && tln.next == chain[i + 1];
    tln.prev.next := tln.next;
    tln.next.prev := tln.prev;
    tln.prev := null;
    tln.next := null;
    ghost var chain' := chain[..i] + chain[i + 1..];
    assert forall j :: 0 <= j < |chain'| ==> chain'[j] == if j < i then chain[j] else chain[j + 1];
  }

  /** struct threadlist */
  class ThreadList {
    const head: Node
    const tail: Node
    var count: nat
    ghost var nodes: seq<Node>

    ghost function Chain(): (c: seq<Node>)
      reads this
    {
      [head] + nodes + [tail]
    }

    /** The nodes of the list with its sentinels. */
    ghost function Repr(): (r: set<Node>)
      reads this
    {
      {head, tail} + set n | n in nodes
    }

    /** Forward links, backward links, tl_count and the sentinels agree with the sequence. */
    ghost predicate Valid()
      reads this, Repr()
    {
      && Linked(Chain())
      && count == |nodes|
      && head.self == None && tail.self == None
      && forall n :: n in nodes ==> n.self.Some?
    }

    /** A node that is on no list. */
    ghost predicate Loose(n: Node)
      reads this, n
    {
      n !in Repr() && n.prev == null && n.next == null && n.self.Some?
    }

    /** threadlist_init */
    constructor ()
      ensures Valid() && nodes == [] && fresh(head) && fresh(tail)
    {
      var h := new Node(None);
      var t := new Node(None);
      h.next := t;
      t.prev := h;
      head, tail, count, nodes := h, t, 0, [];
      new;
      assert Chain() == [head, tail];
    }

    /** threadlist_isempty */
    method IsEmpty() returns (b: bool)
      requires Valid()
      ensures b <==> nodes == []
    {
      b := count == 0;
    }

    /** threadlist_addhead */
    method AddHead(t: Node)
      requires Valid() && Loose(t)
      modifies this, Repr(), t
      ensures Valid() && nodes == [t] + old(nodes)
    {
      ghost var chain := Chain();
      InsertAfterNode(head, t, chain, 0);
      count := count + 1;
      nodes := [t] + nodes;
      assert Chain() == chain[..1] + [t] + chain[1..];
    }

    /** threadlist_addtail */
    method AddTail(t: Node)
      requires Valid() && Loose(t)
      modifies this, Repr(), t
      ensures Valid() && nodes == old(nodes) + [t]
    {
      ghost var chain := Chain();
      InsertBeforeNode(t, tail, chain, |chain| - 1);
      count := count + 1;
      nodes := nodes + [t];
      assert Chain() == chain[..|chain| - 1] + [t] + chain[|chain| - 1..];
    }

    /** threadlist_remhead; null when the list is empty. */
    method RemHead() returns (t: Node?)
      requires Valid()
      modifies this, Repr()
      ensures Valid()
      ensures old(nodes) == [] ==> t == null && nodes == []
      ensures old(nodes) != [] ==> t == old(nodes)[0] && nodes == old(nodes)[1..] && Loose(t)
    {
      ghost var chain := Chain();
      var tln := head.next;
      assert tln == chain[1];
      assert |chain| > 2 ==> chain[1].next == chain[2];
      if tln.next == null {
        return null;
      }
      RemoveNode(tln, chain, 1);
      count := count - 1;
      nodes := nodes[1..];
      assert Chain() == chain[..1] + chain[2..];
      assert forall j :: 0 <= j < |nodes| ==> nodes[j] == chain[j + 2];
      t := tln;
    }

    /** threadlist_remtail; null when the list is empty. */
    method RemTail() returns (t: Node?)
      requires Valid()
      modifies this, Repr()
      ensures Valid()
      ensures old(nodes) == [] ==> t == null && nodes == []
      ensures old(nodes) != [] ==>
        t == old(nodes)[|old(nodes)| - 1] && nodes == old(nodes)[..|old(nodes)| - 1] && Loose(t)
    {
      ghost var chain := Chain();
      var tln := tail.prev;
      ghost var i := |chain| - 2;
      assert tln == chain[i];
      assert |chain| > 2 ==> chain[i].prev == chain[i - 1];
      if tln.prev == null {
        return null;
      }
      RemoveNode(tln, chain, i);
      count := count - 1;
      nodes := nodes[..|nodes| - 1];
      assert Chain() == chain[..i] + chain[i + 1..];
      assert forall j :: 0 <= j < |nodes| ==> nodes[j] == chain[j + 1];
      t := tln;
    }

    /** threadlist_insertafter; the place i of onlist is ghost. */
    method InsertAfter(onlist: Node, addee: Node, ghost i: nat)
      requires Valid() && Loose(addee) && i < |nodes| && nodes[i] == onlist
      modifies this, Repr(), addee
      ensures Valid() && nodes == old(nodes)[..i + 1] + [addee] + old(nodes)[i + 1..]
    {
      ghost var chain := Chain();
      assert chain[..i + 2] == [head] + nodes[..i + 1] && chain[i + 2..] == nodes[i + 1..] + [tail];
      InsertAfterNode(onlist, addee, chain, i + 1);
      count := count + 1;
      nodes := nodes[..i + 1] + [addee] + nodes[i + 1..];
      assert Chain() == chain[..i + 2] + [addee] + chain[i + 2..];
    }

    /** threadlist_insertbefore */
    method InsertBefore(addee: Node, onlist: Node, ghost i: nat)
      requires Valid() && Loose(addee) && i < |nodes| && nodes[i] == onlist
      modifies this, Repr(), addee
      ensures Valid() && nodes == old(nodes)[..i] + [addee] + old(nodes)[i..]
    {
      ghost var chain := Chain();
      assert chain[..i + 1] == [head] + nodes[..i] && chain[i + 1..] == nodes[i..] + [tail];
      InsertBeforeNode(addee, onlist, chain, i + 1);
      count := count + 1;
      nodes := nodes[..i] + [addee] + nodes[i..];
      assert Chain() == chain[..i + 1] + [addee] + chain[i + 1..];
    }

    /** threadlist_remove */
    method Remove(t: Node, ghost i: nat)
      requires Valid() && i < |nodes| && nodes[i] == t
      modifies this, Repr()
      ensures Valid() && nodes == old(nodes)[..i] + old(nodes)[i + 1..] && Loose(t)
    {
      ghost var chain := Chain();
      RemoveNode(t, chain, i + 1);
      count := count - 1;
      nodes := nodes[..i] + nodes[i + 1..];
      assert Chain() == chain[..i + 1] + chain[i + 2..];
      assert forall j :: 0 <= j < |nodes| ==> nodes[j] == chain[if j < i then j + 1 else j + 2];
    }
  }

  /** A node taken off one list can be put on another, and neither list disturbs the other. */
  method MoveHead(a: ThreadList, b: ThreadList)
    requires a.Valid() && b.Valid() && a != b && a.nodes != [] && a.Repr() !! b.Repr()
    modifies a, b, a.Repr(), b.Repr()
    ensures a.Valid() && b.Valid() && a.Repr() !! b.Repr()
    ensures a.nodes == old(a.nodes)[1..] && b.nodes == old(b.nodes) + [old(a.nodes)[0]]
  {
    assert a.nodes[0] in a.Repr();
    var t := a.RemHead();
    b.AddTail(t);
  }
}
