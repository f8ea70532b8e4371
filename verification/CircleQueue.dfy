/** The CIRCLEQ macros of server/queue.h: a two-way ring through the head, which
    a cast lets stand in for a node at both ends. */
module CircleQueue {
  import opened Splice

  datatype Link = Unset | ToHead(head: Head) | ToNode(node: Node)

  class Node {
    var next: Link
    var prev: Link

    constructor ()
      ensures next == Unset && prev == Unset
    {
      next, prev := Unset, Unset;
    }
  }

  /** The member at position i; on either side of the members stands the head. */
  ghost function LinkAt(h: Head, ns: seq<Node>, i: int): Link {
    if 0 <= i < |ns| then ToNode(ns[i]) else ToHead(h)
  }

  /** The ring: from the head through the members in order and back, both ways. */
  ghost predicate Linked(h: Head, ns: seq<Node>)
    reads h, ns
  {
    && Distinct(ns)
    && h.first == LinkAt(h, ns, 0)
    && h.last == LinkAt(h, ns, |ns| - 1)
    && (forall i {:trigger ns[i].next} :: 0 <= i < |ns| ==> ns[i].next == LinkAt(h, ns, i + 1))
    && (forall i {:trigger ns[i].prev} :: 0 <= i < |ns| ==> ns[i].prev == LinkAt(h, ns, i - 1))
  }

  /** The links of all members. */
  ghost function LinksOf(ns: seq<Node>): seq<(Link, Link)>
    reads ns
  {
    seq(|ns|, i requires 0 <= i < |ns| reads ns => (ns[i].next, ns[i].prev))
  }

  ghost function RingLinks(h: Head, ns: seq<Node>): seq<(Link, Link)> {
    seq(|ns|, i => (LinkAt(h, ns, i + 1), LinkAt(h, ns, i - 1)))
  }

  /** Head and members determine them. */
  lemma LinksAreRing(h: Head, ns: seq<Node>)
    requires Linked(h, ns)
    ensures LinksOf(ns) == RingLinks(h, ns)
  {
  }

  /** If just the links around x have been changed, the longer ring is linked. */
  lemma LinkedAfterInsert(h: Head, ns: seq<Node>, k: nat, x: Node)
    requires Distinct(ns) && x !in ns && k <= |ns|
    requires h.first == if k == 0 then ToNode(x) else LinkAt(h, ns, 0)
    requires h.last == if k == |ns| then ToNode(x) else LinkAt(h, ns, |ns| - 1)
    requires forall i {:trigger ns[i].next} :: 0 <= i < |ns| ==>
      ns[i].next == if i == k - 1 then ToNode(x) else LinkAt(h, ns, i + 1)
    requires forall i {:trigger ns[i].prev} :: 0 <= i < |ns| ==>
      ns[i].prev == if i == k then ToNode(x) else LinkAt(h, ns, i - 1)
    requires x.next == LinkAt(h, ns, k) && x.prev == LinkAt(h, ns, k - 1)
    ensures Linked(h, Inserted(ns, k, x))
  {
  }

  lemma LinkedAfterRemove(h: Head, ns: seq<Node>, k: nat)
    requires Distinct(ns) && k < |ns|
    requires h.first == LinkAt(h, ns, if k == 0 then 1 else 0)
    requires h.last == LinkAt(h, ns, if k == |ns| - 1 then k - 1 else |ns| - 1)
    requires forall i {:trigger ns[i].next} :: 0 <= i < |ns| && i != k ==>
      ns[i].next == LinkAt(h, ns, if i == k - 1 then k + 1 else i + 1)
    requires forall i {:trigger ns[i].prev} :: 0 <= i < |ns| && i != k ==>
      ns[i].prev == LinkAt(h, ns, if i == k + 1 then k - 1 else i - 1)
    ensures Linked(h, Removed(ns, k))
  {
  }

  class Head {
    var first: Link
    var last: Link
    ghost var nodes: seq<Node>

    ghost predicate Valid()
      reads this, nodes
    {
      Linked(this, nodes)
    }

    /** CIRCLEQ_INIT */
    constructor ()
      ensures Valid() && nodes == []
    {
      first, last := ToHead(this), ToHead(this);
      nodes := [];
    }

    /** CIRCLEQ_INSERT_HEAD */
    method InsertHead(elm: Node)
      requires Valid() && elm !in nodes
      modifies this, elm, nodes
      ensures Valid() && nodes == [elm] + old(nodes)
    {
      elm.next := first;
      elm.prev := ToHead(this);
      if last == ToHead(this) {
        last := ToNode(elm);
      } else {
        assert first == ToNode(nodes[0]);
        first.node.prev := ToNode(elm);
      }
      first := ToNode(elm);
      LinkedAfterInsert(this, nodes, 0, elm);
      assert Inserted(nodes, 0, elm) == [elm] + nodes;
      nodes := [elm] + nodes;
    }

    /** CIRCLEQ_INSERT_TAIL */
    method InsertTail(elm: Node)
      requires Valid() && elm !in nodes
      modifies this, elm, nodes
      ensures Valid() && nodes == old(nodes) + [elm]
    {
      elm.next := ToHead(this);
      elm.prev := last;
      if first == ToHead(this) {
        first := ToNode(elm);
      } else {
        assert last == ToNode(nodes[|nodes| - 1]);
        last.node.next := ToNode(elm);
      }
      last := ToNode(elm);
      LinkedAfterInsert(this, nodes, |nodes|, elm);
      assert Inserted(nodes, |nodes|, elm) == nodes + [elm];
      nodes := nodes + [elm];
    }

    /** CIRCLEQ_INSERT_BEFORE; k is where listelm is. */
    method InsertBefore(listelm: Node, elm: Node, ghost k: nat)
      requires Valid() && k < |nodes| && nodes[k] == listelm && elm !in nodes
      modifies this, elm, nodes
      ensures Valid() && nodes == Inserted(old(nodes), k, elm)
    {
      assert listelm.prev == LinkAt(this, nodes, k - 1);
      elm.next := ToNode(listelm);
      elm.prev := listelm.prev;
      if listelm.prev == ToHead(this) {
        first := ToNode(elm);
      } else {
        listelm.prev.node.next := ToNode(elm);
      }
      listelm.prev := ToNode(elm);
      LinkedAfterInsert(this, nodes, k, elm);
      nodes := Inserted(nodes, k, elm);
    }

    /** CIRCLEQ_INSERT_AFTER */
    method InsertAfter(listelm: Node, elm: Node, ghost k: nat)
      requires Valid() && k < |nodes| && nodes[k] == listelm && elm !in nodes
      modifies this, elm, nodes
      ensures Valid() && nodes == Inserted(old(nodes), k + 1, elm)
    {
      assert listelm.next == LinkAt(this, nodes, k + 1);
      elm.next := listelm.next;
      elm.prev := ToNode(listelm);
      if listelm.next == ToHead(this) {
        last := ToNode(elm);
      } else {
        listelm.next.node.prev := ToNode(elm);
      }
      listelm.next := ToNode(elm);
      LinkedAfterInsert(this, nodes, k + 1, elm);
      nodes := Inserted(nodes, k + 1, elm);
    }

    /** CIRCLEQ_REMOVE */
    method Remove(elm: Node, ghost k: nat)
      requires Valid() && k < |nodes| && nodes[k] == elm
      modifies this, nodes
      ensures Valid() && nodes == Removed(old(nodes), k)
      ensures elm.next == old(elm.next) && elm.prev == old(elm.prev)
    {
      assert elm.next == LinkAt(this, nodes, k + 1) && elm.prev == LinkAt(this, nodes, k - 1);
      if elm.next == ToHead(this) {
        last := elm.prev;
      } else {
        elm.next.node.prev := elm.prev;
      }
      if elm.prev == ToHead(this) {
        first := elm.next;
      } else {
        elm.prev.node.next := elm.next;
      }
      LinkedAfterRemove(this, nodes, k);
      nodes := Removed(nodes, k);
    }

    /** CIRCLEQ_REMOVE undoes CIRCLEQ_INSERT_BEFORE to the last link. */
    method InsertThenRemove(listelm: Node, elm: Node, ghost k: nat)
      requires Valid() && k < |nodes| && nodes[k] == listelm && elm !in nodes
      modifies this, elm, nodes
      ensures Valid() && nodes == old(nodes) && first == old(first) && last == old(last)
      ensures LinksOf(nodes) == old(LinksOf(nodes))
    {
      LinksAreRing(this, nodes);
      InsertBefore(listelm, elm, k);
      RemoveUndoesInsert(old(nodes), k, elm);
      Remove(elm, k);
      assert nodes == old(nodes);
      LinksAreRing(this, nodes);
    }

    /** CIRCLEQ_LOOP_NEXT: never the head; from the last member to the first. */
    method LoopNext(elm: Node, ghost k: nat) returns (r: Node)
      requires Valid() && k < |nodes| && nodes[k] == elm
      ensures r == nodes[Forth(k, |nodes|)]
    {
      assert elm.next == LinkAt(this, nodes, k + 1);
      if elm.next == ToHead(this) {
        r := first.node;
      } else {
        r := elm.next.node;
      }
    }

    /** CIRCLEQ_LOOP_PREV */
    method LoopPrev(elm: Node, ghost k: nat) returns (r: Node)
      requires Valid() && k < |nodes| && nodes[k] == elm
      ensures r == nodes[Back(k, |nodes|)]
    {
      assert elm.prev == LinkAt(this, nodes, k - 1);
      if elm.prev == ToHead(this) {
        r := last.node;
      } else {
        r := elm.prev.node;
      }
    }

    /** As many LOOP_NEXT steps as there are members, from any member, visit each
        member exactly once and end where they began. */
    method Tour(elm: Node, steps: nat, ghost k: nat) returns (visited: seq<Node>, end: Node)
      requires Valid() && k < |nodes| && nodes[k] == elm && steps == |nodes|
      ensures end == elm && visited == nodes[k..] + nodes[..k]
    {
      visited, end := [], elm;
      ghost var at := k;
      for i := 0 to steps
        invariant at == (if k + i < |nodes| then k + i else k + i - |nodes|) && at < |nodes| && end == nodes[at]
        invariant |visited| == i && visited == (nodes[k..] + nodes[..k])[..i]
      {
        visited := visited + [end];
        end := LoopNext(end, at);
        at := Forth(at, |nodes|);
      }
    }

    /** LOOP_NEXT and LOOP_PREV undo each other on every member. */
    method ThereAndBack(elm: Node, ghost k: nat) returns (a: Node, b: Node)
      requires Valid() && k < |nodes| && nodes[k] == elm
      ensures a == elm && b == elm
    {
      a := LoopNext(elm, k);
      a := LoopPrev(a, Forth(k, |nodes|));
      b := LoopPrev(elm, k);
      b := LoopNext(b, Back(k, |nodes|));
    }
  }

  function Forth(k: nat, n: nat): (r: nat)
    requires k < n
    ensures r < n && Back(r, n) == k
  {
    if k + 1 == n then 0 else k + 1
  }

  function Back(k: nat, n: nat): (r: nat)
    requires k < n
    ensures r < n && (if r + 1 == n then 0 else r + 1) == k
  {
    if k == 0 then n - 1 else k - 1
  }
}
