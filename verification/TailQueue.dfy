/** The TAILQ macros of server/queue.h.  A node's back link and the head's tail
    link are addresses of the pointer that points to the node after the slot: the
    head's first field or a node's next field. */
module TailQueue {
  import opened Splice

  /** The address of a forward pointer. */
  datatype Slot = Unset | FirstOf(head: Head) | NextOf(node: Node)

  class Node {
    var next: Node?
    var prev: Slot

    constructor ()
      ensures next == null && prev == Unset
    {
      next, prev := null, Unset;
    }
  }

  /** *slot */
  function Load(s: Slot): Node?
    reads if s.FirstOf? then {s.head} else if s.NextOf? then {s.node} else {}
  {
    match s
    case Unset => null
    case FirstOf(h) => h.first
    case NextOf(n) => n.next
  }

  /** The word after the slot: a head and a node's link entry have the same
      layout, which is what the last/prev trick relies on. */
  function SecondWord(s: Slot): Slot
    reads if s.FirstOf? then {s.head} else if s.NextOf? then {s.node} else {}
  {
    match s
    case Unset => Unset
    case FirstOf(h) => h.last
    case NextOf(n) => n.prev
  }

  /** *slot = x */
  method Store(s: Slot, x: Node?)
    modifies (if s.FirstOf? then {s.head} else {})`first, (if s.NextOf? then {s.node} else {})`next
    ensures s.FirstOf? ==> s.head.first == x
    ensures s.NextOf? ==> s.node.next == x
  {
    match s
    case Unset =>
    case FirstOf(h) => h.first := x;
    case NextOf(n) => n.next := x;
  }

  /** The node at position i, or the end. */
  ghost function NodeAt(ns: seq<Node>, i: nat): Node? {
    if i < |ns| then ns[i] else null
  }

  /** The slot that points to position i. */
  ghost function SlotAt(h: Head, ns: seq<Node>, i: nat): Slot
    requires i <= |ns|
  {
    if i == 0 then FirstOf(h) else NextOf(ns[i - 1])
  }

  ghost function Neighbours(ns: seq<Node>, k: nat): set<Node>
    requires k < |ns|
  {
    (if 0 < k then {ns[k - 1]} else {}) + (if k + 1 < |ns| then {ns[k + 1]} else {})
  }

  ghost predicate Apart(ns: seq<Node>, ms: seq<Node>) {
    forall i, j :: 0 <= i < |ns| && 0 <= j < |ms| ==> ns[i] != ms[j]
  }

  ghost function Without(ns: seq<Node>, doomed: set<Node>): seq<Node> {
    if ns == [] then []
    else (if ns[0] in doomed then [] else [ns[0]]) + Without(ns[1..], doomed)
  }

  /** The nodes are distinct, every forward pointer leads to the next position and
      every back link is the address of the pointer that leads here. */
  ghost predicate Linked(h: Head, ns: seq<Node>)
    reads h, ns
  {
    && Distinct(ns)
    && h.first == NodeAt(ns, 0)
    && h.last == SlotAt(h, ns, |ns|)
    && (forall i {:trigger ns[i].next} :: 0 <= i < |ns| ==> ns[i].next == NodeAt(ns, i + 1))
    && (forall i {:trigger ns[i].prev} :: 0 <= i < |ns| ==> ns[i].prev == SlotAt(h, ns, i))
  }

  /** If x has been put between positions k - 1 and k by changing just the links
      around it, the longer list is linked. */
  lemma LinkedAfterInsert(h: Head, ns: seq<Node>, k: nat, x: Node)
    requires Distinct(ns) && x !in ns && k <= |ns|
    requires h.first == if k == 0 then x else NodeAt(ns, 0)
    requires h.last == if k == |ns| then NextOf(x) else SlotAt(h, ns, |ns|)
    requires forall i {:trigger ns[i].next} :: 0 <= i < |ns| ==>
      ns[i].next == if i == k - 1 then x else NodeAt(ns, i + 1)
    requires forall i {:trigger ns[i].prev} :: 0 <= i < |ns| ==>
      ns[i].prev == if i == k then NextOf(x) else SlotAt(h, ns, i)
    requires x.next == NodeAt(ns, k) && x.prev == SlotAt(h, ns, k)
    ensures Linked(h, Inserted(ns, k, x))
  {
  }

  lemma LinkedAfterRemove(h: Head, ns: seq<Node>, k: nat)
    requires Distinct(ns) && k < |ns|
    requires h.first == NodeAt(ns, if k == 0 then 1 else 0)
    requires h.last == SlotAt(h, ns, if k == |ns| - 1 then k else |ns|)
    requires forall i {:trigger ns[i].next} :: 0 <= i < |ns| && i != k ==>
      ns[i].next == NodeAt(ns, if i == k - 1 then k + 1 else i + 1)
    requires forall i {:trigger ns[i].prev} :: 0 <= i < |ns| && i != k ==>
      ns[i].prev == SlotAt(h, ns, if i == k + 1 then k else i)
    ensures Linked(h, Removed(ns, k))
  {
  }

  lemma LinkedAfterReplace(h: Head, ns: seq<Node>, k: nat, x: Node)
    requires Distinct(ns) && x !in ns && k < |ns|
    requires h.first == if k == 0 then x else NodeAt(ns, 0)
    requires h.last == if k == |ns| - 1 then NextOf(x) else SlotAt(h, ns, |ns|)
    requires forall i {:trigger ns[i].next} :: 0 <= i < |ns| && i != k ==>
      ns[i].next == if i == k - 1 then x else NodeAt(ns, i + 1)
    requires forall i {:trigger ns[i].prev} :: 0 <= i < |ns| && i != k ==>
      ns[i].prev == if i == k + 1 then NextOf(x) else SlotAt(h, ns, i)
    requires x.next == NodeAt(ns, k + 1) && x.prev == SlotAt(h, ns, k)
    ensures Linked(h, ns[k := x])
  {
  }

  /** Two lists joined by changing just the links at the seam. */
  lemma LinkedAfterConcat(h: Head, h2: Head, ns: seq<Node>, ms: seq<Node>)
    requires Distinct(ns) && Distinct(ms) && Apart(ns, ms) && ms != []
    requires h.first == if ns == [] then ms[0] else ns[0]
    requires h.last == NextOf(ms[|ms| - 1])
    requires forall i {:trigger ns[i].next} :: 0 <= i < |ns| ==> ns[i].next == if i + 1 < |ns| then ns[i + 1] else ms[0]
    requires forall i {:trigger ns[i].prev} :: 0 <= i < |ns| ==> ns[i].prev == SlotAt(h, ns, i)
    requires forall j {:trigger ms[j].next} :: 0 <= j < |ms| ==> ms[j].next == NodeAt(ms, j + 1)
    requires forall j {:trigger ms[j].prev} :: 0 < j < |ms| ==> ms[j].prev == NextOf(ms[j - 1])
    requires ms[0].prev == SlotAt(h, ns, |ns|)
    ensures Linked(h, ns + ms)
  {
  }

  /** A list moved to another head, whose first back link follows. */
  lemma LinkedAfterMove(h: Head, ns: seq<Node>)
    requires Distinct(ns)
    requires h.first == NodeAt(ns, 0) && h.last == SlotAt(h, ns, |ns|)
    requires forall i {:trigger ns[i].next} :: 0 <= i < |ns| ==> ns[i].next == NodeAt(ns, i + 1)
    requires forall i {:trigger ns[i].prev} :: 0 < i < |ns| ==> ns[i].prev == NextOf(ns[i - 1])
    requires ns != [] ==> ns[0].prev == FirstOf(h)
    ensures Linked(h, ns)
  {
  }

  class Head {
    var first: Node?
    var last: Slot
    ghost var nodes: seq<Node>

    ghost predicate Valid()
      reads this, nodes
    {
      Linked(this, nodes)
    }

    /** TAILQ_INIT */
    constructor ()
      ensures Valid() && nodes == []
    {
      first := null;
      last := FirstOf(this);
      nodes := [];
    }

    /** TAILQ_INSERT_HEAD */
    method InsertHead(elm: Node)
      requires Valid() && elm !in nodes
      modifies this, elm, nodes
      ensures Valid() && nodes == [elm] + old(nodes)
    {
      elm.next := first;
      if elm.next != null {
        first.prev := NextOf(elm);
      } else {
        last := NextOf(elm);
      }
      first := elm;
      elm.prev := FirstOf(this);
      nodes := [elm] + nodes;
    }

    /** TAILQ_INSERT_TAIL */
    method InsertTail(elm: Node)
      requires Valid() && elm !in nodes
      modifies this, elm, nodes
      ensures Valid() && nodes == old(nodes) + [elm]
    {
      elm.next := null;
      elm.prev := last;
      Store(last, elm);
      last := NextOf(elm);
      nodes := nodes + [elm];
    }

    /** TAILQ_INSERT_BEFORE; k is where listelm is. */
    method InsertBefore(listelm: Node, elm: Node, ghost k: nat)
      requires Valid() && k < |nodes| && nodes[k] == listelm && elm !in nodes
      modifies this, elm, nodes
      ensures Valid() && nodes == Inserted(old(nodes), k, elm)
    {
      assert listelm.prev == SlotAt(this, nodes, k);
      elm.prev := listelm.prev;
      elm.next := listelm;
      Store(elm.prev, elm);
      assert elm.next == listelm && elm.prev == SlotAt(this, nodes, k);
      listelm.prev := NextOf(elm);
      LinkedAfterInsert(this, nodes, k, elm);
      nodes := Inserted(nodes, k, elm);
    }

    /** TAILQ_INSERT_AFTER */
    method InsertAfter(listelm: Node, elm: Node, ghost k: nat)
      requires Valid() && k < |nodes| && nodes[k] == listelm && elm !in nodes
      modifies this, elm, nodes
      ensures Valid() && nodes == Inserted(old(nodes), k + 1, elm)
    {
      elm.next := listelm.next;
      if elm.next != null {
        elm.next.prev := NextOf(elm);
      } else {
        last := NextOf(elm);
      }
      listelm.next := elm;
      elm.prev := NextOf(listelm);
      LinkedAfterInsert(this, nodes, k + 1, elm);
      nodes := Inserted(nodes, k + 1, elm);
    }

    /** TAILQ_REMOVE: writes to nothing but the head and the two neighbours. */
    method Remove(elm: Node, ghost k: nat)
      requires Valid() && k < |nodes| && nodes[k] == elm
      modifies this, Neighbours(nodes, k)
      ensures Valid() && nodes == Removed(old(nodes), k)
      ensures elm.next == old(elm.next) && elm.prev == old(elm.prev)
    {
      if elm.next != null {
        elm.next.prev := elm.prev;
      } else {
        last := elm.prev;
      }
      Store(elm.prev, elm.next);
      LinkedAfterRemove(this, nodes, k);
      nodes := Removed(nodes, k);
    }

    /** TAILQ_REMOVE undoes TAILQ_INSERT_BEFORE to the last link: the head and every
        node are as they were. */
    method InsertThenRemove(listelm: Node, elm: Node, ghost k: nat)
      requires Valid() && k < |nodes| && nodes[k] == listelm && elm !in nodes
      modifies this, elm, nodes
      ensures Valid() && nodes == old(nodes) && first == old(first) && last == old(last)
      ensures forall n <- nodes :: n.next == old(n.next) && n.prev == old(n.prev)
    {
      InsertBefore(listelm, elm, k);
      RemoveUndoesInsert(old(nodes), k, elm);
      Remove(elm, k);
      forall n <- nodes
        ensures n.next == old(n.next) && n.prev == old(n.prev)
      {
        ghost var i :| 0 <= i < |nodes| && nodes[i] == n;
        assert nodes[i].next == NodeAt(nodes, i + 1) == old(nodes[i].next);
        assert nodes[i].prev == SlotAt(this, nodes, i) == old(nodes[i].prev);
      }
    }

    /** TAILQ_REPLACE */
    method Replace(elm: Node, elm2: Node, ghost k: nat)
      requires Valid() && k < |nodes| && nodes[k] == elm && elm2 !in nodes
      modifies this, elm2, nodes
      ensures Valid() && nodes == old(nodes)[k := elm2]
    {
      elm2.next := elm.next;
      if elm2.next != null {
        elm2.next.prev := NextOf(elm2);
      } else {
        last := NextOf(elm2);
      }
      elm2.prev := elm.prev;
      Store(elm2.prev, elm2);
      LinkedAfterReplace(this, nodes, k, elm2);
      nodes := nodes[k := elm2];
    }

    /** TAILQ_EMPTY */
    predicate Empty()
      reads this
    {
      first == null
    }

    /** TAILQ_CONCAT: the second list is moved behind the first and left empty. */
    method Concat(head2: Head)
      requires head2 != this && Valid() && head2.Valid()
      requires Apart(nodes, head2.nodes)
      modifies this, head2, nodes, head2.nodes
      ensures Valid() && head2.Valid()
      ensures nodes == old(nodes) + old(head2.nodes) && head2.nodes == []
    {
      if !head2.Empty() {
        ghost var ns, ms := nodes, head2.nodes;
        Store(last, head2.first);
        head2.first.prev := last;
        last := head2.last;
        LinkedAfterConcat(this, head2, ns, ms);
        nodes := ns + ms;
        head2.first := null;
        head2.last := FirstOf(head2);
        head2.nodes := [];
      }
    }

    /** TAILQ_SWAP */
    method Swap(head2: Head)
      requires head2 != this && Valid() && head2.Valid()
      requires Apart(nodes, head2.nodes)
      modifies this, head2, nodes, head2.nodes
      ensures Valid() && head2.Valid()
      ensures nodes == old(head2.nodes) && head2.nodes == old(nodes)
    {
      var swapFirst, swapLast := first, last;
      first, last := head2.first, head2.last;
      head2.first, head2.last := swapFirst, swapLast;
      nodes, head2.nodes := head2.nodes, nodes;
      swapFirst := first;
      if swapFirst != null {
        swapFirst.prev := FirstOf(this);
      } else {
        last := FirstOf(this);
      }
      swapFirst := head2.first;
      if swapFirst != null {
        swapFirst.prev := FirstOf(head2);
      } else {
        head2.last := FirstOf(head2);
      }
      LinkedAfterMove(this, nodes);
      LinkedAfterMove(head2, head2.nodes);
    }

    /** TAILQ_LAST: the tail link read as a head, and its tail link followed. */
    method Last() returns (r: Node?)
      requires Valid()
      ensures r == if nodes == [] then null else nodes[|nodes| - 1]
    {
      r := Load(SecondWord(last));
    }

    /** TAILQ_PREV */
    method Prev(elm: Node, ghost k: nat) returns (r: Node?)
      requires Valid() && k < |nodes| && nodes[k] == elm
      ensures r == if k == 0 then null else nodes[k - 1]
    {
      r := Load(SecondWord(elm.prev));
    }

    /** TAILQ_FOREACH */
    method Forward() returns (visited: seq<Node>)
      requires Valid()
      ensures visited == nodes
    {
      visited := [];
      var v := first;
      while v != null
        invariant |visited| <= |nodes| && visited == nodes[..|visited|] && v == NodeAt(nodes, |visited|)
        decreases |nodes| - |visited|
      {
        assert nodes[|visited|].next == NodeAt(nodes, |visited| + 1);
        visited := visited + [v];
        v := v.next;
      }
    }

    /** TAILQ_FOREACH_REVERSE: exactly the reverse of the forward traversal. */
    method Backward() returns (visited: seq<Node>)
      requires Valid()
      ensures |visited| == |nodes|
      ensures forall i :: 0 <= i < |nodes| ==> visited[i] == nodes[|nodes| - 1 - i]
    {
      visited := [];
      ghost var left := |nodes|;
      var v := Last();
      while v != null
        invariant 0 <= left <= |nodes| && |visited| == |nodes| - left
        invariant forall i :: 0 <= i < |visited| ==> visited[i] == nodes[|nodes| - 1 - i]
        invariant v == if left == 0 then null else nodes[left - 1]
        decreases left
      {
        visited := visited + [v];
        v := Prev(v, left - 1);
        left := left - 1;
      }
    }

    /** TAILQ_NEXT */
    method Next(elm: Node, ghost k: nat) returns (r: Node?)
      requires Valid() && k < |nodes| && nodes[k] == elm
      ensures r == NodeAt(nodes, k + 1)
    {
      r := elm.next;
    }

    /** One round of TAILQ_FOREACH_SAFE with TAILQ_REMOVE in its body: the next
        node is read before the current one goes. */
    method Visit(v: Node, doomed: set<Node>, ghost k: nat) returns (next: Node?)
      requires Valid() && k < |nodes| && nodes[k] == v
      modifies this, Neighbours(nodes, k)
      ensures Valid() && nodes == if v in doomed then Removed(old(nodes), k) else old(nodes)
      ensures next == NodeAt(old(nodes), k + 1)
    {
      next := Next(v, k);
      if v in doomed {
        Remove(v, k);
      }
    }

    /** It leaves what has been kept so far, and the rest. */
    method Round(v: Node, doomed: set<Node>, ghost was: seq<Node>, ghost i: nat, ghost k: nat)
      returns (next: Node?, ghost k': nat)
      requires Valid() && Progress(was, i, nodes, k, doomed) && k < |nodes| && nodes[k] == v
      modifies this, Neighbours(nodes, k)
      ensures Valid() && Progress(was, i + 1, nodes, k', doomed) && next == NodeAt(nodes, k')
    {
      RoundStep(was, i, nodes, k, doomed);
      k' := if v in doomed then k else k + 1;
      next := Visit(v, doomed, k);
    }

    /** The whole traversal survives the removals and leaves exactly the other
        nodes, in order. */
    method RemoveEach(doomed: set<Node>)
      requires Valid()
      modifies this, nodes
      ensures Valid() && nodes == Without(old(nodes), doomed)
    {
      ghost var was := nodes;
      ghost var i: nat, k: nat := 0, 0;
      var v := first;
      while v != null
        invariant Valid() && i <= |was| && Progress(was, i, nodes, k, doomed) && v == NodeAt(nodes, k)
        decreases |was| - i
      {
        RoundStep(was, i, nodes, k, doomed);
        v, k := Round(v, doomed, was, i, k);
        i := i + 1;
      }
      ProgressDone(was, i, nodes, k, doomed);
    }
  }

  ghost predicate SubsetOf(ns: seq<Node>, ms: seq<Node>) {
    forall j :: 0 <= j < |ns| ==> ns[j] in ms
  }

  lemma WithoutStep(ns: seq<Node>, i: nat, doomed: set<Node>)
    requires i < |ns|
    ensures Without(ns[i..], doomed) == (if ns[i] in doomed then [] else [ns[i]]) + Without(ns[i + 1..], doomed)
  {
    assert ns[i..][1..] == ns[i + 1..];
  }

  lemma RemovedParts(ns: seq<Node>, k: nat)
    requires k < |ns|
    ensures Removed(ns, k)[..k] == ns[..k] && Removed(ns, k)[k..] == ns[k + 1..]
  {
  }

  lemma SuffixStep(was: seq<Node>, i: nat, now: seq<Node>, k: nat)
    requires i <= |was| && k < |now| && now[k..] == was[i..]
    ensures i < |was| && now[k] == was[i] && now[k + 1..] == was[i + 1..]
    ensures now[..k + 1] == now[..k] + [now[k]]
  {
    assert now[k..][0] == was[i..][0];
    assert now[k..][1..] == was[i..][1..];
  }

  lemma RemovedSubset(ns: seq<Node>, k: nat, ms: seq<Node>)
    requires k < |ns| && SubsetOf(ns, ms)
    ensures SubsetOf(Removed(ns, k), ms)
  {
  }

  /** The invariant of the traversal: what is kept so far, then the rest. */
  ghost predicate Progress(was: seq<Node>, i: nat, now: seq<Node>, k: nat, doomed: set<Node>) {
    && i <= |was| && k <= |now| && now[k..] == was[i..] && SubsetOf(now, was)
    && Without(was, doomed) == now[..k] + Without(was[i..], doomed)
  }

  lemma ProgressDone(was: seq<Node>, i: nat, now: seq<Node>, k: nat, doomed: set<Node>)
    requires Progress(was, i, now, k, doomed) && NodeAt(now, k) == null
    ensures now == Without(was, doomed)
  {
    assert now[k..] == [] == was[i..];
  }

  lemma RoundStep(was: seq<Node>, i: nat, now: seq<Node>, k: nat, doomed: set<Node>)
    requires Progress(was, i, now, k, doomed) && k < |now|
    ensures i < |was|
    ensures now[k] in doomed ==> Progress(was, i + 1, Removed(now, k), k, doomed)
    ensures now[k] in doomed ==> NodeAt(Removed(now, k), k) == NodeAt(now, k + 1)
    ensures now[k] !in doomed ==> Progress(was, i + 1, now, k + 1, doomed)
    ensures forall n <- Neighbours(now, k) :: n in was
  {
    SuffixStep(was, i, now, k);
    WithoutStep(was, i, doomed);
    if now[k] in doomed {
      RemovedParts(now, k);
      RemovedSubset(now, k, was);
    } else {
      var rest := Without(was[i + 1..], doomed);
      assert now[..k] + ([now[k]] + rest) == (now[..k] + [now[k]]) + rest;
    }
  }
}
