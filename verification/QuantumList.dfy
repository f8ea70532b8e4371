/** A list of items, each with a table of pointers to quanta: the memory behind a
    scull device. */
module QuantumList {
  import opened Ring
  import opened Splice
  import opened QuantumAddress

  /** struct scull_qset */
  class Item {
    var data: array?<array?<byte>>
    var next: Item?

    /** kmalloc() and memset() to zero */
    constructor ()
      ensures data == null && next == null
    {
      data, next := null, null;
    }
  }

  /** The quanta present, by item and slot. */
  type Quanta = map<(nat, nat), array<byte>>

  ghost function NodeAt(ns: seq<Item>, i: nat): Item? {
    if i < |ns| then ns[i] else null
  }

  ghost function Lookup(quanta: Quanta, i: nat, s: nat): array?<byte> {
    if (i, s) in quanta then quanta[(i, s)] else null
  }

  ghost predicate Chain(first: Item?, ns: seq<Item>)
    reads ns`next
  {
    && Distinct(ns)
    && first == NodeAt(ns, 0)
    && forall i {:trigger ns[i].next} :: 0 <= i < |ns| ==> ns[i].next == NodeAt(ns, i + 1)
  }

  /** Item number i points to exactly the quanta recorded for it. */
  ghost predicate ItemHolds(n: Item, i: nat, quanta: Quanta, qset: nat)
    reads n`data, n.data
  {
    if n.data == null then forall s: nat :: (i, s) !in quanta
    else n.data.Length == qset && forall s :: 0 <= s < qset ==> n.data[s] == Lookup(quanta, i, s)
  }

  /** Each table is in the set, belongs to one item and points to its quanta. */
  ghost predicate Tables(ns: seq<Item>, tables: set<array<array?<byte>>>, quanta: Quanta, qset: nat)
    reads ns`data, tables
  {
    && (forall i {:trigger ns[i].data} :: 0 <= i < |ns| ==> ns[i].data == null || ns[i].data in tables)
    && (forall i {:trigger ItemHolds(ns[i], i, quanta, qset)} :: 0 <= i < |ns| ==> ItemHolds(ns[i], i, quanta, qset))
    && (forall i, j {:trigger ns[i].data, ns[j].data} :: 0 <= i < j < |ns| && ns[i].data != null ==>
          ns[i].data != ns[j].data)
    && (forall t <- tables :: exists i :: 0 <= i < |ns| && ns[i].data == t)
  }

  /** The quanta are apart from each other, not too large and within the list. */
  ghost predicate Separate(quanta: Quanta, n: nat, qset: nat, quantum: nat) {
    && (forall k <- quanta :: k.0 < n && k.1 < qset && quanta[k].Length <= quantum)
    && (forall k, l :: k in quanta && l in quanta && k != l ==> quanta[k] != quanta[l])
  }

  /** Those of the first item have one size, those of later items another. */
  ghost predicate Sized(quanta: Quanta, head: nat, tail: nat) {
    forall k <- quanta :: quanta[k].Length == if k.0 == 0 then head else tail
  }

  lemma SizedAfter(quanta: Quanta, head: nat, tail: nat, i: nat, s: nat, q: array<byte>)
    requires Sized(quanta, head, tail) && q.Length == if i == 0 then head else tail
    ensures Sized(quanta[(i, s) := q], head, tail)
  {
  }

  datatype Option<T> = None | Some(value: T)

  /** The byte at a place, if there is a quantum. */
  ghost function ByteAt(quanta: Quanta, p: Place): Option<byte>
    reads quanta.Values
  {
    if (p.item, p.slot) in quanta && p.offset < quanta[(p.item, p.slot)].Length
    then Some(quanta[(p.item, p.slot)][p.offset])
    else None
  }

  /** The byte at a position, if the position is not in a hole. */
  ghost function Found(quanta: Quanta, quantum: nat, qset: nat, pos: nat): Option<byte>
    requires Geometry(quantum, qset)
    reads quanta.Values
  {
    ByteAt(quanta, PlaceOf(quantum, qset, pos))
  }

  /** The quanta hold the content, and a position without one is in no quantum. */
  ghost predicate Holding(quanta: Quanta, quantum: nat, qset: nat, content: map<nat, byte>)
    requires Geometry(quantum, qset)
    reads quanta.Values
  {
    forall p: nat {:trigger Found(quanta, quantum, qset, p)} ::
      Found(quanta, quantum, qset, p) == if p in content then Some(content[p]) else None
  }

  // ---------- what each change does ----------

  /** Growing the list by an empty item. */
  lemma ChainGrows(first: Item?, ns: seq<Item>, x: Item)
    requires Distinct(ns) && x !in ns && x.next == null
    requires first == if ns == [] then x else ns[0]
    requires forall i {:trigger ns[i].next} :: 0 <= i < |ns| ==> ns[i].next == if i + 1 < |ns| then ns[i + 1] else x
    ensures Chain(first, ns + [x])
  {
  }

  /** qs->next = n */
  method LinkAfter(qs: Item, n: Item, ghost first: Item?, ghost ns: seq<Item>)
    requires Chain(first, ns) && ns != [] && ns[|ns| - 1] == qs && n !in ns && n.next == null
    modifies qs`next
    ensures Chain(first, ns + [n])
  {
    qs.next := n;
    forall i {:trigger ns[i].next} | 0 <= i < |ns|
      ensures ns[i].next == if i + 1 < |ns| then ns[i + 1] else n
    {
      assert i + 1 < |ns| ==> ns[i] != qs;
    }
    ChainGrows(first, ns, n);
  }

  lemma TablesGrow(ns: seq<Item>, tables: set<array<array?<byte>>>, quanta: Quanta, qset: nat, quantum: nat, x: Item)
    requires Tables(ns, tables, quanta, qset) && Separate(quanta, |ns|, qset, quantum) && x.data == null
    ensures Tables(ns + [x], tables, quanta, qset) && Separate(quanta, |ns| + 1, qset, quantum)
  {
    var ms := ns + [x];
    forall t <- tables
      ensures exists i :: 0 <= i < |ms| && ms[i].data == t
    {
      var i :| 0 <= i < |ns| && ns[i].data == t;
      assert ms[i].data == t;
    }
    forall i | 0 <= i < |ms|
      ensures ItemHolds(ms[i], i, quanta, qset)
    {
      if i < |ns| {
        assert ItemHolds(ns[i], i, quanta, qset);
      } else {
        assert forall s: nat :: (|ns|, s) !in quanta;
      }
    }
    forall i, j {:trigger ms[i].data, ms[j].data} | 0 <= i < j < |ms| && ms[i].data != null
      ensures ms[i].data != ms[j].data
    {
      assert ms[i] == ns[i];
      if j < |ns| {
        assert ms[j] == ns[j];
      }
    }
  }

  /** Item i, which had no table, has got an empty one. */
  lemma TableInstalled(ns: seq<Item>, tables: set<array<array?<byte>>>, quanta: Quanta, qset: nat, i: nat,
                       t: array<array?<byte>>)
    requires i < |ns| && ns[i].data == t && t !in tables && t.Length == qset
    requires forall s :: 0 <= s < qset ==> t[s] == null
    requires forall s: nat :: (i, s) !in quanta
    requires forall j {:trigger ns[j].data} :: 0 <= j < |ns| && j != i ==> ns[j].data == null || ns[j].data in tables
    requires forall j {:trigger ItemHolds(ns[j], j, quanta, qset)} :: 0 <= j < |ns| && j != i ==>
      ItemHolds(ns[j], j, quanta, qset)
    requires forall j, k {:trigger ns[j].data, ns[k].data} ::
      0 <= j < k < |ns| && j != i && k != i && ns[j].data != null ==> ns[j].data != ns[k].data
    requires forall u <- tables :: exists j :: 0 <= j < |ns| && ns[j].data == u
    ensures Tables(ns, tables + {t}, quanta, qset)
  {
    forall j | 0 <= j < |ns|
      ensures ItemHolds(ns[j], j, quanta, qset)
    {
      assert j != i ==> ItemHolds(ns[j], j, quanta, qset);
    }
    forall j, k {:trigger ns[j].data, ns[k].data} | 0 <= j < k < |ns| && ns[j].data != null
      ensures ns[j].data != ns[k].data
    {
      if j == i {
        assert ns[k].data == null || ns[k].data in tables;
      } else if k == i {
        assert ns[j].data in tables;
      }
    }
    forall u <- tables + {t}
      ensures exists j :: 0 <= j < |ns| && ns[j].data == u
    {
      if u == t {
        assert ns[i].data == t;
      }
    }
  }

  lemma ValuesAfter<K, V>(m: map<K, V>, k: K, v: V)
    requires k !in m
    ensures m[k := v].Values == m.Values + {v}
  {
    forall b <- m.Values
      ensures b in m[k := v].Values
    {
      var l :| l in m && m[l] == b;
      assert l in m[k := v] && m[k := v][l] == b;
    }
    assert k in m[k := v] && m[k := v][k] == v;
  }

  lemma SeparateAfter(quanta: Quanta, n: nat, qset: nat, quantum: nat, i: nat, s: nat, q: array<byte>)
    requires Separate(quanta, n, qset, quantum) && i < n && s < qset && (i, s) !in quanta
    requires q !in quanta.Values && q.Length <= quantum
    ensures Separate(quanta[(i, s) := q], n, qset, quantum)
  {
    var quanta' := quanta[(i, s) := q];
    forall k, l | k in quanta' && l in quanta' && k != l
      ensures quanta'[k] != quanta'[l]
    {
      if k == (i, s) {
        assert quanta'[l] in quanta.Values;
      } else if l == (i, s) {
        assert quanta'[k] in quanta.Values;
      }
    }
  }

  /** An item without the new quantum holds what it held. */
  lemma StillHolds(n: Item, j: nat, quanta: Quanta, qset: nat, i: nat, s: nat, q: array<byte>)
    requires ItemHolds(n, j, quanta, qset) && j != i
    ensures ItemHolds(n, j, quanta[(i, s) := q], qset)
  {
    assert forall t: nat :: Lookup(quanta[(i, s) := q], j, t) == Lookup(quanta, j, t);
    assert forall t: nat :: (j, t) in quanta[(i, s) := q] <==> (j, t) in quanta;
  }

  lemma NowHolds(n: Item, quanta: Quanta, qset: nat, i: nat, s: nat, q: array<byte>)
    requires n.data != null && n.data.Length == qset && s < qset
    requires forall t :: 0 <= t < qset ==> n.data[t] == if t == s then q else Lookup(quanta, i, t)
    ensures ItemHolds(n, i, quanta[(i, s) := q], qset)
  {
    forall t | 0 <= t < qset
      ensures n.data[t] == Lookup(quanta[(i, s) := q], i, t)
    {
      var after := quanta[(i, s) := q];
      assert t != s ==> ((i, t) in after <==> (i, t) in quanta) && Lookup(after, i, t) == Lookup(quanta, i, t);
    }
  }

  /** Slot s of item i, which was empty, has got a quantum. */
  lemma QuantumInstalled(ns: seq<Item>, tables: set<array<array?<byte>>>, quanta: Quanta, qset: nat, i: nat, s: nat,
                         q: array<byte>)
    requires i < |ns| && s < qset && (i, s) !in quanta
    requires ns[i].data != null && ns[i].data in tables && ns[i].data.Length == qset
    requires forall t :: 0 <= t < qset ==> ns[i].data[t] == if t == s then q else Lookup(quanta, i, t)
    requires forall j {:trigger ns[j].data} :: 0 <= j < |ns| ==> ns[j].data == null || ns[j].data in tables
    requires forall j {:trigger ItemHolds(ns[j], j, quanta, qset)} :: 0 <= j < |ns| && j != i ==>
      ItemHolds(ns[j], j, quanta, qset)
    requires forall j, k {:trigger ns[j].data, ns[k].data} ::
      0 <= j < k < |ns| && ns[j].data != null ==> ns[j].data != ns[k].data
    requires forall u <- tables :: exists j :: 0 <= j < |ns| && ns[j].data == u
    ensures Tables(ns, tables, quanta[(i, s) := q], qset)
  {
    forall j | 0 <= j < |ns|
      ensures ItemHolds(ns[j], j, quanta[(i, s) := q], qset)
    {
      if j != i {
        StillHolds(ns[j], j, quanta, qset, i, s, q);
      } else {
        NowHolds(ns[i], quanta, qset, i, s, q);
      }
    }
  }

  /** A table for item i, with all slots empty. */
  method MakeTable(dptr: Item, qset: nat, ghost i: nat, ghost ns: seq<Item>, ghost tables: set<array<array?<byte>>>,
                   ghost quanta: Quanta)
    returns (t: array<array?<byte>>)
    requires Tables(ns, tables, quanta, qset) && i < |ns| && ns[i] == dptr && dptr.data == null && Distinct(ns)
    modifies dptr`data
    ensures fresh(t) && dptr.data == t && Tables(ns, tables + {t}, quanta, qset)
  {
    assert ItemHolds(ns[i], i, quanta, qset);
    t := new array?<byte>[qset](_ => null);
    dptr.data := t;
    forall j | 0 <= j < |ns| && j != i
      ensures ItemHolds(ns[j], j, quanta, qset)
    {
      assert old(ItemHolds(ns[j], j, quanta, qset));
      assert old(ns[j].data == null || ns[j].data in tables) && ns[j] != ns[i];
    }
    TableInstalled(ns, tables, quanta, qset, i, t);
  }

  /** A quantum put into slot s of item i. */
  method PutQuantum(dptr: Item, q: array<byte>, qset: nat, ghost quantum: nat, ghost i: nat, s: nat,
                    ghost ns: seq<Item>, ghost tables: set<array<array?<byte>>>, ghost quanta: Quanta)
    requires Tables(ns, tables, quanta, qset) && Separate(quanta, |ns|, qset, quantum)
    requires i < |ns| && ns[i] == dptr && dptr.data != null && s < qset && dptr.data.Length == qset
    requires (i, s) !in quanta && q !in quanta.Values && q.Length <= quantum
    modifies dptr.data
    ensures Tables(ns, tables, quanta[(i, s) := q], qset) && Separate(quanta[(i, s) := q], |ns|, qset, quantum)
    ensures quanta[(i, s) := q].Values == quanta.Values + {q}
  {
    assert ItemHolds(ns[i], i, quanta, qset);
    dptr.data[s] := q;
    forall j | 0 <= j < |ns| && j != i
      ensures ItemHolds(ns[j], j, quanta, qset)
    {
      assert old(ItemHolds(ns[j], j, quanta, qset));
      assert ns[j].data != null ==> ns[j].data != ns[i].data;
    }
    QuantumInstalled(ns, tables, quanta, qset, i, s, q);
    SeparateAfter(quanta, |ns|, qset, quantum, i, s, q);
    ValuesAfter(quanta, (i, s), q);
  }

  /** Looking a place up through the list finds the quantum recorded for it. */
  lemma TableTells(ns: seq<Item>, tables: set<array<array?<byte>>>, quanta: Quanta, qset: nat, quantum: nat,
                   i: nat, s: nat)
    requires Tables(ns, tables, quanta, qset) && Separate(quanta, |ns|, qset, quantum) && i < |ns| && s < qset
    ensures ns[i].data != null ==> ns[i].data in tables && ns[i].data.Length == qset
    ensures ns[i].data != null ==> ns[i].data[s] == Lookup(quanta, i, s)
    ensures ns[i].data == null ==> Lookup(quanta, i, s) == null
  {
    assert ItemHolds(ns[i], i, quanta, qset);
  }

  /** A new quantum shows in its own place only. */
  lemma ByteAtAfterInstall(before: Quanta, key: (nat, nat), q: array<byte>, place: Place)
    requires key !in before
    ensures ByteAt(before[key := q], place) ==
      if (place.item, place.slot) != key then ByteAt(before, place)
      else if place.offset < q.Length then Some(q[place.offset])
      else None
  {
  }

  // ---------- bytes in place ----------

  /** w with data written from pos on. */
  ghost function Overlay(w: map<nat, byte>, pos: nat, data: seq<byte>): map<nat, byte>
    decreases |data|
  {
    if data == [] then w else Overlay(w[pos := data[0]], pos + 1, data[1..])
  }

  lemma {:induction false} OverlayAt(w: map<nat, byte>, pos: nat, data: seq<byte>, p: nat)
    ensures p in Overlay(w, pos, data) <==> p in w || pos <= p < pos + |data|
    ensures p in Overlay(w, pos, data) ==>
      Overlay(w, pos, data)[p] == if pos <= p < pos + |data| then data[p - pos] else w[p]
    decreases |data|
  {
    if data != [] {
      OverlayAt(w[pos := data[0]], pos + 1, data[1..], p);
    }
  }

  lemma OverlayEverywhere(w: map<nat, byte>, pos: nat, data: seq<byte>)
    ensures forall p: nat :: p in Overlay(w, pos, data) <==> p in w || pos <= p < pos + |data|
    ensures forall p <- Overlay(w, pos, data) ::
              Overlay(w, pos, data)[p] == if pos <= p < pos + |data| then data[p - pos] else w[p]
  {
    forall p: nat
      ensures p in Overlay(w, pos, data) <==> p in w || pos <= p < pos + |data|
      ensures p in Overlay(w, pos, data) ==>
        Overlay(w, pos, data)[p] == if pos <= p < pos + |data| then data[p - pos] else w[p]
    {
      OverlayAt(w, pos, data, p);
    }
  }

  /** Two writes one after the other are one write of both. */
  lemma {:induction false} OverlayTwice(w: map<nat, byte>, pos: nat, a: seq<byte>, b: seq<byte>)
    ensures Overlay(Overlay(w, pos, a), pos + |a|, b) == Overlay(w, pos, a + b)
    decreases |a|
  {
    if a == [] {
      assert a + b == b;
    } else {
      OverlayTwice(w[pos := a[0]], pos + 1, a[1..], b);
      assert (a + b)[1..] == a[1..] + b;
    }
  }

  /** The first n bytes of a buffer. */
  ghost function OverlayTo(w: map<nat, byte>, pos: nat, data: seq<byte>, n: nat): map<nat, byte>
    requires n <= |data|
  {
    Overlay(w, pos, data[..n])
  }

  lemma OverlayNone(w: map<nat, byte>, pos: nat, data: seq<byte>)
    ensures OverlayTo(w, pos, data, 0) == w
  {
    assert data[..0] == [];
  }

  lemma OverlayAll(w: map<nat, byte>, pos: nat, data: seq<byte>)
    ensures OverlayTo(w, pos, data, |data|) == Overlay(w, pos, data)
  {
    assert data[..|data|] == data;
  }

  /** The next bytes after the first ones. */
  lemma OverlayNext(w: map<nat, byte>, pos: nat, data: seq<byte>, done: nat, n: nat)
    requires done + n <= |data|
    ensures Overlay(OverlayTo(w, pos, data, done), pos + done, data[done..][..n]) == OverlayTo(w, pos, data, done + n)
  {
    TakeMore(data, done, n);
    OverlayTwice(w, pos, data[..done], data[done..][..n]);
  }

  function Zeros(n: nat): (z: seq<byte>)
    ensures |z| == n && forall i :: 0 <= i < n ==> z[i] == 0
  {
    seq(n, _ => 0)
  }

  /** What is read where a buffer was written is the buffer. */
  lemma ReadsBack(w: map<nat, byte>, pos: nat, buf: seq<byte>, r: seq<byte>)
    requires |r| == |buf|
    requires forall p: nat :: pos <= p < pos + |r| && p in Overlay(w, pos, buf) ==>
      r[p - pos] == Overlay(w, pos, buf)[p]
    ensures r == buf
  {
    forall i | 0 <= i < |buf|
      ensures r[i] == buf[i]
    {
      OverlayAt(w, pos, buf, pos + i);
      assert r[pos + i - pos] == Overlay(w, pos, buf)[pos + i];
    }
  }

  // ---------- freeing ----------

  /** The quanta from slot s of item k on. */
  ghost function QuantaFrom(quanta: Quanta, k: nat, s: nat): set<array<byte>> {
    set key | key in quanta && (key.0 > k || (key.0 == k && key.1 >= s)) :: quanta[key]
  }

  /** Freeing one quantum leaves exactly the later ones. */
  lemma QuantaFromStep(quanta: Quanta, n: nat, qset: nat, quantum: nat, k: nat, s: nat)
    requires Separate(quanta, n, qset, quantum)
    ensures (k, s) in quanta ==> quanta[(k, s)] in QuantaFrom(quanta, k, s)
    ensures QuantaFrom(quanta, k, s + 1) ==
      QuantaFrom(quanta, k, s) - (if (k, s) in quanta then {quanta[(k, s)]} else {})
  {
  }

  lemma QuantaFromNextItem(quanta: Quanta, n: nat, qset: nat, quantum: nat, k: nat)
    requires Separate(quanta, n, qset, quantum)
    ensures QuantaFrom(quanta, k, qset) == QuantaFrom(quanta, k + 1, 0)
    ensures QuantaFrom(quanta, 0, 0) == quanta.Values && QuantaFrom(quanta, n, 0) == {}
    ensures (forall s: nat :: (k, s) !in quanta) ==> QuantaFrom(quanta, k, 0) == QuantaFrom(quanta, k + 1, 0)
  {
  }

  ghost function TableList(ns: seq<Item>): (ts: seq<array?<array?<byte>>>)
    reads ns
    ensures |ts| == |ns| && forall i :: 0 <= i < |ns| ==> ts[i] == ns[i].data
  {
    seq(|ns|, i requires 0 <= i < |ns| reads ns => ns[i].data)
  }

  ghost function TablesFrom(ts: seq<array?<array?<byte>>>, k: nat): set<array<array?<byte>>> {
    set i | k <= i < |ts| && ts[i] != null :: ts[i]
  }

  ghost predicate Apart(ts: seq<array?<array?<byte>>>) {
    forall i, j :: 0 <= i < j < |ts| && ts[i] != null ==> ts[i] != ts[j]
  }

  lemma TablesFromStep(ts: seq<array?<array?<byte>>>, k: nat)
    requires Apart(ts) && k < |ts|
    ensures ts[k] != null ==> ts[k] in TablesFrom(ts, k)
    ensures TablesFrom(ts, k + 1) == TablesFrom(ts, k) - (if ts[k] != null then {ts[k]} else {})
  {
  }

  ghost function ItemsFrom(ns: seq<Item>, k: nat): set<Item> {
    set i | k <= i < |ns| :: ns[i]
  }

  lemma ItemsFromStep(ns: seq<Item>, k: nat)
    requires Distinct(ns) && k < |ns|
    ensures ns[k] in ItemsFrom(ns, k) && ItemsFrom(ns, k + 1) == ItemsFrom(ns, k) - {ns[k]}
  {
  }

  lemma ItemsFromSnoc(ns: seq<Item>, n: Item, k: nat)
    requires k <= |ns|
    ensures ItemsFrom(ns + [n], k) == ItemsFrom(ns, k) + {n}
  {
    assert (ns + [n])[|ns|] == n;
    forall x <- ItemsFrom(ns, k)
      ensures x in ItemsFrom(ns + [n], k)
    {
      var i :| k <= i < |ns| && ns[i] == x;
      assert (ns + [n])[i] == x;
    }
  }

  lemma AllTables(ns: seq<Item>, tables: set<array<array?<byte>>>, quanta: Quanta, qset: nat)
    requires Tables(ns, tables, quanta, qset)
    ensures Apart(TableList(ns)) && tables == TablesFrom(TableList(ns), 0)
  {
    var ts := TableList(ns);
    forall t <- tables
      ensures t in TablesFrom(ts, 0)
    {
      var i :| 0 <= i < |ns| && ns[i].data == t;
      assert ts[i] == t;
    }
    forall i, j | 0 <= i < j < |ts| && ts[i] != null
      ensures ts[i] != ts[j]
    {
      assert ns[i].data != ns[j].data;
    }
    forall i | 0 <= i < |ts| && ts[i] != null
      ensures ts[i] in tables
    {
      assert ns[i].data in tables;
    }
  }

  /** Bytes copied into one quantum show at their places and nowhere else. */
  method CopyInto(q: array<byte>, at: nat, data: seq<byte>, ghost quanta: Quanta, ghost key: (nat, nat),
                  ghost n: nat, ghost qset: nat, ghost quantum: nat)
    requires Separate(quanta, n, qset, quantum) && key in quanta && quanta[key] == q && at + |data| <= q.Length
    modifies q
    ensures forall b: Place {:trigger ByteAt(quanta, b)} ::
              ByteAt(quanta, b) ==
              if (b.item, b.slot) == key && at <= b.offset < at + |data| then Some(data[b.offset - at])
              else old(ByteAt(quanta, b))
  {
    CopyIn(q, at, data);
    assert forall i :: 0 <= i < q.Length ==> q[i] == q[..][i] == Overwrite(old(q[..]), at, data)[i];
    assert forall i :: 0 <= i < q.Length ==> old(q[i]) == old(q[..])[i];
  }

  /** So they show at the positions that the stretch stands for. */
  lemma CopiedValue(found: Option<byte>, fpos: nat, data: seq<byte>, held: map<nat, byte>, p: nat, was: Option<byte>)
    requires was == if p in held then Some(held[p]) else None
    requires found == if fpos <= p < fpos + |data| then Some(data[p - fpos]) else was
    ensures var c := Overlay(held, fpos, data); found == if p in c then Some(c[p]) else None
  {
    OverlayAt(held, fpos, data, p);
  }

  lemma CopiedAt(quanta: Quanta, quantum: nat, qset: nat, fpos: nat, data: seq<byte>, held: map<nat, byte>, p: nat,
                 was: Option<byte>)
    requires Geometry(quantum, qset) && PlaceOf(quantum, qset, fpos).offset + |data| <= quantum
    requires was == if p in held then Some(held[p]) else None
    requires var a, b := PlaceOf(quantum, qset, fpos), PlaceOf(quantum, qset, p);
      ByteAt(quanta, b) ==
      if SameSlot(a, b) && a.offset <= b.offset < a.offset + |data| then Some(data[b.offset - a.offset]) else was
    ensures var c := Overlay(held, fpos, data);
      Found(quanta, quantum, qset, p) == if p in c then Some(c[p]) else None
  {
    StretchOfQuantum(quantum, qset, fpos, |data|, p);
    CopiedValue(ByteAt(quanta, PlaceOf(quantum, qset, p)), fpos, data, held, p, was);
  }

  /** Bytes stored in a quantum change the content at exactly their positions. */
  method StoreBytes(q: array<byte>, qPos: nat, data: seq<byte>, ghost quanta: Quanta, ghost n: nat, ghost quantum: nat,
                    ghost qset: nat, ghost fpos: nat, ghost held: map<nat, byte>)
    requires Geometry(quantum, qset) && Separate(quanta, n, qset, quantum) && Holding(quanta, quantum, qset, held)
    requires var p := PlaceOf(quantum, qset, fpos);
      p.offset == qPos && (p.item, p.slot) in quanta && quanta[(p.item, p.slot)] == q && qPos + |data| <= q.Length
    modifies q
    ensures Holding(quanta, quantum, qset, Overlay(held, fpos, data))
  {
    ghost var place := PlaceOf(quantum, qset, fpos);
    CopyInto(q, qPos, data, quanta, (place.item, place.slot), n, qset, quantum);
    forall p: nat
      ensures var c := Overlay(held, fpos, data);
        Found(quanta, quantum, qset, p) == if p in c then Some(c[p]) else None
    {
      ghost var was := old(Found(quanta, quantum, qset, p));
      CopiedAt(quanta, quantum, qset, fpos, data, held, p, was);
    }
  }

  /** A new quantum brings the bytes it happens to hold, at positions where there was
      no content. */
  lemma NewQuantumHolds(before: Quanta, held: map<nat, byte>, quantum: nat, qset: nat, fpos: nat, q: array<byte>)
    requires Geometry(quantum, qset) && Holding(before, quantum, qset, held) && q.Length <= quantum
    requires var p := PlaceOf(quantum, qset, fpos); (p.item, p.slot) !in before
    ensures var p := PlaceOf(quantum, qset, fpos);
      Holding(before[(p.item, p.slot) := q], quantum, qset, Overlay(held, StartOf(quantum, qset, fpos), q[..]))
    ensures forall p <- held :: !(StartOf(quantum, qset, fpos) <= p < StartOf(quantum, qset, fpos) + quantum)
  {
    var place := PlaceOf(quantum, qset, fpos);
    forall p: nat
      ensures var c := Overlay(held, StartOf(quantum, qset, fpos), q[..]);
        Found(before[(place.item, place.slot) := q], quantum, qset, p) == if p in c then Some(c[p]) else None
      ensures p in held ==> !(StartOf(quantum, qset, fpos) <= p < StartOf(quantum, qset, fpos) + quantum)
    {
      NewQuantumAt(before, held, quantum, qset, fpos, q, p);
    }
  }

  lemma NewQuantumAt(before: Quanta, held: map<nat, byte>, quantum: nat, qset: nat, fpos: nat, q: array<byte>, p: nat)
    requires Geometry(quantum, qset) && q.Length <= quantum
    requires Found(before, quantum, qset, p) == if p in held then Some(held[p]) else None
    requires var p := PlaceOf(quantum, qset, fpos); (p.item, p.slot) !in before
    ensures var place, c := PlaceOf(quantum, qset, fpos), Overlay(held, StartOf(quantum, qset, fpos), q[..]);
      Found(before[(place.item, place.slot) := q], quantum, qset, p) == if p in c then Some(c[p]) else None
    ensures p in held ==> !(StartOf(quantum, qset, fpos) <= p < StartOf(quantum, qset, fpos) + quantum)
  {
    var place := PlaceOf(quantum, qset, fpos);
    WholeQuantum(quantum, qset, fpos, p);
    ByteAtAfterInstall(before, (place.item, place.slot), q, PlaceOf(quantum, qset, p));
    OverlayAt(held, StartOf(quantum, qset, fpos), q[..], p);
  }
}
