/** scull/main.c: a device as a list of items, each with a table of quanta, grown
    on demand and freed as a whole.  Each call holds the device mutex and is one
    step.  The sets of items, tables and quanta are what has been obtained from
    kmalloc and not been freed. */
module ScullStore {
  import opened Ring
  import opened QuantumAddress
  import opened QuantumList

  datatype Result = Done(count: nat) | NoMemory

  class ScullDev {
    const mayFail: bool                 // is kmalloc() short of memory?
    var data: Item?
    var quantum: nat
    var qset: nat
    var size: nat
    ghost var nodes: seq<Item>
    ghost var quanta: Quanta
    ghost var items: set<Item>
    ghost var tables: set<array<array?<byte>>>
    ghost var bytes: set<array<byte>>
    ghost var content: map<nat, byte>   // the bytes of all quanta, by position
    ghost var written: map<nat, byte>   // the last byte written at each position since the last trim

    /** The list is well formed and nothing else is allocated. */
    ghost predicate Shape()
      reads `data, `quantum, `qset, `nodes, `quanta, `items, `tables, `bytes, nodes, tables
    {
      && Geometry(quantum, qset)
      && Chain(data, nodes)
      && Tables(nodes, tables, quanta, qset)
      && Separate(quanta, |nodes|, qset, quantum) && Sized(quanta, quantum, quantum)
      && items == (set n | n in nodes)
      && bytes == quanta.Values
    }

    /** The byte a reader finds at a position, if the position is not in a hole. */
    ghost function At(pos: nat): Option<byte>
      requires Geometry(quantum, qset)
      reads `quantum, `qset, `quanta, quanta.Values
    {
      Found(quanta, quantum, qset, pos)
    }

    ghost predicate Refines()
      requires Geometry(quantum, qset)
      reads `quantum, `qset, `quanta, `content, quanta.Values
    {
      Holding(quanta, quantum, qset, content)
    }

    /** Every byte written is there, and the list reaches as far as the size. */
    ghost predicate Reaches()
      requires Geometry(quantum, qset)
      reads `quantum, `qset, `nodes, `size, `content, `written
    {
      && (forall p <- written :: p < size && p in content && content[p] == written[p])
      && (0 < size ==> PlaceOf(quantum, qset, size - 1).item < |nodes|)
    }

    ghost predicate Valid()
      reads this, nodes, tables, quanta.Values
    {
      Shape() && Refines() && Reaches()
    }

    /** kmalloc(): short of memory, any call may fail. */
    method Kmalloc() returns (ok: bool)
      ensures !mayFail ==> ok
    {
      ok := *;
      if !mayFail {
        ok := true;
      }
    }

    /** A device before its first use. */
    constructor (quantum: nat, qset: nat, mayFail: bool)
      requires Geometry(quantum, qset)
      ensures Valid() && nodes == [] && quanta == map[] && size == 0 && content == map[] && written == map[]
      ensures this.quantum == quantum && this.qset == qset && this.mayFail == mayFail
      ensures items == {} && tables == {} && bytes == {}
    {
      data, size := null, 0;
      this.mayFail := mayFail;
      this.quantum, this.qset := quantum, qset;
      nodes, quanta, content, written := [], map[], map[], map[];
      items, tables, bytes := {}, {}, {};
    }

    /** A new item at the end of the list, which qs is or the list is empty. */
    method Attach(qs: Item?, n: Item)
      requires Shape() && qs == if nodes == [] then null else nodes[|nodes| - 1]
      requires n !in nodes && n.data == null && n.next == null
      modifies `data, `nodes, `items, (if qs == null then {} else {qs})`next
      ensures Shape() && nodes == old(nodes) + [n]
    {
      TablesGrow(nodes, tables, quanta, qset, quantum, n);
      items := items + {n};
      if qs == null {
        data := n;
      } else {
        LinkAfter(qs, n, data, nodes);
      }
      nodes := nodes + [n];
    }

    /** kmalloc() of an item, and its place in the list. */
    method Extend(qs: Item?) returns (x: Item?)
      requires Shape() && qs == if nodes == [] then null else nodes[|nodes| - 1]
      modifies `data, `nodes, `items, nodes`next
      ensures Shape()
      ensures x == null ==> mayFail && nodes == old(nodes) && items == old(items)
      ensures x != null ==> fresh(x) && nodes == old(nodes) + [x]
    {
      x := null;
      var ok := Kmalloc();
      if ok {
        var n := new Item();
        Attach(qs, n);
        x := n;
      }
    }

    /** The next item of the list, made if there is none. */
    method Step(qs: Item, ghost k: nat) returns (x: Item?)
      requires Shape() && k < |nodes| && qs == nodes[k]
      modifies `data, `nodes, `items, nodes`next
      ensures Shape() && old(nodes) <= nodes && forall i :: |old(nodes)| <= i < |nodes| ==> fresh(nodes[i])
      ensures x == null ==> mayFail
      ensures x != null ==> k + 1 < |nodes| && x == nodes[k + 1]
      ensures k + 1 < |old(nodes)| ==> x != null && nodes == old(nodes) && items == old(items)
    {
      assert qs.next == NodeAt(nodes, k + 1);
      x := qs.next;
      if x == null {
        x := Extend(qs);
      }
    }

    /** scull_follow(): item number n, growing the list as far as needed. */
    method Follow(n: nat) returns (qs: Item?)
      requires Shape()
      modifies `data, `nodes, `items, nodes`next
      ensures Shape() && old(nodes) <= nodes && forall i :: |old(nodes)| <= i < |nodes| ==> fresh(nodes[i])
      ensures qs != null ==> n < |nodes| && qs == nodes[n]
      ensures qs == null ==> mayFail
      ensures n < |old(nodes)| ==> qs != null && nodes == old(nodes) && items == old(items)
    {
      qs := data;
      if qs == null {
        qs := Extend(null);
        if qs == null {
          return;
        }
      }
      var k := 0;
      while k < n
        invariant Shape() && k <= n && k < |nodes| && qs == nodes[k]
        invariant old(nodes) <= nodes
        invariant n < |old(nodes)| ==> nodes == old(nodes) && items == old(items)
        invariant forall i :: |old(nodes)| <= i < |nodes| ==> fresh(nodes[i])
      {
        qs := Step(qs, k);
        if qs == null {
          return;
        }
        k := k + 1;
      }
    }

    /** scull_write(): the table of item i, made if it is missing. */
    method EnsureTable(dptr: Item, ghost i: nat) returns (ok: bool)
      requires Shape() && i < |nodes| && nodes[i] == dptr
      modifies `tables, dptr`data
      ensures Shape() && (ok <==> dptr.data != null) && fresh(tables - old(tables))
      ensures !ok ==> mayFail && tables == old(tables)
    {
      ok := true;
      if dptr.data == null {
        ok := Kmalloc();
        if ok {
          var t := MakeTable(dptr, qset, i, nodes, tables, quanta);
          tables := tables + {t};
        }
      }
    }

    /** A quantum for slot s of item i, with whatever bytes the memory held. */
    method InstallQuantum(dptr: Item, ghost i: nat, s: nat) returns (q: array<byte>)
      requires Shape() && i < |nodes| && nodes[i] == dptr && dptr.data != null && dptr.data.Length == qset
      requires s < qset && (i, s) !in quanta
      modifies `quanta, `bytes, dptr.data
      ensures Shape() && fresh(q) && quanta == old(quanta)[(i, s) := q]
    {
      q := new byte[quantum];
      PutQuantum(dptr, q, qset, quantum, i, s, nodes, tables, quanta);
      SizedAfter(quanta, quantum, quantum, i, s, q);
      bytes := bytes + {q};
      quanta := quanta[(i, s) := q];
    }

    /** scull_write(): the quantum in slot s of item i, made if it is missing. */
    method EnsureQuantum(dptr: Item, ghost i: nat, s: nat) returns (q: array?<byte>)
      requires Shape() && i < |nodes| && nodes[i] == dptr && dptr.data != null && s < qset
      modifies `quanta, `bytes, dptr.data
      ensures Shape() && (q != null <==> (i, s) in quanta) && (q == null ==> mayFail)
      ensures q != null ==> q == quanta[(i, s)]
      ensures (i, s) in old(quanta) ==> quanta == old(quanta)
      ensures (i, s) !in old(quanta) ==> quanta == if q == null then old(quanta) else old(quanta)[(i, s) := q]
      ensures (i, s) !in old(quanta) && q != null ==> fresh(q)
    {
      TableTells(nodes, tables, quanta, qset, quantum, i, s);
      q := dptr.data[s];
      if q == null {
        var ok := Kmalloc();
        if ok {
          q := InstallQuantum(dptr, i, s);
        }
      }
    }

    method EnsureSlot(dptr: Item, ghost i: nat, s: nat) returns (q: array?<byte>)
      requires Shape() && i < |nodes| && nodes[i] == dptr && s < qset
      modifies `tables, `quanta, `bytes, dptr`data, tables
      ensures Shape() && fresh(bytes - old(bytes)) && fresh(tables - old(tables))
      ensures q == null ==> mayFail && (i, s) !in old(quanta)
      ensures q != null ==> (i, s) in quanta && q == quanta[(i, s)]
      ensures q == null || (i, s) in old(quanta) ==> quanta == old(quanta)
      ensures q != null && (i, s) !in old(quanta) ==> fresh(q) && quanta == old(quanta)[(i, s) := q]
    {
      q := null;
      var ok := EnsureTable(dptr, i);
      TableTells(nodes, tables, quanta, qset, quantum, i, s);
      if ok {
        q := EnsureQuantum(dptr, i, s);
      }
    }

    /** Below the size the list need not grow. */
    lemma ListReaches(fpos: nat)
      requires Geometry(quantum, qset) && Reaches() && fpos < size
      ensures PlaceOf(quantum, qset, fpos).item < |nodes|
    {
      ItemsInOrder(quantum, qset, fpos, size - 1);
    }

    /** A position has content exactly if its quantum is there. */
    lemma FoundIsContent(fpos: nat, q: array?<byte>)
      requires Shape() && Refines()
      requires q == Lookup(quanta, PlaceOf(quantum, qset, fpos).item, PlaceOf(quantum, qset, fpos).slot)
      ensures q == null <==> fpos !in content
      ensures q != null ==> q.Length == quantum
    {
      assert At(fpos) == if fpos in content then Some(content[fpos]) else None;
    }

    /** The list walked and the tables looked up: the quantum of a position that the
        list reaches, if there is one. */
    method Find(fpos: nat) returns (q: array?<byte>, qPos: nat)
      requires Shape() && PlaceOf(quantum, qset, fpos).item < |nodes|
      modifies `data, `nodes, `items, nodes`next
      ensures Shape() && nodes == old(nodes) && items == old(items)
      ensures qPos == PlaceOf(quantum, qset, fpos).offset
      ensures q == Lookup(quanta, PlaceOf(quantum, qset, fpos).item, PlaceOf(quantum, qset, fpos).slot)
    {
      var item, sPos;
      item, sPos, qPos := Divide(quantum, qset, fpos);
      var dptr := Follow(item);
      TableTells(nodes, tables, quanta, qset, quantum, item, sPos);
      q := null;
      if dptr != null && dptr.data != null {
        q := dptr.data[sPos];
      }
    }

    /** How many bytes a read finds: none at or past the end and in a hole. */
    ghost function Readable(fpos: nat, count: nat): (n: nat)
      requires Geometry(quantum, qset)
      reads `quantum, `qset, `size, `content
      ensures fpos < size && fpos in content ==>
        && n <= count && fpos + n <= size && fpos % quantum + n <= quantum
        && (n == count || fpos + n == size || fpos % quantum + n == quantum)
      ensures fpos >= size || fpos !in content ==> n == 0
    {
      if fpos < size && fpos in content then Min(Min(count, size - fpos), Left(fpos)) else 0
    }

    /** scull_read(): nothing at or beyond the end and in a hole; otherwise the bytes
        from the position on, clipped at the size and at the end of the quantum.
        The list always reaches, so nothing is allocated or changed. */
    method Read(fpos: nat, count: nat) returns (bytesRead: seq<byte>, fpos': nat)
      requires Valid()
      modifies `data, `nodes, `items, nodes`next
      ensures Valid() && nodes == old(nodes) && items == old(items)
      ensures fpos' == fpos + |bytesRead| && |bytesRead| == Readable(fpos, count)
      ensures forall p :: fpos <= p < fpos' ==> p in content && content[p] == bytesRead[p - fpos]
    {
      bytesRead, fpos' := [], fpos;
      if fpos >= size {
        return;
      }
      var n := count;
      if fpos + count > size {
        n := size - fpos;
      }
      ListReaches(fpos);
      var q, qPos := Find(fpos);
      FoundIsContent(fpos, q);
      if q != null {
        bytesRead := CopyFromQuantum(q, qPos, fpos, n);
        fpos' := fpos + |bytesRead|;
      }
    }

    /** copy_to_user() from a quantum, as much as is left of it. */
    method CopyFromQuantum(q: array<byte>, qPos: nat, fpos: nat, count: nat) returns (r: seq<byte>)
      requires Shape() && Refines()
      requires var p := PlaceOf(quantum, qset, fpos);
        p.offset == qPos && (p.item, p.slot) in quanta && quanta[(p.item, p.slot)] == q
      ensures |r| == Min(count, Left(fpos))
      ensures forall p :: fpos <= p < fpos + |r| ==> p in content && content[p] == r[p - fpos]
    {
      assert q.Length == quantum;
      var n := count;
      if n > quantum - qPos {
        n := quantum - qPos;
      }
      r := q[qPos..qPos + n];
      forall p | fpos <= p < fpos + n
        ensures p in content && content[p] == r[p - fpos]
      {
        SameQuantum(quantum, qset, fpos, p - fpos);
        assert At(p) == if p in content then Some(content[p]) else None;
      }
    }

    /** copy_from_user() into a quantum: exactly the positions written change. */
    method CopyToQuantum(q: array<byte>, qPos: nat, fpos: nat, buf: seq<byte>)
      requires Shape() && Refines()
      requires var p := PlaceOf(quantum, qset, fpos);
        p.offset == qPos && (p.item, p.slot) in quanta && quanta[(p.item, p.slot)] == q && qPos + |buf| <= quantum
      modifies q, `content
      ensures Shape() && Refines() && content == Overlay(old(content), fpos, buf)
    {
      StoreBytes(q, qPos, buf, quanta, |nodes|, quantum, qset, fpos, content);
      content := Overlay(content, fpos, buf);
    }

    /** scull_write() up to the copy, the memory side: the quantum for a position, with
        all that is missing on the way to it. */
    method Locate(fpos: nat) returns (q: array?<byte>, qPos: nat)
      requires Shape()
      modifies `data, `nodes, `items, `tables, `quanta, `bytes, nodes, tables
      ensures Shape() && old(nodes) <= nodes && forall i :: |old(nodes)| <= i < |nodes| ==> fresh(nodes[i])
      ensures fresh(bytes - old(bytes)) && fresh(tables - old(tables))
      ensures var p := PlaceOf(quantum, qset, fpos);
        && qPos == p.offset
        && (q == null ==> mayFail && (p.item, p.slot) !in old(quanta))
        && (q != null ==> p.item < |nodes| && (p.item, p.slot) in quanta && q == quanta[(p.item, p.slot)])
        && (q == null || (p.item, p.slot) in old(quanta) ==> quanta == old(quanta))
        && (q != null && (p.item, p.slot) !in old(quanta) ==> fresh(q) && quanta == old(quanta)[(p.item, p.slot) := q])
    {
      var item, sPos;
      item, sPos, qPos := Divide(quantum, qset, fpos);
      q := null;
      var dptr := Follow(item);
      if dptr != null {
        q := EnsureSlot(dptr, item, sPos);
      }
    }

    /** How much of its quantum lies from a position on. */
    ghost function Left(fpos: nat): (n: nat)
      requires Geometry(quantum, qset)
      reads `quantum, `qset
      ensures fpos % quantum + n == quantum
    {
      QuantumNumber(quantum, qset, fpos);
      quantum - PlaceOf(quantum, qset, fpos).offset
    }

    /** Where the quantum of a position begins. */
    ghost function Start(fpos: nat): (r: nat)
      requires Geometry(quantum, qset)
      reads `quantum, `qset
      ensures r <= fpos < r + quantum
    {
      StartOf(quantum, qset, fpos)
    }

    /** All of the old content is kept, and what is new lies in one quantum. */
    ghost predicate Grown(before: map<nat, byte>, fpos: nat)
      requires Geometry(quantum, qset)
      reads `quantum, `qset, `content
    {
      && (forall p <- before :: p in content && content[p] == before[p])
      && (forall p <- content :: p in before || Start(fpos) <= p < Start(fpos) + quantum)
    }

    lemma GrownByQuantum(before: map<nat, byte>, fpos: nat, bytes: seq<byte>)
      requires Geometry(quantum, qset) && |bytes| == quantum && content == Overlay(before, Start(fpos), bytes)
      requires forall p <- before :: !(Start(fpos) <= p < Start(fpos) + quantum)
      ensures Grown(before, fpos)
    {
      OverlayEverywhere(before, Start(fpos), bytes);
    }

    /** The same, with what it does to the content: none is lost, and a new quantum
        brings whatever bytes it holds. */
    method Obtain(fpos: nat) returns (q: array?<byte>, qPos: nat)
      requires Shape() && Refines()
      modifies `data, `nodes, `items, `tables, `quanta, `bytes, `content, items, tables
      ensures Shape() && Refines() && old(nodes) <= nodes
      ensures fresh(items - old(items)) && fresh(bytes - old(bytes)) && fresh(tables - old(tables))
      ensures q == null ==> mayFail && content == old(content) && fpos !in content
      ensures q != null ==> q in bytes
      ensures q != null ==> Grown(old(content), fpos)
      ensures var p := PlaceOf(quantum, qset, fpos);
        && qPos == p.offset
        && (q != null ==> p.item < |nodes| && (p.item, p.slot) in quanta && q == quanta[(p.item, p.slot)])
    {
      ghost var place, before, held := PlaceOf(quantum, qset, fpos), quanta, content;
      assert At(fpos) == if fpos in held then Some(held[fpos]) else None;
      q, qPos := Locate(fpos);
      assert Holding(before, quantum, qset, held);
      if q != null && (place.item, place.slot) !in before {
        Account(fpos, q, before, place);
      }
    }

    /** The new quantum enters the content. */
    ghost method Account(fpos: nat, q: array<byte>, before: Quanta, place: Place)
      requires Geometry(quantum, qset) && place == PlaceOf(quantum, qset, fpos) && q.Length == quantum
      requires Holding(before, quantum, qset, content)
      requires (place.item, place.slot) !in before && quanta == before[(place.item, place.slot) := q]
      modifies `content
      ensures Refines() && Grown(old(content), fpos)
    {
      NewQuantumHolds(before, content, quantum, qset, fpos, q);
      ghost var held := content;
      content := Overlay(held, Start(fpos), q[..]);
      GrownByQuantum(held, fpos, q[..]);
    }

    /** So all that was written is still there, and the list still reaches. */
    method Reserve(fpos: nat) returns (q: array?<byte>, qPos: nat)
      requires Valid()
      modifies `data, `nodes, `items, `tables, `quanta, `bytes, `content, items, tables
      ensures Valid()
      ensures fresh(items - old(items)) && fresh(bytes - old(bytes)) && fresh(tables - old(tables))
      ensures q == null ==> mayFail && content == old(content) && fpos !in content
      ensures q != null ==> q in bytes && Grown(old(content), fpos)
      ensures var p := PlaceOf(quantum, qset, fpos);
        && qPos == p.offset
        && (q != null ==> p.item < |nodes| && (p.item, p.slot) in quanta && q == quanta[(p.item, p.slot)])
    {
      q, qPos := Obtain(fpos);
    }

    /** scull_write() after the copy */
    method UpdateSize(fpos': nat, ghost fpos: nat, ghost data: seq<byte>)
      requires Geometry(quantum, qset) && fpos' == fpos + |data|
      requires PlaceOf(quantum, qset, fpos).offset + |data| <= quantum && PlaceOf(quantum, qset, fpos).item < |nodes|
      requires 0 < size ==> PlaceOf(quantum, qset, size - 1).item < |nodes|
      requires forall p <- written :: p < size && p in content && (fpos <= p < fpos' || content[p] == written[p])
      requires forall p :: fpos <= p < fpos' ==> p in content && content[p] == data[p - fpos]
      modifies `size, `written
      ensures size == if old(size) < fpos' then fpos' else old(size)
      ensures written == Overlay(old(written), fpos, data) && Reaches()
    {
      if size < fpos' {
        size := fpos';
        LastItem(quantum, qset, fpos, |data|);
      }
      OverlayEverywhere(written, fpos, data);
      written := Overlay(written, fpos, data);
    }

    /** scull_write() from the copy on. */
    method Fill(q: array<byte>, qPos: nat, fpos: nat, data: seq<byte>)
      requires Valid()
      requires var p := PlaceOf(quantum, qset, fpos);
        && p.item < |nodes| && p.offset == qPos && qPos + |data| <= quantum
        && (p.item, p.slot) in quanta && q == quanta[(p.item, p.slot)]
      modifies q, `content, `size, `written
      ensures Valid() && content == Overlay(old(content), fpos, data) && written == Overlay(old(written), fpos, data)
      ensures size == if old(size) < fpos + |data| then fpos + |data| else old(size)
    {
      OverlayEverywhere(content, fpos, data);
      CopyToQuantum(q, qPos, fpos, data);
      UpdateSize(fpos + |data|, fpos, data);
    }

    /** What a write of data at fpos does to the content: the data is there, all else
        that was there still is, and what is new besides lies in the same quantum. */
    ghost predicate Stored(before: map<nat, byte>, fpos: nat, data: seq<byte>)
      requires Geometry(quantum, qset)
      reads `quantum, `qset, `content
    {
      && (forall p :: fpos <= p < fpos + |data| ==> p in content && content[p] == data[p - fpos])
      && (forall p <- before :: fpos <= p < fpos + |data| || (p in content && content[p] == before[p]))
      && (forall p <- content :: p in before || Start(fpos) <= p < Start(fpos) + quantum)
    }

    lemma FilledIsStored(before: map<nat, byte>, grown: map<nat, byte>, fpos: nat, data: seq<byte>)
      requires Geometry(quantum, qset) && content == Overlay(grown, fpos, data)
      requires forall p <- before :: p in grown && grown[p] == before[p]
      requires forall p <- grown :: p in before || Start(fpos) <= p < Start(fpos) + quantum
      requires PlaceOf(quantum, qset, fpos).offset + |data| <= quantum
      ensures Stored(before, fpos, data)
    {
      OverlayEverywhere(grown, fpos, data);
    }

    /** From the copy on, seen from before the quantum was there. */
    method Store(q: array<byte>, qPos: nat, fpos: nat, data: seq<byte>, ghost before: map<nat, byte>)
      requires Valid() && Grown(before, fpos)
      requires var p := PlaceOf(quantum, qset, fpos);
        && p.item < |nodes| && p.offset == qPos && qPos + |data| <= quantum
        && (p.item, p.slot) in quanta && q == quanta[(p.item, p.slot)]
      modifies q, `content, `size, `written
      ensures Valid() && Stored(before, fpos, data) && written == Overlay(old(written), fpos, data)
      ensures size == if old(size) < fpos + |data| then fpos + |data| else old(size)
    {
      ghost var grown := content;
      Fill(q, qPos, fpos, data);
      FilledIsStored(before, grown, fpos, data);
    }

    /** scull_write(): the bytes up to the end of the quantum are stored, at exactly
        the positions reported; all other content stays, except that the rest of a
        quantum that was a hole now holds unspecified bytes.  Short of memory, and only
        in a hole, no content may change at all. */
    method Write(fpos: nat, buf: seq<byte>) returns (r: Result, fpos': nat)
      requires Valid()
      modifies this, items, tables, bytes
      ensures Valid() && quantum == old(quantum) && qset == old(qset)
      ensures fresh(items - old(items))
      ensures fresh(bytes - old(bytes)) && fresh(tables - old(tables))
      ensures r == NoMemory ==> mayFail && fpos' == fpos && size == old(size)
      ensures r == NoMemory ==> written == old(written) && content == old(content) && fpos !in content
      ensures r.Done? ==> r.count == Min(|buf|, old(Left(fpos)))
      ensures r.Done? ==> fpos' == fpos + r.count && size == if old(size) < fpos' then fpos' else old(size)
      ensures r.Done? ==> written == Overlay(old(written), fpos, buf[..r.count])
      ensures r.Done? ==> Stored(old(content), fpos, buf[..r.count])
    {
      ghost var before := content;
      var q, qPos := Reserve(fpos);
      if q == null {
        return NoMemory, fpos;
      }
      var n := |buf|;
      if n > quantum - qPos {
        n := quantum - qPos;
      }
      assert n == Min(|buf|, old(Left(fpos)));
      Store(q, qPos, fpos, buf[..n], before);
      fpos' := fpos + n;
      r := Done(n);
    }

    /** kfree() of a quantum (or of nothing), a table, an item: each is allocated. */
    ghost method FreeQuantum(b: array?<byte>)
      requires b != null ==> b in bytes
      modifies `bytes
      ensures bytes == old(bytes) - if b != null then {b} else {}
    {
      if b != null {
        bytes := bytes - {b};
      }
    }

    ghost method FreeTable(t: array<array?<byte>>)
      requires t in tables
      modifies `tables
      ensures tables == old(tables) - {t}
    {
      tables := tables - {t};
    }

    ghost method FreeItem(n: Item)
      requires n in items
      modifies `items
      ensures items == old(items) - {n}
    {
      items := items - {n};
    }

    /** scull_trim(), the inner loop: the quanta of item k. */
    method FreeQuanta(t: array<array?<byte>>, ghost k: nat)
      requires 0 < qset == t.Length && Separate(quanta, |nodes|, qset, quantum)
      requires forall s :: 0 <= s < qset ==> t[s] == Lookup(quanta, k, s)
      requires bytes == QuantaFrom(quanta, k, 0)
      modifies `bytes
      ensures bytes == QuantaFrom(quanta, k, qset)
    {
      for i := 0 to qset
        invariant bytes == QuantaFrom(quanta, k, i)
      {
        QuantaFromStep(quanta, |nodes|, qset, quantum, k, i);
        FreeQuantum(t[i]);
      }
    }

    /** scull_trim(), one item. */
    method FreeContents(dptr: Item, ghost k: nat)
      requires 0 < qset && ItemHolds(dptr, k, quanta, qset) && Separate(quanta, |nodes|, qset, quantum)
      requires bytes == QuantaFrom(quanta, k, 0) && (dptr.data != null ==> dptr.data in tables)
      modifies `bytes, `tables, dptr`data
      ensures bytes == QuantaFrom(quanta, k + 1, 0)
      ensures tables == old(tables) - old(if dptr.data != null then {dptr.data} else {})
    {
      QuantaFromNextItem(quanta, |nodes|, qset, quantum, k);
      if dptr.data != null {
        FreeQuanta(dptr.data, k);
        FreeTable(dptr.data);
        dptr.data := null;
      }
    }

    /** scull_trim(): every item, table and quantum allocated since the last trim is
        freed, each once, and the device is empty with the geometry now in force.
        The sizes that the loops use are those the memory was allocated with,
        because only this method changes them. */
    method Trim(scullQuantum: nat, scullQset: nat)
      requires Valid() && Geometry(scullQuantum, scullQset)
      modifies this, nodes`data
      ensures Valid() && items == {} && tables == {} && bytes == {}
      ensures nodes == [] && quanta == map[] && size == 0 && content == map[] && written == map[]
      ensures quantum == scullQuantum && qset == scullQset
    {
      FreeAll();
      size := 0;
      quantum := scullQuantum;
      qset := scullQset;
      data := null;
      nodes, quanta, content, written := [], map[], map[], map[];
    }

    /** The outer loop of scull_trim(). */
    method FreeAll()
      requires Shape()
      modifies `items, `tables, `bytes, nodes`data
      ensures items == {} && tables == {} && bytes == {}
    {
      ghost var ts := TableList(nodes);
      AllTables(nodes, tables, quanta, qset);
      QuantaFromNextItem(quanta, |nodes|, qset, quantum, 0);
      ghost var k := 0;
      var dptr := data;
      while dptr != null
        invariant 0 <= k <= |nodes| && dptr == NodeAt(nodes, k)
        invariant items == ItemsFrom(nodes, k) && tables == TablesFrom(ts, k) && bytes == QuantaFrom(quanta, k, 0)
        invariant forall i {:trigger nodes[i].data} :: k <= i < |nodes| ==> nodes[i].data == ts[i]
        decreases |nodes| - k
      {
        assert old(ItemHolds(nodes[k], k, quanta, qset));
        TablesFromStep(ts, k);
        ItemsFromStep(nodes, k);
        FreeContents(dptr, k);
        assert dptr.next == NodeAt(nodes, k + 1);
        var next := dptr.next;
        FreeItem(dptr);
        dptr := next;
        k := k + 1;
      }
      QuantaFromNextItem(quanta, |nodes|, qset, quantum, k);
    }

    /** One call stores at least one byte, or there is none or memory has run out. */
    method WriteSome(fpos: nat, buf: seq<byte>) returns (n: nat)
      requires Valid()
      modifies this, items, tables, bytes
      ensures Valid() && n <= |buf| && written == Overlay(old(written), fpos, buf[..n])
      ensures buf != [] && n == 0 ==> mayFail
      ensures fresh(items - old(items)) && fresh(bytes - old(bytes)) && fresh(tables - old(tables))
    {
      var r, next := Write(fpos, buf);
      if r == NoMemory {
        return 0;
      }
      n := r.count;
    }

    /** One call on the remainder of a buffer. */
    method WriteNext(start: nat, data: seq<byte>, done: nat, ghost before: map<nat, byte>) returns (done': nat)
      requires Valid() && done <= |data| && written == OverlayTo(before, start, data, done)
      modifies this, items, tables, bytes
      ensures Valid() && done <= done' <= |data| && written == OverlayTo(before, start, data, done')
      ensures done < |data| && done' == done ==> mayFail
      ensures fresh(items - old(items)) && fresh(bytes - old(bytes)) && fresh(tables - old(tables))
    {
      var n := WriteSome(start + done, data[done..]);
      OverlayNext(before, start, data, done, n);
      done' := done + n;
    }

    /** Writing on the remainder until all is done: together the calls store the
        whole buffer, at any position and across quanta and items; only short of
        memory can they stop early, with a prefix stored. */
    method WriteAll(fpos: nat, buf: seq<byte>) returns (done: nat)
      requires Valid()
      modifies this, items, tables, bytes
      ensures Valid() && done <= |buf| && (done < |buf| ==> mayFail)
      ensures written == OverlayTo(old(written), fpos, buf, done)
      ensures fresh(items - old(items))
    {
      ghost var before := written;
      done := 0;
      OverlayNone(before, fpos, buf);
      while done < |buf|
        invariant Valid() && done <= |buf| && written == OverlayTo(before, fpos, buf, done)
        invariant fresh(items - old(items)) && fresh(bytes - old(bytes)) && fresh(tables - old(tables))
        decreases |buf| - done
      {
        var last := done;
        done := WriteNext(fpos, buf, done, before);
        if done == last {
          return;
        }
      }
    }

    /** Reading on the remainder until all is there gives back exactly what was last
        written, at any position and across quanta and items; no memory is needed. */
    method ReadAll(fpos: nat, n: nat) returns (r: seq<byte>)
      requires Valid() && forall p :: fpos <= p < fpos + n ==> p in written
      modifies `data, `nodes, `items, nodes`next
      ensures Valid() && nodes == old(nodes)
      ensures |r| == n && forall p :: fpos <= p < fpos + n ==> r[p - fpos] == written[p]
    {
      r := [];
      while |r| < n
        invariant Valid() && |r| <= n && nodes == old(nodes)
        invariant forall p :: fpos <= p < fpos + |r| ==> r[p - fpos] == written[p]
        decreases n - |r|
      {
        ghost var at := fpos + |r|;
        assert at in written;
        var piece, next := Read(fpos + |r|, n - |r|);
        forall p | at <= p < at + |piece|
          ensures piece[p - at] == written[p]
        {
          assert p in written && p in content;
        }
        r := r + piece;
      }
    }

    /** The round trip. */
    method RoundTrip(fpos: nat, buf: seq<byte>) returns (ok: bool, r: seq<byte>)
      requires Valid()
      modifies this, items, tables, bytes
      ensures Valid() && (ok ==> r == buf) && (!ok ==> mayFail)
    {
      ghost var before := written;
      var done := WriteAll(fpos, buf);
      ok := done == |buf|;
      r := [];
      if ok {
        OverlayAll(before, fpos, buf);
        r := ReadBack(fpos, |buf|, before, buf);
      }
    }

    /** What was written last is read back. */
    method ReadBack(fpos: nat, n: nat, ghost before: map<nat, byte>, ghost buf: seq<byte>) returns (r: seq<byte>)
      requires Valid() && n == |buf| && written == Overlay(before, fpos, buf)
      modifies `data, `nodes, `items, nodes`next
      ensures Valid() && r == buf
    {
      OverlayEverywhere(before, fpos, buf);
      r := ReadAll(fpos, n);
      ReadsBack(before, fpos, buf, r);
    }
  }
}
