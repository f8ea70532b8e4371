/** scullp: the device of scullp/main.c and scullp/mmap.c, one call at a time.  The
    device is itself the first item of its list; a quantum is a block of pages; processes
    read, write and map it.  As ScullpGuard sees it, the calls are those of one thread. */
module ScullpStore {
  import opened Ring
  import opened QuantumAddress
  import opened QuantumList
  import Guard = ScullpGuard

  const PAGE_SIZE: nat := 4096

  /** PAGE_SIZE << order */
  function Quantum(order: nat): (q: nat)
    ensures PAGE_SIZE <= q && (q == PAGE_SIZE <==> order == 0)
  {
    if order == 0 then PAGE_SIZE else 2 * Quantum(order - 1)
  }

  /** It is a shift: each step of the order is a factor of two. */
  lemma {:induction false} QuantumShifts(a: nat, b: nat)
    ensures Quantum(1) == 2 * PAGE_SIZE && PAGE_SIZE * Quantum(a + b) == Quantum(a) * Quantum(b)
    decreases a
  {
    if a != 0 {
      QuantumShifts(a - 1, b);
      DoubleProduct(Quantum(a - 1), Quantum(b));
    }
  }

  lemma DoubleProduct(x: nat, y: nat)
    ensures (2 * x) * y == 2 * (x * y)
  {
  }

  /** The size of a block in item i.  Only the first item, the device, has the order in
      its own record; in later ones that field is zero. */
  function BlockSize(order: nat, i: nat): (n: nat)
    ensures PAGE_SIZE <= n <= Quantum(order) && (n == Quantum(order) <==> i == 0 || order == 0)
  {
    Quantum(OwnOrder(order, i))
  }

  function OwnOrder(order: nat, i: nat): nat {
    if i == 0 then order else 0
  }

  /** Copying n bytes from a place on leaves the block, though not the quantum. */
  ghost predicate Overruns(order: nat, qset: nat, pos: nat, n: nat)
    requires 0 < qset
  {
    var p := PlaceOf(Quantum(order), qset, pos);
    0 < n && BlockSize(order, p.item) < p.offset + n
  }

  /** No copy within a quantum leaves its block, exactly if the order is 0. */
  lemma BlocksSufficeExactlyForSinglePages(order: nat, qset: nat)
    requires 0 < qset
    ensures (forall pos, n :: PlaceOf(Quantum(order), qset, pos).offset + n <= Quantum(order) ==>
              !Overruns(order, qset, pos, n)) <==> order == 0
  {
    if order != 0 {
      var p := Place(1, 0, 0);
      var pos := PositionOf(Quantum(order), qset, p);
      PositionDeterminesPlace(Quantum(order), qset, p);
      assert Overruns(order, qset, pos, Quantum(order));
    }
  }

  /** The blocks once there is one with that key, if there was memory. */
  ghost function With(before: Quanta, key: (nat, nat), q: array?<byte>): Quanta {
    if q == null || key in before then before else before[key := q]
  }

  datatype ReadResult = Data(bytes: seq<byte>) | ReadBeyond
  datatype Result = Done(count: nat) | NoMemory | Beyond

  /** The number of a page gives back its item and slot. */
  lemma NumberedPlace(qset: nat, pos: nat)
    requires 0 < qset
    ensures FindsTheBlock(0, qset, pos)
  {
    var p := PlaceOf(PAGE_SIZE, qset, pos);
    QuantumNumber(PAGE_SIZE, qset, pos);
    DivisionIsUnique(pos / PAGE_SIZE, qset, p.item, p.slot);
  }

  /** A fault counts pages, a read counts blocks: do they name the same block? */
  ghost predicate FindsTheBlock(order: nat, qset: nat, pos: nat)
    requires 0 < qset
  {
    var p := PlaceOf(Quantum(order), qset, pos);
    p.item == pos / PAGE_SIZE / qset && p.slot == pos / PAGE_SIZE % qset
  }

  /** They do everywhere exactly if a block is one page, which is why scullp_mmap()
      refuses any other order. */
  lemma OnlySinglePagesCanBeMapped(order: nat, qset: nat)
    requires 0 < qset
    ensures (forall pos :: FindsTheBlock(order, qset, pos)) <==> order == 0
  {
    if order == 0 {
      forall pos ensures FindsTheBlock(order, qset, pos) { NumberedPlace(qset, pos); }
    } else {
      SamePlaceAtSecondPage(order, qset);
    }
  }

  lemma SamePlaceAtSecondPage(order: nat, qset: nat)
    requires 0 < qset && 0 < order
    ensures !FindsTheBlock(order, qset, PAGE_SIZE)
  {
    SameQuantum(Quantum(order), qset, 0, PAGE_SIZE);
    DivisionIsUnique(1, qset, 1 / qset, 1 % qset);
  }

  class ScullpDev {
    const mayFail: bool       // is memory short?
    const first: Item         // the device's own data and next fields
    var vmas: int
    var order: nat
    var qset: nat
    var size: nat
    var newOrder: nat         // scullp_order and scullp_qset
    var newQset: nat
    ghost var nodes: seq<Item>
    ghost var quanta: Quanta
    ghost var items: set<Item>  // the allocated ones: all but the first
    ghost var tables: set<array<array?<byte>>>
    ghost var pages: set<array<byte>>
    ghost var content: map<nat, byte>
    ghost var mappings: set<Guard.Vma>
    ghost var seen: set<(Guard.Vma, array<byte>)>
    ghost var dropped: set<array<byte>>

    /** The list begins with the device, nothing else is allocated, and it has given up
        no block of it. */
    ghost predicate Shape()
      reads `order, `qset, `nodes, `quanta, `items, `tables, `pages, `dropped, nodes, tables
    {
      && Geometry(Quantum(order), qset)
      && nodes != [] && Chain(first, nodes)
      && Tables(nodes, tables, quanta, qset)
      && Separate(quanta, |nodes|, qset, Quantum(order)) && Sized(quanta, Quantum(order), PAGE_SIZE)
      && items == ItemsFrom(nodes, 1)
      && pages == quanta.Values && pages !! dropped
    }

    ghost predicate Refines()
      requires 0 < qset
      reads `order, `qset, `quanta, `content, quanta.Values
    {
      Holding(quanta, Quantum(order), qset, content)
    }

    /** The list reaches as far as the size. */
    ghost predicate Reaches()
      requires 0 < qset
      reads `order, `qset, `nodes, `size
    {
      0 < size ==> PlaceOf(Quantum(order), qset, size - 1).item < |nodes|
    }

    ghost predicate Valid()
      reads this, nodes, tables, quanta.Values
    {
      Shape() && Refines() && Reaches()
    }

    /** The device among its mappings: the quanta are the pages. */
    ghost function View(): Guard.State<array<byte>>
      reads this
    {
      Guard.State(vmas, order, qset, size, quanta, mappings, seen, dropped, newOrder, newQset,
                  Guard.Free, map[0 := Guard.Idle])
    }

    /** The key of a position's block. */
    ghost function KeyOf(fpos: nat): (nat, nat)
      requires 0 < qset
      reads `order, `qset
    {
      (PlaceOf(Quantum(order), qset, fpos).item, PlaceOf(Quantum(order), qset, fpos).slot)
    }

    /** How much of its quantum lies from a position on. */
    ghost function Left(fpos: nat): (n: nat)
      requires 0 < qset
      reads `order, `qset
      ensures fpos % Quantum(order) + n == Quantum(order)
    {
      QuantumNumber(Quantum(order), qset, fpos);
      Quantum(order) - PlaceOf(Quantum(order), qset, fpos).offset
    }

    constructor (order: nat, qset: nat, mayFail: bool)
      requires 0 < qset
      ensures Valid() && nodes == [first] && quanta == map[] && size == 0 && content == map[]
      ensures items == {} && tables == {} && pages == {} && this.mayFail == mayFail
      ensures View() == Guard.Init(order, qset, {0})
    {
      this.mayFail := mayFail;
      var item := new Item();
      first := item;
      vmas, this.order, this.qset, size := 0, order, qset, 0;
      newOrder, newQset := order, qset;
      nodes, quanta, items, tables, pages, content := [item], map[], {}, {}, {}, map[];
      mappings, seen, dropped := {}, {}, {};
      new;
      assert ItemHolds(nodes[0], 0, quanta, qset);
    }

    method Kmalloc() returns (ok: bool)
      ensures !mayFail ==> ok
    {
      ok := *;
      if !mayFail {
        ok := true;
      }
    }

    // ---------- the list ----------

    /** A new item at the end. */
    method Attach(qs: Item, n: Item)
      requires Shape() && qs == nodes[|nodes| - 1] && n !in nodes && n.data == null && n.next == null
      modifies `nodes, `items, qs`next
      ensures Shape() && nodes == old(nodes) + [n]
    {
      TablesGrow(nodes, tables, quanta, qset, Quantum(order), n);
      LinkAfter(qs, n, first, nodes);
      ItemsFromSnoc(nodes, n, 1);
      items := items + {n};
      nodes := nodes + [n];
    }

    /** scullp_follow(): item number n, the list grown as far as needed; it does not ask
        whether there was memory. */
    method Follow(n: nat) returns (dptr: Item)
      requires Shape()
      modifies `nodes, `items, nodes`next
      ensures Shape() && n < |nodes| && dptr == nodes[n]
      ensures old(nodes) <= nodes && forall x <- nodes :: x in old(nodes) || fresh(x)
      ensures n < |old(nodes)| ==> nodes == old(nodes) && items == old(items)
    {
      dptr := first;
      for k := 0 to n
        invariant Shape() && k < |nodes| && dptr == nodes[k]
        invariant old(nodes) <= nodes && forall x <- nodes :: x in old(nodes) || fresh(x)
        invariant nodes == old(nodes) || |nodes| == k + 1
        invariant n < |old(nodes)| ==> nodes == old(nodes) && items == old(items)
      {
        assert dptr in nodes;
        dptr := Step(dptr, k);
      }
    }

    method Step(dptr: Item, ghost k: nat) returns (x: Item)
      requires Shape() && k < |nodes| && dptr == nodes[k]
      modifies `nodes, `items, dptr`next
      ensures Shape() && k + 1 < |nodes| && x == nodes[k + 1]
      ensures old(nodes) <= nodes
      ensures k + 1 < |old(nodes)| ==> nodes == old(nodes) && items == old(items)
      ensures k + 1 == |old(nodes)| ==> fresh(x) && nodes == old(nodes) + [x]
    {
      assert dptr.next == NodeAt(nodes, k + 1);
      if dptr.next == null {
        var n := new Item();
        Attach(dptr, n);
        x := n;
      } else {
        x := dptr.next;
      }
    }

    // ---------- reading ----------

    /** The page block of a position, by division. */
    method Find(fpos: nat) returns (q: array?<byte>, qPos: nat)
      requires Shape()
      modifies `nodes, `items, nodes`next
      ensures Shape() && old(nodes) <= nodes
      ensures PlaceOf(Quantum(order), qset, fpos).item < |old(nodes)| ==> nodes == old(nodes) && items == old(items)
      ensures qPos == PlaceOf(Quantum(order), qset, fpos).offset
      ensures q == Lookup(quanta, PlaceOf(Quantum(order), qset, fpos).item, PlaceOf(Quantum(order), qset, fpos).slot)
    {
      var item, sPos;
      item, sPos, qPos := Divide(Quantum(order), qset, fpos);
      var dptr := Follow(item);
      TableTells(nodes, tables, quanta, qset, Quantum(order), item, sPos);
      q := null;
      if dptr.data != null {
        q := dptr.data[sPos];
      }
    }

    /** Below the size the list need not grow. */
    lemma ListReaches(fpos: nat)
      requires 0 < qset && Reaches() && fpos < size
      ensures PlaceOf(Quantum(order), qset, fpos).item < |nodes|
    {
      ItemsInOrder(Quantum(order), qset, fpos, size - 1);
    }

    /** A position has content exactly if its block is there and reaches that far. */
    lemma FoundIsContent(fpos: nat, q: array?<byte>)
      requires Shape() && Refines()
      requires var p := PlaceOf(Quantum(order), qset, fpos); q == Lookup(quanta, p.item, p.slot)
      ensures fpos in content <==> q != null && !Overruns(order, qset, fpos, 1)
      ensures q != null ==> q.Length == BlockSize(order, PlaceOf(Quantum(order), qset, fpos).item)
    {
      assert Found(quanta, Quantum(order), qset, fpos) == if fpos in content then Some(content[fpos]) else None;
    }

    ghost predicate HasBlock(fpos: nat)
      requires 0 < qset
      reads `order, `qset, `quanta
    {
      KeyOf(fpos) in quanta
    }

    /** How many bytes a read is to copy: none at or past the end and where there is no
        block. */
    ghost function Readable(fpos: nat, count: nat): (n: nat)
      requires 0 < qset
      reads `order, `qset, `quanta, `size
      ensures fpos < size && HasBlock(fpos) ==>
        && n <= count && fpos + n <= size && fpos % Quantum(order) + n <= Quantum(order)
        && (n == count || fpos + n == size || fpos % Quantum(order) + n == Quantum(order))
      ensures fpos >= size || !HasBlock(fpos) ==> n == 0
    {
      if fpos < size && HasBlock(fpos) then Min(Min(count, size - fpos), Left(fpos)) else 0
    }

    /** Only a position at the end or past it may make the list longer. */
    method Search(fpos: nat) returns (q: array?<byte>, qPos: nat)
      requires Valid()
      modifies `nodes, `items, nodes`next
      ensures Valid() && (fpos < size ==> nodes == old(nodes) && items == old(items))
      ensures q != null <==> HasBlock(fpos)
      ensures qPos == PlaceOf(Quantum(order), qset, fpos).offset
      ensures q == Lookup(quanta, PlaceOf(Quantum(order), qset, fpos).item, PlaceOf(Quantum(order), qset, fpos).slot)
      ensures q != null ==> q.Length == BlockSize(order, PlaceOf(Quantum(order), qset, fpos).item)
    {
      if fpos < size {
        ListReaches(fpos);
      }
      q, qPos := Find(fpos);
      FoundIsContent(fpos, q);
    }

    /** scullp_read(): nothing past the end and where there is no block; otherwise the
        content from the position on, clipped at the size and at the end of the quantum,
        provided that the block reaches that far; what lies beyond is not the device's.
        Only a read at the very end may make the list longer. */
    method Read(fpos: nat, count: nat) returns (r: ReadResult, fpos': nat)
      requires Valid()
      modifies `nodes, `items, nodes`next
      ensures Valid() && (fpos != size ==> nodes == old(nodes) && items == old(items))
      ensures r.ReadBeyond? <==> Overruns(order, qset, fpos, Readable(fpos, count))
      ensures r.Data? ==> |r.bytes| == Readable(fpos, count) && fpos' == fpos + |r.bytes|
      ensures r.Data? ==> forall p :: fpos <= p < fpos' ==> p in content && content[p] == r.bytes[p - fpos]
    {
      r, fpos' := Data([]), fpos;
      if fpos > size {
        return;
      }
      var n := count;
      if fpos + count > size {
        n := size - fpos;
      }
      r := Piece(fpos, n);
      fpos' := fpos + if r.Data? then |r.bytes| else 0;
    }

    /** The bytes from a position on, as far as its block goes. */
    method Piece(fpos: nat, n: nat) returns (r: ReadResult)
      requires Valid()
      modifies `nodes, `items, nodes`next
      ensures Valid() && (fpos < size ==> nodes == old(nodes) && items == old(items))
      ensures r.ReadBeyond? <==> HasBlock(fpos) && Overruns(order, qset, fpos, Min(n, Left(fpos)))
      ensures r.Data? ==> |r.bytes| == if HasBlock(fpos) then Min(n, Left(fpos)) else 0
      ensures r.Data? ==> forall p :: fpos <= p < fpos + |r.bytes| ==> p in content && content[p] == r.bytes[p - fpos]
    {
      r := Data([]);
      var q, qPos := Search(fpos);
      if q != null {
        r := CopyOut(q, qPos, fpos, n);
      }
    }

    /** What is left of the quantum, or as much as is asked for. */
    method CopyOut(q: array<byte>, qPos: nat, fpos: nat, count: nat) returns (r: ReadResult)
      requires Shape() && Refines()
      requires var p := PlaceOf(Quantum(order), qset, fpos);
        p.offset == qPos && Lookup(quanta, p.item, p.slot) == q && q.Length == BlockSize(order, p.item)
      ensures r.ReadBeyond? <==> Overruns(order, qset, fpos, Min(count, Left(fpos)))
      ensures r.Data? ==> |r.bytes| == Min(count, Left(fpos))
      ensures r.Data? ==> forall p :: fpos <= p < fpos + |r.bytes| ==> p in content && content[p] == r.bytes[p - fpos]
    {
      var n := count;
      if n > Quantum(order) - qPos {
        n := Quantum(order) - qPos;
      }
      if n == 0 {
        return Data([]);
      }
      if qPos + n > q.Length {
        return ReadBeyond;
      }
      PieceIsContent(q, qPos, fpos, n);
      r := Data(q[qPos..qPos + n]);
    }

    lemma PieceIsContent(q: array<byte>, qPos: nat, fpos: nat, n: nat)
      requires Shape() && Refines() && qPos + n <= Min(q.Length, Quantum(order))
      requires var p := PlaceOf(Quantum(order), qset, fpos); p.offset == qPos && Lookup(quanta, p.item, p.slot) == q
      ensures forall p :: fpos <= p < fpos + n ==> p in content && content[p] == q[qPos..qPos + n][p - fpos]
    {
      forall p | fpos <= p < fpos + n
        ensures p in content && content[p] == q[qPos..qPos + n][p - fpos]
      {
        SameQuantum(Quantum(order), qset, fpos, p - fpos);
        assert Found(quanta, Quantum(order), qset, p) == if p in content then Some(content[p]) else None;
      }
    }

    // ---------- the fault handler ----------

    /** scullp_vma_nopage(), past the test of the size: walking the list and subtracting
        ends at the page block with the number of the faulting page. */
    method Walk(number: nat) returns (page: array?<byte>)
      requires Shape()
      ensures page == Lookup(quanta, number / qset, number % qset)
    {
      var offset := number;
      var ptr: Item? := first;
      ghost var k := 0;
      while ptr != null && offset >= qset
        invariant 0 <= k <= |nodes| && 0 <= offset && k * qset + offset == number && ptr == NodeAt(nodes, k)
        decreases offset
      {
        OneMore(k, qset);
        assert nodes[k].next == NodeAt(nodes, k + 1);
        ptr := ptr.next;
        offset := offset - qset;
        k := k + 1;
      }
      WalkEnds(number, k, offset);
      page := null;
      if ptr != null && ptr.data != null {
        page := ptr.data[offset];
      }
    }

    /** Where the walk stops it is at the place that the division gives, or past the end
        of the list, where there is nothing. */
    lemma WalkEnds(number: nat, k: nat, offset: nat)
      requires Shape() && k * qset + offset == number && k <= |nodes| && (k < |nodes| ==> offset < qset)
      ensures k < |nodes| && nodes[k].data != null ==> nodes[k].data in tables && nodes[k].data.Length == qset
      ensures k < |nodes| && nodes[k].data != null ==>
        nodes[k].data[offset] == Lookup(quanta, number / qset, number % qset)
      ensures k == |nodes| || nodes[k].data == null ==> Lookup(quanta, number / qset, number % qset) == null
    {
      if k < |nodes| {
        DivisionIsUnique(number, qset, k, offset);
        TableTells(nodes, tables, quanta, qset, Quantum(order), k, offset);
      } else {
        DivMod(number, qset, number / qset, number % qset);
        if number / qset < k {
          MulOrdered(number / qset + 1, k, qset);
          OneMore(number / qset, qset);
        }
      }
    }

    /** scullp_vma_nopage(): nothing at or past the size; otherwise the block with the
        number of the faulting page, if there is one. */
    method Nopage(fault: nat) returns (page: array?<byte>)
      requires Shape()
      ensures page == if fault < size then Lookup(quanta, fault / PAGE_SIZE / qset, fault / PAGE_SIZE % qset) else null
    {
      page := null;
      if fault < size {
        page := Walk(fault / PAGE_SIZE);
      }
    }

    /** A fault in an area: the page that is found is put there, and to the mappings that is
        one fault. */
    method Fault(ghost v: Guard.Vma, fault: nat) returns (page: array?<byte>)
      requires Shape() && v in mappings
      modifies `seen
      ensures Shape()
      ensures page == null <==> fault >= size || (fault / PAGE_SIZE / qset, fault / PAGE_SIZE % qset) !in quanta
      ensures seen == old(seen) + if page != null then {(v, page)} else {}
      ensures page != null ==>
        var e := Guard.Fault(v, (fault / PAGE_SIZE / qset, fault / PAGE_SIZE % qset));
        Guard.Enabled(old(View()), e) && View() == Guard.Step(old(View()), e)
    {
      page := Nopage(fault);
      if page != null {
        seen := seen + {(v, page)};
      }
    }

    /** With order 0 a fault and a read find the same page at every position below the
        size, and none exactly in a hole. */
    method MappingAgreesWithRead(pos: nat) returns (mapped: array?<byte>, readFrom: array?<byte>)
      requires Valid() && order == 0 && pos < size
      modifies `nodes, `items, nodes`next
      ensures Valid() && mapped == readFrom && (mapped == null <==> pos !in content)
      ensures mapped != null ==> mapped.Length == PAGE_SIZE && pos in content && content[pos] == mapped[pos % PAGE_SIZE]
    {
      mapped := Nopage(pos);
      FoundIsContent(pos, Lookup(quanta, PlaceOf(PAGE_SIZE, qset, pos).item, PlaceOf(PAGE_SIZE, qset, pos).slot));
      var qPos;
      readFrom, qPos := Search(pos);
      QuantumNumber(PAGE_SIZE, qset, pos);
      NumberedPlace(qset, pos);
      assert Found(quanta, PAGE_SIZE, qset, pos) == if pos in content then Some(content[pos]) else None;
    }

    // ---------- writing ----------

    /** The table of item i, made if it is missing. */
    method EnsureTable(dptr: Item, ghost i: nat) returns (ok: bool)
      requires Shape() && i < |nodes| && nodes[i] == dptr
      modifies `tables, dptr`data
      ensures Shape() && (ok <==> dptr.data != null) && fresh(tables - old(tables)) && (!ok ==> mayFail)
    {
      ok := true;
      if dptr.data == null {
        ok := Kmalloc();
        if ok {
          var t := MakeTable(dptr, qset, i, nodes, tables, quanta);
          tables := tables + {t};
        }
      }
    }

    /** A block of zeroed pages in slot s of item i, of that item's own order. */
    method InstallPages(dptr: Item, ghost i: nat, s: nat) returns (q: array<byte>)
      requires Shape() && i < |nodes| && nodes[i] == dptr && dptr.data != null && dptr.data.Length == qset
      requires s < qset && (i, s) !in quanta
      modifies `quanta, `pages, dptr.data
      ensures Shape() && fresh(q) && quanta == old(quanta)[(i, s) := q] && q[..] == Zeros(BlockSize(order, i))
    {
      q := new byte[Quantum(if dptr == first then order else 0)](_ => 0);
      PutQuantum(dptr, q, qset, Quantum(order), i, s, nodes, tables, quanta);
      SizedAfter(quanta, Quantum(order), PAGE_SIZE, i, s, q);
      pages := pages + {q};
      quanta := quanta[(i, s) := q];
    }

    method EnsurePages(dptr: Item, ghost i: nat, s: nat) returns (q: array?<byte>)
      requires Shape() && i < |nodes| && nodes[i] == dptr && s < qset
      modifies `tables, `quanta, `pages, dptr`data, tables
      ensures Shape() && fresh(pages - old(pages)) && fresh(tables - old(tables))
      ensures (q == null ==> mayFail && (i, s) !in quanta) && quanta == With(old(quanta), (i, s), q)
      ensures q != null ==> (i, s) in quanta && q == quanta[(i, s)] && q in pages
      ensures q != null && (i, s) !in old(quanta) ==> fresh(q) && q[..] == Zeros(BlockSize(order, i))
    {
      q := null;
      var ok := EnsureTable(dptr, i);
      TableTells(nodes, tables, quanta, qset, Quantum(order), i, s);
      if ok {
        q := dptr.data[s];
        if q == null {
          ok := Kmalloc();
          if ok {
            q := InstallPages(dptr, i, s);
          }
        }
      }
    }

    /** The memory side of scullp_write() up to the copy. */
    method Locate(fpos: nat) returns (q: array?<byte>, qPos: nat)
      requires Shape()
      modifies `nodes, `items, `tables, `quanta, `pages, nodes, tables
      ensures Shape() && old(nodes) <= nodes && forall x <- nodes :: x in old(nodes) || fresh(x)
      ensures fresh(pages - old(pages)) && fresh(tables - old(tables))
      ensures (q == null ==> mayFail && !HasBlock(fpos)) && quanta == With(old(quanta), KeyOf(fpos), q)
      ensures qPos == PlaceOf(Quantum(order), qset, fpos).offset
      ensures q != null ==>
        KeyOf(fpos).0 < |nodes| && KeyOf(fpos) in quanta && q == quanta[KeyOf(fpos)] && q in pages
      ensures q != null && KeyOf(fpos) !in old(quanta) ==> fresh(q) && q[..] == Zeros(BlockSize(order, KeyOf(fpos).0))
    {
      var item, sPos;
      item, sPos, qPos := Divide(Quantum(order), qset, fpos);
      var dptr := Follow(item);
      assert dptr in nodes;
      q := EnsurePages(dptr, item, sPos);
    }

    /** The content once there are pages for a position: a hole becomes zeros. */
    ghost function Filled(fpos: nat): map<nat, byte>
      requires 0 < qset
      reads `order, `qset, `quanta, `content
    {
      if KeyOf(fpos) in quanta then content
      else Overlay(content, StartOf(Quantum(order), qset, fpos), Zeros(BlockSize(order, KeyOf(fpos).0)))
    }

    /** The memory side, with what it does to the content. */
    method Obtain(fpos: nat) returns (q: array?<byte>, qPos: nat)
      requires Shape() && Refines()
      modifies `nodes, `items, `tables, `quanta, `pages, `content, nodes, tables
      ensures Shape() && Refines() && fresh(pages - old(pages))
      ensures old(nodes) <= nodes && forall x <- nodes :: x in old(nodes) || fresh(x)
      ensures (q == null ==> mayFail && !HasBlock(fpos)) && quanta == With(old(quanta), KeyOf(fpos), q)
      ensures content == if q == null then old(content) else old(Filled(fpos))
      ensures qPos == PlaceOf(Quantum(order), qset, fpos).offset
      ensures q != null ==>
        KeyOf(fpos).0 < |nodes| && KeyOf(fpos) in quanta && q == quanta[KeyOf(fpos)] && q in pages
      ensures q != null && KeyOf(fpos) !in old(quanta) ==> fresh(q)
    {
      ghost var before, held := quanta, content;
      q, qPos := Locate(fpos);
      assert Holding(before, Quantum(order), qset, held);
      Account(fpos, q, before);
    }

    /** A new block enters the content. */
    ghost method Account(fpos: nat, q: array?<byte>, before: Quanta)
      requires 0 < qset && Holding(before, Quantum(order), qset, content) && quanta == With(before, KeyOf(fpos), q)
      requires q != null && KeyOf(fpos) !in before ==> q[..] == Zeros(BlockSize(order, KeyOf(fpos).0))
      modifies `content
      ensures Refines()
      ensures content ==
        if q == null || KeyOf(fpos) in before then old(content)
        else Overlay(old(content), StartOf(Quantum(order), qset, fpos), Zeros(BlockSize(order, KeyOf(fpos).0)))
    {
      if q != null && KeyOf(fpos) !in before {
        NewQuantumHolds(before, content, Quantum(order), qset, fpos, q);
        content := Overlay(content, StartOf(Quantum(order), qset, fpos), q[..]);
      }
    }

    /** The list still reaches. */
    method Reserve(fpos: nat) returns (q: array?<byte>, qPos: nat)
      requires Valid()
      modifies `nodes, `items, `tables, `quanta, `pages, `content, nodes, tables
      ensures Valid() && fresh(pages - old(pages)) && forall x <- nodes :: x in old(nodes) || fresh(x)
      ensures (q == null ==> mayFail && !HasBlock(fpos)) && quanta == With(old(quanta), KeyOf(fpos), q)
      ensures content == if q == null then old(content) else old(Filled(fpos))
      ensures qPos == PlaceOf(Quantum(order), qset, fpos).offset
      ensures q != null ==>
        KeyOf(fpos).0 < |nodes| && KeyOf(fpos) in quanta && q == quanta[KeyOf(fpos)] && q in pages
      ensures q != null && KeyOf(fpos) !in old(quanta) ==> fresh(q)
    {
      q, qPos := Obtain(fpos);
    }

    /** copy_from_user() into the pages */
    method CopyIn(q: array<byte>, qPos: nat, fpos: nat, data: seq<byte>)
      requires Shape() && Refines()
      requires var p := PlaceOf(Quantum(order), qset, fpos);
        && p.offset == qPos && qPos + |data| <= q.Length
        && (p.item, p.slot) in quanta && q == quanta[(p.item, p.slot)]
      modifies q, `content
      ensures Shape() && Refines() && content == Overlay(old(content), fpos, data)
    {
      StoreBytes(q, qPos, data, quanta, |nodes|, Quantum(order), qset, fpos, content);
      content := Overlay(content, fpos, data);
    }

    /** The size follows the position. */
    method UpdateSize(fpos: nat, n: nat)
      requires 0 < qset && Reaches()
      requires var p := PlaceOf(Quantum(order), qset, fpos); p.item < |nodes| && p.offset + n <= Quantum(order)
      modifies `size
      ensures Reaches() && size == Guard.Max(old(size), fpos + n)
    {
      if size < fpos + n {
        size := fpos + n;
        LastItem(Quantum(order), qset, fpos, n);
      }
    }

    /** The copy, clipped at the end of the quantum, unless it would leave the block. */
    method Store(q: array<byte>, qPos: nat, fpos: nat, buf: seq<byte>) returns (r: Result)
      requires Valid()
      requires var p := PlaceOf(Quantum(order), qset, fpos);
        p.item < |nodes| && p.offset == qPos && (p.item, p.slot) in quanta && q == quanta[(p.item, p.slot)]
      modifies q, `content, `size
      ensures r != NoMemory && (r == Beyond <==> Overruns(order, qset, fpos, Min(|buf|, Left(fpos))))
      ensures r.Done? ==> Valid() && r.count == Min(|buf|, Left(fpos)) && size == Guard.Max(old(size), fpos + r.count)
      ensures r.Done? ==> content == Overlay(old(content), fpos, buf[..r.count])
    {
      var n := |buf|;
      if n > Quantum(order) - qPos {
        n := Quantum(order) - qPos;
      }
      FoundIsContent(fpos, q);
      if n != 0 && qPos + n > q.Length {
        return Beyond;
      }
      Fill(q, qPos, fpos, buf[..n]);
      r := Done(n);
    }

    method Fill(q: array<byte>, qPos: nat, fpos: nat, data: seq<byte>)
      requires Valid()
      requires var p := PlaceOf(Quantum(order), qset, fpos);
        && p.item < |nodes| && p.offset == qPos && (p.item, p.slot) in quanta && q == quanta[(p.item, p.slot)]
        && (data == [] || qPos + |data| <= q.Length)
      modifies q, `content, `size
      ensures Valid() && content == Overlay(old(content), fpos, data) && size == Guard.Max(old(size), fpos + |data|)
    {
      if data != [] {
        CopyIn(q, qPos, fpos, data);
      }
      UpdateSize(fpos, |data|);
    }

    /** scullp_write(): the bytes up to the end of the quantum are stored at exactly the
        positions reported, in a block that is zeroed if it is new, and nothing else
        changes; ENOMEM, only where there is no block, leaves content and size alone.  If the block does not reach that
        far the copy leaves the device's memory, and nothing more is said. */
    method Write(fpos: nat, buf: seq<byte>) returns (r: Result, q: array?<byte>)
      requires Valid()
      modifies `nodes, `items, `tables, `quanta, `pages, `content, `size, nodes, tables, pages
      ensures (r != Beyond ==> Valid()) && forall x <- nodes :: x in old(nodes) || fresh(x)
      ensures r == NoMemory ==> q == null && mayFail && !HasBlock(fpos)
      ensures r == NoMemory ==> content == old(content) && size == old(size)
      ensures r != NoMemory ==>
        q != null && (r == Beyond <==> Overruns(order, qset, fpos, Min(|buf|, Left(fpos))))
      ensures r.Done? ==> r.count == Min(|buf|, Left(fpos)) && size == Guard.Max(old(size), fpos + r.count)
      ensures r.Done? ==> content == Overlay(old(Filled(fpos)), fpos, buf[..r.count])
      ensures quanta == With(old(quanta), KeyOf(fpos), q)
      ensures q != null && KeyOf(fpos) !in old(quanta) ==> q !in dropped && q !in old(quanta).Values
    {
      var qPos;
      q, qPos := Reserve(fpos);
      r := NoMemory;
      if q != null {
        r := Store(q, qPos, fpos, buf);
      }
    }

    /** What is written is read back at once, from any position, and the size covers it;
        with order 0 a fault finds it as well. */
    method WriteThenRead(fpos: nat, buf: seq<byte>) returns (r: Result, data: ReadResult, page: array?<byte>)
      requires Valid()
      modifies `nodes, `items, `tables, `quanta, `pages, `content, `size, nodes, tables, pages
      ensures r == NoMemory ==> mayFail && size == old(size)
      ensures order == 0 ==> r != Beyond
      ensures r.Done? ==> r.count <= |buf| && r.count <= Left(fpos) && (r.count == |buf| || r.count == Left(fpos))
      ensures r.Done? ==> old(size) <= size && fpos + r.count <= size && (size == old(size) || size == fpos + r.count)
      ensures r.Done? ==> data == Data(buf[..r.count])
      ensures r.Done? && order == 0 && 0 < r.count ==>
        page != null && page.Length == PAGE_SIZE && fpos % PAGE_SIZE + r.count <= PAGE_SIZE
        && page[fpos % PAGE_SIZE..fpos % PAGE_SIZE + r.count] == buf[..r.count]
    {
      page, data := null, ReadBeyond;
      r := WriteFits(fpos, buf);
      if r.Done? {
        assert forall i :: 0 <= i < |nodes| ==> nodes[i] in nodes;
        data, page := GetBack(fpos, r.count, buf[..r.count]);
      }
    }

    /** The bytes that are reported are there, in a block that reaches that far. */
    method WriteFits(fpos: nat, buf: seq<byte>) returns (r: Result)
      requires Valid()
      modifies `nodes, `items, `tables, `quanta, `pages, `content, `size, nodes, tables, pages
      ensures (r != Beyond ==> Valid()) && forall x <- nodes :: x in old(nodes) || fresh(x)
      ensures (r == NoMemory ==> mayFail && size == old(size)) && (order == 0 ==> r != Beyond)
      ensures r.Done? ==> r.count <= |buf| && r.count <= Left(fpos) && (r.count == |buf| || r.count == Left(fpos))
      ensures r.Done? ==> old(size) <= size && fpos + r.count <= size && (size == old(size) || size == fpos + r.count)
      ensures r.Done? ==> HasBlock(fpos) && Stores(fpos, buf[..r.count]) && !Overruns(order, qset, fpos, r.count)
    {
      ghost var before := Filled(fpos);
      var q;
      r, q := Write(fpos, buf);
      if r.Done? {
        OverlayEverywhere(before, fpos, buf[..r.count]);
      }
    }

    /** The bytes from a position on are there. */
    ghost predicate Stores(fpos: nat, data: seq<byte>)
      reads `content
    {
      forall p :: fpos <= p < fpos + |data| ==> p in content && content[p] == data[p - fpos]
    }

    method GetBack(fpos: nat, n: nat, ghost data: seq<byte>) returns (r: ReadResult, page: array?<byte>)
      requires Valid() && HasBlock(fpos) && n == |data| <= Left(fpos) && fpos + n <= size && Stores(fpos, data)
      requires !Overruns(order, qset, fpos, n)
      modifies `nodes, `items, nodes`next
      ensures Valid() && r == Data(data)
      ensures order == 0 && data != [] ==>
        page != null && page.Length == PAGE_SIZE && fpos % PAGE_SIZE + |data| <= PAGE_SIZE
        && page[fpos % PAGE_SIZE..fpos % PAGE_SIZE + |data|] == data
    {
      r := ReadBack(fpos, n, data);
      page := FaultBack(fpos, data);
    }

    method ReadBack(fpos: nat, n: nat, ghost data: seq<byte>) returns (r: ReadResult)
      requires Valid() && HasBlock(fpos) && n == |data| <= Left(fpos) && fpos + n <= size && Stores(fpos, data)
      requires !Overruns(order, qset, fpos, n)
      modifies `nodes, `items, nodes`next
      ensures Valid() && r == Data(data)
    {
      var fpos';
      r, fpos' := Read(fpos, n);
      assert |r.bytes| == n;
      forall i | 0 <= i < n ensures r.bytes[i] == data[i] { assert fpos + i in content; }
    }

    method FaultBack(fpos: nat, ghost data: seq<byte>) returns (page: array?<byte>)
      requires Valid() && HasBlock(fpos) && |data| <= Left(fpos) && fpos + |data| <= size && Stores(fpos, data)
      ensures order == 0 && data != [] ==>
        page != null && page.Length == PAGE_SIZE && fpos % PAGE_SIZE + |data| <= PAGE_SIZE
        && page[fpos % PAGE_SIZE..fpos % PAGE_SIZE + |data|] == data
    {
      page := Nopage(fpos);
      if order == 0 && data != [] {
        NumberedPlace(qset, fpos);
        QuantumNumber(PAGE_SIZE, qset, fpos);
        forall i | 0 <= i < |data| ensures page[fpos % PAGE_SIZE + i] == data[i] {
          SameQuantum(PAGE_SIZE, qset, fpos, i);
          assert Found(quanta, PAGE_SIZE, qset, fpos + i) == Some(content[fpos + i]);
        }
      }
    }

    /** To the mappings that is one write, or nothing. */
    method WriteSeen(fpos: nat, buf: seq<byte>) returns (r: Result, ghost q: array?<byte>)
      requires Valid()
      modifies `nodes, `items, `tables, `quanta, `pages, `content, `size, nodes, tables, pages
      ensures r != Beyond ==> Valid()
      ensures r == NoMemory ==> View() == old(View())
      ensures r.Done? ==> r.count == Min(|buf|, Left(fpos))
      ensures r.Done? ==> content == Overlay(old(Filled(fpos)), fpos, buf[..r.count])
      ensures r.Done? ==> q != null && Guard.Enabled(old(View()), PageWrite(fpos, r.count, q))
      ensures r.Done? ==> View() == Guard.Step(old(View()), PageWrite(fpos, r.count, q))
    {
      ghost var before := View();
      var block;
      r, block := Write(fpos, buf);
      q := block;
      assert View() == before.(pages := quanta, size := size);
      if r.Done? {
        SeenAsWrite(before, fpos, r.count, block);
      }
    }

    lemma SeenAsWrite(before: Guard.State<array<byte>>, fpos: nat, n: nat, q: array<byte>)
      requires 0 < qset && before.lock == Guard.Free
      requires quanta == With(before.pages, KeyOf(fpos), q)
      requires KeyOf(fpos) !in before.pages ==> q !in before.dropped && q !in before.pages.Values
      requires View() == before.(pages := quanta, size := size) && size == Guard.Max(before.size, fpos + n)
      ensures Guard.Enabled(before, PageWrite(fpos, n, q)) && View() == Guard.Step(before, PageWrite(fpos, n, q))
    {
    }

    /** A write as ScullpGuard sees it. */
    ghost function PageWrite(fpos: nat, n: nat, q: array<byte>): Guard.Event<array<byte>>
      requires 0 < qset
      reads `order, `qset
    {
      Guard.Write(KeyOf(fpos), fpos + n, q)
    }

    // ---------- mapping ----------

    /** scullp_vma_open() for an area that a fork has made */
    method VmaOpen(ghost v: Guard.Vma, ghost from: Guard.Vma)
      requires v !in mappings
      modifies `vmas, `mappings, `seen
      ensures View() == Guard.Alone(Guard.Step(old(View()), Guard.Fork(0, v, from)), 0)
      ensures vmas == old(vmas) + 1 && mappings == old(mappings) + {v}
      ensures forall e <- old(seen) :: e in seen && (e.0 == from ==> (v, e.1) in seen)
    {
      Guard.ForkAlone(View(), 0, v, from);
      vmas := vmas + 1;
      mappings := mappings + {v};
      seen := seen + Guard.Copies(seen, Guard.Forked(from), v);
    }

    /** scullp_vma_close() */
    method VmaClose(ghost v: Guard.Vma)
      requires v in mappings
      modifies `vmas, `mappings, `seen
      ensures View() == Guard.Alone(Guard.Step(old(View()), Guard.Unmap(0, v)), 0)
      ensures vmas == old(vmas) - 1 && mappings == old(mappings) - {v} && forall e <- seen :: e.0 != v
    {
      Guard.UnmapAlone(View(), 0, v);
      vmas := vmas - 1;
      mappings := mappings - {v};
      seen := set e | e in seen && e.0 != v;
    }

    /** scullp_mmap(): ENODEV unless the order is 0. */
    method Mmap(ghost v: Guard.Vma) returns (ok: bool)
      requires v !in mappings
      modifies `vmas, `mappings
      ensures View() == Guard.Alone(Guard.Step(old(View()), Guard.Mmap(0, v)), 0) && (ok <==> order == 0)
      ensures vmas == old(vmas) + (if ok then 1 else 0) && mappings == old(mappings) + if ok then {v} else {}
    {
      Guard.MmapAlone(View(), 0, v);
      if order != 0 {
        return false;
      }
      vmas := vmas + 1;
      mappings := mappings + {v};
      ok := true;
    }

    // ---------- trimming ----------

    /** free_pages(): of a block that is allocated, and of the order it was allocated
        with. */
    ghost method FreePages(p: array?<byte>, o: nat)
      requires p != null ==> p in pages && p.Length == Quantum(o)
      modifies `pages, `dropped
      ensures pages == old(pages) - (if p == null then {} else {p})
      ensures dropped == old(dropped) + (if p == null then {} else {p})
    {
      if p != null {
        pages := pages - {p};
        dropped := dropped + {p};
      }
    }

    ghost method FreeTable(t: array<array?<byte>>)
      requires t in tables
      modifies `tables
      ensures tables == old(tables) - {t}
    {
      tables := tables - {t};
    }

    ghost method FreeItem(n: Item)
      requires n in items
      modifies `items
      ensures items == old(items) - {n}
    {
      items := items - {n};
    }

    /** scullp_trim(), the inner loop: the blocks of item k, freed with that item's order. */
    method FreeBlocks(t: array<array?<byte>>, ghost k: nat, o: nat)
      requires 0 < qset == t.Length && Separate(quanta, |nodes|, qset, Quantum(order)) && o == OwnOrder(order, k)
      requires Sized(quanta, Quantum(order), PAGE_SIZE)
      requires forall s :: 0 <= s < qset ==> t[s] == Lookup(quanta, k, s)
      requires pages == QuantaFrom(quanta, k, 0)
      modifies `pages, `dropped
      ensures pages == QuantaFrom(quanta, k, qset) && dropped + pages == old(dropped + pages)
    {
      for i := 0 to qset
        invariant pages == QuantaFrom(quanta, k, i) && dropped + pages == old(dropped + pages)
      {
        QuantaFromStep(quanta, |nodes|, qset, Quantum(order), k, i);
        FreePages(t[i], o);
      }
    }

    /** One item. */
    method FreeContents(dptr: Item, ghost k: nat, o: nat)
      requires 0 < qset && ItemHolds(dptr, k, quanta, qset) && o == OwnOrder(order, k)
      requires Separate(quanta, |nodes|, qset, Quantum(order)) && Sized(quanta, Quantum(order), PAGE_SIZE)
      requires pages == QuantaFrom(quanta, k, 0) && (dptr.data != null ==> dptr.data in tables)
      modifies `pages, `dropped, `tables, dptr`data
      ensures pages == QuantaFrom(quanta, k + 1, 0) && dptr.data == null && dropped + pages == old(dropped + pages)
      ensures tables == old(tables) - old(if dptr.data != null then {dptr.data} else {})
    {
      QuantaFromNextItem(quanta, |nodes|, qset, Quantum(order), k);
      if dptr.data != null {
        FreeBlocks(dptr.data, k, o);
        FreeTable(dptr.data);
        dptr.data := null;
      }
    }

    /** What the outer loop keeps: items from number k on are still there. */
    ghost predicate FreedUpTo(k: nat, ts: seq<array?<array?<byte>>>)
      reads `nodes, `quanta, `items, `tables, `pages, nodes
    {
      && k <= |nodes| == |ts|
      && items == ItemsFrom(nodes, if k == 0 then 1 else k)
      && tables == TablesFrom(ts, k) && pages == QuantaFrom(quanta, k, 0)
      && (forall i {:trigger nodes[i].data} :: 0 <= i < |nodes| ==> nodes[i].data == if i < k then null else ts[i])
    }

    /** One item is freed, with all it has; the device itself is not. */
    method FreeNext(dptr: Item, ghost k: nat, ghost ts: seq<array?<array?<byte>>>) returns (next: Item?)
      requires 0 < qset && Chain(first, nodes) && Apart(ts)
      requires Separate(quanta, |nodes|, qset, Quantum(order)) && Sized(quanta, Quantum(order), PAGE_SIZE)
      requires k < |nodes| && dptr == nodes[k] && FreedUpTo(k, ts) && ItemHolds(dptr, k, quanta, qset)
      modifies `items, `tables, `pages, `dropped, dptr`data
      ensures FreedUpTo(k + 1, ts) && next == NodeAt(nodes, k + 1)
      ensures dropped + pages == old(dropped + pages)
    {
      TablesFromStep(ts, k);
      FreeContents(dptr, k, if dptr == first then order else 0);
      next := dptr.next;
      LetGo(dptr, k);
    }

    /** kfree() of an item, unless it is the device. */
    method LetGo(dptr: Item, ghost k: nat)
      requires Chain(first, nodes) && k < |nodes| && dptr == nodes[k]
      requires items == ItemsFrom(nodes, if k == 0 then 1 else k)
      modifies `items
      ensures items == ItemsFrom(nodes, k + 1)
    {
      if dptr != first {
        ItemsFromStep(nodes, k);
        FreeItem(dptr);
      }
    }

    /** The outer loop: everything is freed, each once and while it is allocated, but
        the device itself. */
    method FreeAll()
      requires Shape()
      modifies `items, `tables, `pages, `dropped, nodes`data
      ensures items == {} && tables == {} && pages == {} && first.data == null
      ensures dropped == old(dropped) + old(pages)
    {
      ghost var ts := TableList(nodes);
      AllTables(nodes, tables, quanta, qset);
      QuantaFromNextItem(quanta, |nodes|, qset, Quantum(order), |nodes|);
      ghost var k := 0;
      var dptr: Item? := first;
      while dptr != null
        invariant k <= |nodes| && dptr == NodeAt(nodes, k) && FreedUpTo(k, ts)
        invariant dropped + pages == old(dropped + pages)
        decreases |nodes| - k
      {
        assert old(ItemHolds(nodes[k], k, quanta, qset));
        dptr := FreeNext(dptr, k, ts);
        k := k + 1;
      }
      assert nodes[0].data == null;
    }

    /** The last lines: an empty list. */
    method Reset()
      requires 0 < newQset && items == {} && tables == {} && pages == {} && first.data == null
      modifies `order, `qset, `size, `nodes, `quanta, `content, first`next
      ensures Valid() && nodes == [first] && quanta == map[] && content == map[]
      ensures size == 0 && order == newOrder && qset == newQset
    {
      size := 0;
      qset := newQset;
      order := newOrder;
      first.next := null;
      nodes, quanta, content := [first], map[], map[];
      assert ItemHolds(nodes[0], 0, quanta, qset);
    }

    method Clear()
      requires Valid() && 0 < newQset
      modifies `order, `qset, `size, `nodes, `quanta, `content, `items, `tables, `pages, `dropped
      modifies nodes`data, first`next
      ensures Valid() && nodes == [first] && items == {} && tables == {} && quanta == map[] && content == map[]
      ensures size == 0 && order == newOrder && qset == newQset && dropped == old(dropped) + old(pages)
    {
      FreeAll();
      Reset();
    }

    /** scullp_open() for writing only, and so scullp_trim(): EBUSY changes nothing.
        Otherwise all memory but the device is dropped, each piece once and each block with
        the order it has, and the device is empty, with the geometry now in force. */
    method Trim() returns (ok: bool)
      requires Valid() && 0 < newQset
      modifies this, nodes`data, first`next
      ensures Valid() && (ok <==> old(vmas) == 0)
      ensures View() == Guard.Alone(Guard.Step(old(View()), Guard.OpenWriteOnly(0)), 0)
      ensures ok ==> nodes == [first] && items == {} && tables == {} && pages == {} && content == map[]
      ensures ok ==> size == 0 && order == newOrder == old(newOrder) && qset == newQset == old(newQset)
      ensures ok ==> dropped == old(dropped) + old(pages)
      ensures !ok ==> unchanged(this) && unchanged(nodes)
    {
      Guard.TrimAlone(View(), 0);
      if vmas != 0 {
        return false;
      }
      Clear();
      ok := true;
    }

    /** ioctl() sets the geometry that the next trim takes. */
    method Ioctl(order: nat, qset: nat)
      modifies `newOrder, `newQset
      ensures View() == Guard.Step(old(View()), Guard.Ioctl(order, qset)) && newOrder == order && newQset == qset
    {
      newOrder, newQset := order, qset;
    }
  }
}
