/** Positions in a list of items of qset quanta each, as scull and scullp compute
    them: counting through the quanta, and by division. */
module QuantumAddress {

  datatype Place = Place(item: nat, slot: nat, offset: nat)

  ghost predicate Geometry(quantum: nat, qset: nat) {
    0 < quantum && 0 < qset
  }

  ghost predicate Within(quantum: nat, qset: nat, p: Place) {
    p.slot < qset && p.offset < quantum
  }

  /** One position on: within the quantum, into the next slot, into the next item. */
  ghost function Next(quantum: nat, qset: nat, p: Place): (r: Place)
    requires Geometry(quantum, qset) && Within(quantum, qset, p)
    ensures Within(quantum, qset, r)
  {
    if p.offset + 1 < quantum then Place(p.item, p.slot, p.offset + 1)
    else if p.slot + 1 < qset then Place(p.item, p.slot + 1, 0)
    else Place(p.item + 1, 0, 0)
  }

  /** The place that is reached by counting to a position. */
  ghost function PlaceOf(quantum: nat, qset: nat, pos: nat): (p: Place)
    requires Geometry(quantum, qset)
    ensures Within(quantum, qset, p)
    decreases pos
  {
    if pos == 0 then Place(0, 0, 0) else Next(quantum, qset, PlaceOf(quantum, qset, pos - 1))
  }

  /** The position of a place. */
  ghost function PositionOf(quantum: nat, qset: nat, p: Place): nat {
    p.item * (quantum * qset) + p.slot * quantum + p.offset
  }

  lemma OneMore(k: nat, d: nat)
    ensures (k + 1) * d == k * d + d
  {
  }

  lemma MulOrdered(a: nat, b: nat, c: nat)
    requires a <= b
    ensures a * c <= b * c
  {
  }

  lemma MulCommutes(a: nat, b: nat)
    ensures a * b == b * a
  {
  }

  lemma MulRegroups(a: nat, b: nat, c: nat)
    ensures a * (b * c) == (a * c) * b
  {
  }

  lemma MulDistributes(a: nat, b: nat, c: nat)
    ensures (a + b) * c == a * c + b * c
  {
  }

  lemma NextPosition(quantum: nat, qset: nat, p: Place)
    requires Geometry(quantum, qset) && Within(quantum, qset, p)
    ensures PositionOf(quantum, qset, Next(quantum, qset, p)) == PositionOf(quantum, qset, p) + 1
  {
    OneMore(p.slot, quantum);
    if p.offset + 1 == quantum && p.slot + 1 == qset {
      OneMore(p.item, quantum * qset);
      MulCommutes(qset, quantum);
    }
  }

  /** Every position lies in exactly one place... */
  lemma {:induction false} PlaceDeterminesPosition(quantum: nat, qset: nat, pos: nat)
    requires Geometry(quantum, qset)
    ensures PositionOf(quantum, qset, PlaceOf(quantum, qset, pos)) == pos
    decreases pos
  {
    if pos != 0 {
      PlaceDeterminesPosition(quantum, qset, pos - 1);
      NextPosition(quantum, qset, PlaceOf(quantum, qset, pos - 1));
    }
  }

  lemma QuotientIsUnique(d: nat, q: nat, r: nat, q': nat, r': nat)
    requires r < d && r' < d && q * d + r == q' * d + r'
    ensures q == q' && r == r'
  {
    if q < q' {
      MulOrdered(q + 1, q', d);
      OneMore(q, d);
    } else if q' < q {
      MulOrdered(q' + 1, q, d);
      OneMore(q', d);
    }
  }

  lemma RestWithin(quantum: nat, qset: nat, p: Place)
    requires Geometry(quantum, qset) && Within(quantum, qset, p)
    ensures p.slot * quantum + p.offset < quantum * qset
  {
    OneMore(p.slot, quantum);
    MulOrdered(p.slot + 1, qset, quantum);
    MulCommutes(qset, quantum);
  }

  lemma SamePositionSamePlace(quantum: nat, qset: nat, p: Place, p': Place)
    requires Geometry(quantum, qset) && Within(quantum, qset, p) && Within(quantum, qset, p')
    requires PositionOf(quantum, qset, p) == PositionOf(quantum, qset, p')
    ensures p == p'
  {
    RestWithin(quantum, qset, p);
    RestWithin(quantum, qset, p');
    var rest, rest' := p.slot * quantum + p.offset, p'.slot * quantum + p'.offset;
    QuotientIsUnique(quantum * qset, p.item, rest, p'.item, rest');
    QuotientIsUnique(quantum, p.slot, p.offset, p'.slot, p'.offset);
  }

  /** ...and every place has exactly one position. */
  lemma PositionDeterminesPlace(quantum: nat, qset: nat, p: Place)
    requires Geometry(quantum, qset) && Within(quantum, qset, p)
    ensures PlaceOf(quantum, qset, PositionOf(quantum, qset, p)) == p
  {
    var pos := PositionOf(quantum, qset, p);
    PlaceDeterminesPosition(quantum, qset, pos);
    SamePositionSamePlace(quantum, qset, p, PlaceOf(quantum, qset, pos));
  }

  /** Two positions in the same place are the same. */
  lemma SamePlaceSamePosition(quantum: nat, qset: nat, pos: nat, pos': nat)
    requires Geometry(quantum, qset)
    requires PlaceOf(quantum, qset, pos) == PlaceOf(quantum, qset, pos')
    ensures pos == pos'
  {
    PlaceDeterminesPosition(quantum, qset, pos);
    PlaceDeterminesPosition(quantum, qset, pos');
  }

  /** The positions up to the end of a quantum lie side by side in it. */
  lemma {:induction false} SameQuantum(quantum: nat, qset: nat, pos: nat, j: nat)
    requires Geometry(quantum, qset) && PlaceOf(quantum, qset, pos).offset + j < quantum
    ensures var p := PlaceOf(quantum, qset, pos);
      PlaceOf(quantum, qset, pos + j) == Place(p.item, p.slot, p.offset + j)
    decreases j
  {
    if j != 0 {
      SameQuantum(quantum, qset, pos, j - 1);
    }
  }

  /** Later positions lie in the same or later items. */
  lemma {:induction false} ItemsInOrder(quantum: nat, qset: nat, pos: nat, pos': nat)
    requires Geometry(quantum, qset) && pos <= pos'
    ensures PlaceOf(quantum, qset, pos).item <= PlaceOf(quantum, qset, pos').item
    decreases pos'
  {
    if pos != pos' {
      ItemsInOrder(quantum, qset, pos, pos' - 1);
    }
  }

  lemma {:induction false} CountBack(quantum: nat, qset: nat, pos: nat, j: nat)
    requires Geometry(quantum, qset) && j <= PlaceOf(quantum, qset, pos).offset
    ensures var p := PlaceOf(quantum, qset, pos);
      j <= pos && PlaceOf(quantum, qset, pos - j) == Place(p.item, p.slot, p.offset - j)
    decreases j
  {
    if j != 0 {
      CountBack(quantum, qset, pos - 1, j - 1);
    }
  }

  /** Where the quantum of a position begins. */
  ghost function StartOf(quantum: nat, qset: nat, pos: nat): (r: nat)
    requires Geometry(quantum, qset)
    ensures r <= pos < r + quantum && r + PlaceOf(quantum, qset, pos).offset == pos
    ensures var p := PlaceOf(quantum, qset, pos); PlaceOf(quantum, qset, r) == Place(p.item, p.slot, 0)
  {
    var k := PlaceOf(quantum, qset, pos).offset;
    CountBack(quantum, qset, pos, k);
    pos - k
  }

  ghost predicate SameSlot(a: Place, b: Place) {
    a.item == b.item && a.slot == b.slot
  }

  /** Of the positions, exactly those from pos on lie in the stretch of the quantum
      that starts at pos. */
  lemma StretchOfQuantum(quantum: nat, qset: nat, pos: nat, n: nat, p: nat)
    requires Geometry(quantum, qset) && PlaceOf(quantum, qset, pos).offset + n <= quantum
    ensures var a, b := PlaceOf(quantum, qset, pos), PlaceOf(quantum, qset, p);
      && (pos <= p < pos + n <==> SameSlot(a, b) && a.offset <= b.offset < a.offset + n)
      && (pos <= p < pos + n ==> b.offset - a.offset == p - pos)
  {
    var a, b := PlaceOf(quantum, qset, pos), PlaceOf(quantum, qset, p);
    if pos <= p < pos + n {
      SameQuantum(quantum, qset, pos, p - pos);
    } else if SameSlot(a, b) && a.offset <= b.offset < a.offset + n {
      InStretch(quantum, qset, pos, p, b.offset - a.offset);
    }
  }

  lemma InStretch(quantum: nat, qset: nat, pos: nat, p: nat, j: nat)
    requires Geometry(quantum, qset) && PlaceOf(quantum, qset, pos).offset + j < quantum
    requires var a := PlaceOf(quantum, qset, pos); PlaceOf(quantum, qset, p) == Place(a.item, a.slot, a.offset + j)
    ensures p == pos + j
  {
    SameQuantum(quantum, qset, pos, j);
    SamePlaceSamePosition(quantum, qset, p, pos + j);
  }

  /** The positions of a quantum. */
  lemma WholeQuantum(quantum: nat, qset: nat, pos: nat, p: nat)
    requires Geometry(quantum, qset)
    ensures var start, a, b := StartOf(quantum, qset, pos), PlaceOf(quantum, qset, pos), PlaceOf(quantum, qset, p);
      && (start <= p < start + quantum <==> SameSlot(a, b))
      && (start <= p < start + quantum ==> b.offset == p - start)
  {
    StretchOfQuantum(quantum, qset, StartOf(quantum, qset, pos), quantum, p);
  }

  /** A write within a quantum ends in the item where it began, or before. */
  lemma LastItem(quantum: nat, qset: nat, pos: nat, n: nat)
    requires Geometry(quantum, qset) && PlaceOf(quantum, qset, pos).offset + n <= quantum && 0 < pos + n
    ensures PlaceOf(quantum, qset, pos + n - 1).item <= PlaceOf(quantum, qset, pos).item
  {
    if n == 0 {
      ItemsInOrder(quantum, qset, pos - 1, pos);
    } else {
      SameQuantum(quantum, qset, pos, n - 1);
    }
  }

  // ---------- by division ----------

  lemma DivMod(x: nat, d: nat, q: nat, r: nat)
    requires 0 < d && q == x / d && r == x % d
    ensures x == q * d + r && r < d
  {
  }

  lemma DivisionIsUnique(x: nat, d: nat, q: nat, r: nat)
    requires r < d && x == q * d + r
    ensures x / d == q && x % d == r
  {
    var q', r' := x / d, x % d;
    DivMod(x, d, q', r');
    QuotientIsUnique(d, q, r, q', r');
  }

  /** Nested division finds the place. */
  method Divide(quantum: nat, qset: nat, fpos: nat) returns (item: nat, sPos: nat, qPos: nat)
    requires Geometry(quantum, qset)
    ensures Place(item, sPos, qPos) == PlaceOf(quantum, qset, fpos)
  {
    ghost var p := PlaceOf(quantum, qset, fpos);
    ghost var left := p.slot * quantum + p.offset;
    PlaceDeterminesPosition(quantum, qset, fpos);
    RestWithin(quantum, qset, p);
    DivisionIsUnique(fpos, quantum * qset, p.item, left);
    DivisionIsUnique(left, quantum, p.slot, p.offset);
    var itemsize := quantum * qset;
    item := fpos / itemsize;
    var rest := fpos % itemsize;
    sPos := rest / quantum;
    qPos := rest % quantum;
  }

  /** With the item size left out, division finds the number of the quantum. */
  lemma QuantumNumber(quantum: nat, qset: nat, pos: nat)
    requires Geometry(quantum, qset)
    ensures var p := PlaceOf(quantum, qset, pos);
      pos / quantum == p.item * qset + p.slot && pos % quantum == p.offset
  {
    var p := PlaceOf(quantum, qset, pos);
    PlaceDeterminesPosition(quantum, qset, pos);
    MulRegroups(p.item, quantum, qset);
    MulDistributes(p.item * qset, p.slot, quantum);
    DivisionIsUnique(pos, quantum, p.item * qset + p.slot, p.offset);
  }
}
