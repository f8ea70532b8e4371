/** aesd-char-driver/aesd-circular-buffer.c: the ten most recent write commands. */
module AesdRing {
  import opened Ring

  const MAX_WRITE_OPERATIONS: nat := 10

  datatype Entry = Entry(buffptr: array?<byte>, size: nat)

  const NO_ENTRY: Entry := Entry(null, 0)

  function TotalSize(es: seq<Entry>): nat {
    if es == [] then 0 else es[0].size + TotalSize(es[1..])
  }

  lemma {:induction false} TotalSizeConcat(es: seq<Entry>, fs: seq<Entry>)
    ensures TotalSize(es + fs) == TotalSize(es) + TotalSize(fs)
  {
    if es == [] {
      assert es + fs == fs;
    } else {
      TotalSizeConcat(es[1..], fs);
      assert (es + fs)[1..] == es[1..] + fs;
    }
  }

  lemma TotalSizeStep(es: seq<Entry>, k: nat)
    requires k < |es|
    ensures TotalSize(es[..k + 1]) == TotalSize(es[..k]) + es[k].size
    ensures TotalSize(es) == TotalSize(es[..k]) + TotalSize(es[k..])
  {
    assert es[..k + 1] == es[..k] + [es[k]];
    TotalSizeConcat(es[..k], [es[k]]);
    assert es == es[..k] + es[k..];
    TotalSizeConcat(es[..k], es[k..]);
  }

  lemma {:induction false} NoSize(es: seq<Entry>)
    requires forall i :: 0 <= i < |es| ==> es[i] == NO_ENTRY
    ensures TotalSize(es) == 0
  {
    if es != [] {
      NoSize(es[1..]);
    }
  }

  /** The position is in entry k at the inner offset. */
  ghost predicate Located(es: seq<Entry>, offset: nat, k: nat, inner: nat) {
    k < |es| && inner < es[k].size && TotalSize(es[..k]) + inner == offset
  }

  class CircularBuffer {
    const entry: array<Entry>
    var inOffs: nat
    var outOffs: nat
    var full: bool

    ghost predicate Valid()
      reads this, entry
    {
      && entry.Length == MAX_WRITE_OPERATIONS
      && inOffs < MAX_WRITE_OPERATIONS
      && (full ==> outOffs == inOffs)
      && (!full ==> outOffs == 0 && forall i :: inOffs <= i < MAX_WRITE_OPERATIONS ==> entry[i] == NO_ENTRY)
    }

    /** All slots, from the output offset around. */
    ghost function Around(): seq<Entry>
      requires Valid()
      reads this, entry
    {
      entry[outOffs..] + entry[..outOffs]
    }

    /** The stored entries, oldest first. */
    ghost function Entries(): (es: seq<Entry>)
      requires Valid()
      reads this, entry
      ensures |es| == if full then MAX_WRITE_OPERATIONS else inOffs
    {
      if full then Around() else entry[..inOffs]
    }

    /** aesd_circular_buffer_init() */
    constructor ()
      ensures Valid() && fresh(entry) && Entries() == [] && !full
    {
      entry := new Entry[MAX_WRITE_OPERATIONS](_ => NO_ENTRY);
      inOffs, outOffs, full := 0, 0, false;
    }

    /** aesd_circular_buffer_add_entry(): the new entry is the youngest; in a full
        buffer it takes the place of the oldest, whose pointer is returned.  A
        buffer that is full stays full. */
    method AddEntry(addEntry: Entry) returns (evicted: array?<byte>)
      requires Valid()
      modifies this, entry
      ensures Valid()
      ensures old(full) ==> full && evicted == old(Entries())[0].buffptr
      ensures old(full) ==> Entries() == old(Entries())[1..] + [addEntry]
      ensures !old(full) ==> evicted == null && Entries() == old(Entries()) + [addEntry]
      ensures full <==> |Entries()| == MAX_WRITE_OPERATIONS
    {
      ghost var was := entry[..];
      evicted := null;
      if full {
        evicted := entry[inOffs].buffptr;
      }
      entry[inOffs] := addEntry;
      inOffs := (inOffs + 1) % MAX_WRITE_OPERATIONS;
      if full {
        outOffs := (outOffs + 1) % MAX_WRITE_OPERATIONS;
      }
      if inOffs == outOffs {
        full := true;
      } else {
        full := false;
      }
      assert entry[..] == was[old(inOffs) := addEntry];
      if old(full) {
        assert Around() == (was[old(inOffs)..] + was[..old(inOffs)])[1..] + [addEntry];
      }
    }

    /** The slot after k steps from the output offset. */
    function SlotOf(k: nat): nat
      reads this
    {
      if outOffs + k < MAX_WRITE_OPERATIONS then outOffs + k else outOffs + k - MAX_WRITE_OPERATIONS
    }

    lemma SlotOfIsAround(k: nat)
      requires Valid() && k < MAX_WRITE_OPERATIONS
      ensures SlotOf(k) < MAX_WRITE_OPERATIONS && |Around()| == MAX_WRITE_OPERATIONS && Around()[k] == entry[SlotOf(k)]
    {
    }

    /** Outside the stored entries there is nothing to find. */
    lemma AroundIsEntries(k: nat)
      requires Valid() && k <= MAX_WRITE_OPERATIONS
      ensures |Around()| == MAX_WRITE_OPERATIONS && Entries() <= Around()
      ensures |Entries()| <= k ==> TotalSize(Around()[..k]) == TotalSize(Entries())
    {
      var n := |Entries()|;
      assert Around()[..n] == Entries();
      if n <= k {
        assert Around()[..k] == Entries() + Around()[n..k];
        NoSize(Around()[n..k]);
        TotalSizeConcat(Entries(), Around()[n..k]);
      }
    }

    /** The search comes to the input offset before it would pass the last entry. */
    lemma NextSlot(k: nat)
      requires Valid() && k < MAX_WRITE_OPERATIONS && (!full && 0 < inOffs ==> k < inOffs)
      ensures (SlotOf(k) + 1) % MAX_WRITE_OPERATIONS == SlotOf(k + 1)
      ensures SlotOf(k + 1) != inOffs ==> k + 1 < MAX_WRITE_OPERATIONS && (!full && 0 < inOffs ==> k + 1 < inOffs)
    {
    }

    /** The size of the first k slots. */
    ghost function SizeTo(k: nat): nat
      requires Valid() && k <= MAX_WRITE_OPERATIONS
      reads this, entry
    {
      TotalSize(Around()[..k])
    }

    lemma SizeToNext(k: nat)
      requires Valid() && k < MAX_WRITE_OPERATIONS
      ensures SizeTo(k + 1) == SizeTo(k) + entry[SlotOf(k)].size
    {
      SlotOfIsAround(k);
      TotalSizeStep(Around(), k);
    }

    /** When the search has gone round to the input offset it has seen everything. */
    lemma AtInputOffset(k: nat)
      requires Valid() && 0 < k <= MAX_WRITE_OPERATIONS && SlotOf(k) == inOffs
      requires !full && 0 < inOffs ==> k <= inOffs
      ensures SizeTo(k) == TotalSize(Entries())
    {
      AroundIsEntries(k);
    }

    lemma FoundAmongEntries(k: nat, charOffset: nat)
      requires Valid() && k < MAX_WRITE_OPERATIONS && SizeTo(k) <= charOffset < SizeTo(k) + entry[SlotOf(k)].size
      ensures Located(Entries(), charOffset, k, charOffset - SizeTo(k))
      ensures entry[SlotOf(k)] == Entries()[k] && charOffset < TotalSize(Entries())
    {
      SlotOfIsAround(k);
      assert Around()[k] != NO_ENTRY;
      assert k < |Entries()| && Entries()[k] == Around()[k] && Entries()[..k] == Around()[..k];
      TotalSizeStep(Entries(), k);
    }

    /** aesd_circular_buffer_find_entry_offset_for_fpos(): the slot and inner offset
        of the character at that position of the concatenated entries; nothing
        exactly when the position is at or beyond their total length. */
    method FindEntryOffsetForFpos(charOffset: nat) returns (found: bool, position: nat, inner: nat, ghost k: nat)
      requires Valid()
      ensures found <==> charOffset < TotalSize(Entries())
      ensures found ==> Located(Entries(), charOffset, k, inner)
      ensures found ==> position < MAX_WRITE_OPERATIONS && entry[position] == Entries()[k]
    {
      position := outOffs;
      k, inner, found := 0, 0, false;
      var sizeOfBuffptr := entry[position].size;
      var totalEntry := 0;
      while true
        invariant k < MAX_WRITE_OPERATIONS && position == SlotOf(k) < MAX_WRITE_OPERATIONS
        invariant !full && 0 < inOffs ==> k < inOffs
        invariant totalEntry == SizeTo(k) <= charOffset && sizeOfBuffptr == totalEntry + entry[position].size
        invariant !found
        decreases MAX_WRITE_OPERATIONS - k
      {
        if charOffset >= sizeOfBuffptr {
          SizeToNext(k);
          NextSlot(k);
          totalEntry := sizeOfBuffptr;
          position := (position + 1) % MAX_WRITE_OPERATIONS;
          sizeOfBuffptr := sizeOfBuffptr + entry[position].size;
          k := k + 1;
          if position == inOffs {
            AtInputOffset(k);
            return;
          }
        } else {
          inner := charOffset - totalEntry;
          FoundAmongEntries(k, charOffset);
          return true, position, inner, k;
        }
      }
    }
  }
}
