/** aesd-char-driver/main.c: writes accumulate until a newline, then become one
    entry of the ring; reads see the ring as one stream.  Allocation is tracked:
    live holds the buffers obtained from kmalloc and not yet freed.  When memory may be
    short, any allocation may fail. */
module AesdDriver {
  import opened Ring
  import opened AesdRing

  const NEWLINE: byte := 10

  function Concat(cs: seq<seq<byte>>): seq<byte> {
    if cs == [] then [] else cs[0] + Concat(cs[1..])
  }

  lemma {:induction false} ConcatAppend(cs: seq<seq<byte>>, ds: seq<seq<byte>>)
    ensures Concat(cs + ds) == Concat(cs) + Concat(ds)
  {
    if cs == [] {
      assert cs + ds == ds;
    } else {
      ConcatAppend(cs[1..], ds);
      assert (cs + ds)[1..] == cs[1..] + ds;
      Regroup(cs[0], Concat(cs[1..]), Concat(ds));
    }
  }

  lemma ConcatOne(c: seq<byte>)
    ensures Concat([c]) == c
  {
    assert Concat([]) == [];
  }

  /** The stream around command k. */
  lemma SplitStream(cs: seq<seq<byte>>, k: nat)
    requires k < |cs|
    ensures Concat(cs) == Concat(cs[..k]) + (cs[k] + Concat(cs[k + 1..]))
  {
    SplitAt(cs, k);
    ConcatAppend(cs[..k], [cs[k]] + cs[k + 1..]);
    ConcatAppend([cs[k]], cs[k + 1..]);
    ConcatOne(cs[k]);
  }

  lemma SplitAt<T>(s: seq<T>, k: nat)
    requires k < |s|
    ensures s[..k] + ([s[k]] + s[k + 1..]) == s
  {
  }

  lemma SliceInMiddle(a: seq<byte>, m: seq<byte>, b: seq<byte>, inner: nat, n: nat)
    requires inner + n <= |m|
    ensures (a + (m + b))[|a| + inner..|a| + inner + n] == m[inner..inner + n]
  {
  }

  /** A piece of command k is the same piece of the stream. */
  lemma PieceOfStream(cs: seq<seq<byte>>, k: nat, inner: nat, n: nat, at: nat)
    requires k < |cs| && inner + n <= |cs[k]| && at == |Concat(cs[..k])| + inner
    ensures at + n <= |Concat(cs)| && Concat(cs)[at..at + n] == cs[k][inner..inner + n]
  {
    SplitStream(cs, k);
    SliceInMiddle(Concat(cs[..k]), cs[k], Concat(cs[k + 1..]), inner, n);
    assert |Concat(cs)| == |Concat(cs[..k])| + |cs[k]| + |Concat(cs[k + 1..])|;
  }

  lemma {:induction false} SameSizes(es: seq<Entry>, commands: seq<seq<byte>>)
    requires |es| == |commands| && forall i :: 0 <= i < |es| ==> es[i].size == |commands[i]|
    ensures TotalSize(es) == |Concat(commands)|
  {
    if es != [] {
      SameSizes(es[1..], commands[1..]);
    }
  }

  // ---------- memory ----------

  /** Each entry owns a buffer that holds its command. */
  ghost predicate EntryMemory(es: seq<Entry>, live: set<array<byte>>, commands: seq<seq<byte>>)
    reads live
  {
    && |es| == |commands|
    && (forall i :: 0 <= i < |es| ==> es[i].buffptr != null && es[i].buffptr in live)
    && (forall i :: 0 <= i < |es| ==> es[i].size == es[i].buffptr.Length && es[i].buffptr[..] == commands[i])
    && (forall i, j :: 0 <= i < j < |es| ==> es[i].buffptr != es[j].buffptr)
  }

  ghost predicate OwnedByEntry(es: seq<Entry>, b: array<byte>) {
    exists i :: 0 <= i < |es| && es[i].buffptr == b
  }

  /** The pending command, if it has bytes and has not lost them, is in its buffer. */
  predicate Held(temp: Entry) {
    temp.buffptr != null && temp.size != 0
  }

  ghost predicate PendingMemory(es: seq<Entry>, temp: Entry, live: set<array<byte>>, pending: seq<byte>)
    reads live
  {
    && temp.buffptr != null && temp.buffptr in live
    && temp.buffptr.Length == temp.size && temp.buffptr[..] == pending
    && !OwnedByEntry(es, temp.buffptr)
  }

  /** Besides the buffers of the entries and of the pending command, just those are
      allocated that have been leaked. */
  ghost predicate Memory(es: seq<Entry>, temp: Entry, live: set<array<byte>>, leaked: set<array<byte>>,
                         commands: seq<seq<byte>>, pending: seq<byte>)
    reads live
  {
    && EntryMemory(es, live, commands)
    && temp.size == |pending|
    && (Held(temp) ==> PendingMemory(es, temp, live, pending) && temp.buffptr !in leaked)
    && leaked <= live
    && (forall b <- live :: b in leaked <==> !OwnedByEntry(es, b) && !(Held(temp) && b == temp.buffptr))
  }

  /** A command enters a ring that is not full: no memory changes hands. */
  lemma MemoryAfterCommit(es: seq<Entry>, temp: Entry, live: set<array<byte>>, leaked: set<array<byte>>,
                          commands: seq<seq<byte>>, pending: seq<byte>)
    requires Memory(es, temp, live, leaked, commands, pending) && Held(temp)
    ensures Memory(es + [temp], NO_ENTRY, live, leaked, commands + [pending], [])
  {
    var es' := es + [temp];
    assert es'[|es|] == temp;
    forall b <- live
      ensures OwnedByEntry(es', b) <==> OwnedByEntry(es, b) || b == temp.buffptr
    {
      if OwnedByEntry(es, b) {
        var i :| 0 <= i < |es| && es[i].buffptr == b;
        assert es'[i].buffptr == b;
      }
    }
  }

  /** The oldest command leaves and its buffer is freed. */
  lemma MemoryAfterEviction(es: seq<Entry>, live: set<array<byte>>, leaked: set<array<byte>>, commands: seq<seq<byte>>)
    requires Memory(es, NO_ENTRY, live, leaked, commands, []) && es != []
    ensures es[0].buffptr != null && es[0].buffptr in live
    ensures Memory(es[1..], NO_ENTRY, live - {es[0].buffptr}, leaked, commands[1..], [])
  {
    var es' := es[1..];
    assert OwnedByEntry(es, es[0].buffptr);
    forall b <- live
      ensures OwnedByEntry(es', b) <==> OwnedByEntry(es, b) && b != es[0].buffptr
    {
      if OwnedByEntry(es, b) && b != es[0].buffptr {
        var i :| 0 <= i < |es| && es[i].buffptr == b;
        assert es'[i - 1].buffptr == b;
      }
    }
  }

  /** The pending command moves to another buffer. */
  lemma MemoryAfterAppend(es: seq<Entry>, temp: Entry, live: set<array<byte>>, leaked: set<array<byte>>,
                          commands: seq<seq<byte>>, pending: seq<byte>,
                          p: array<byte>, live': set<array<byte>>, pending': seq<byte>)
    requires Memory(es, temp, live, leaked, commands, pending)
    requires p !in live && p[..] == pending' && p.Length == |pending'|
    requires live' == live - (if Held(temp) then {temp.buffptr} else {}) + (if pending' != [] then {p} else {})
    ensures Memory(es, Entry(p, |pending'|), live', leaked, commands, pending')
  {
    assert !OwnedByEntry(es, p);
  }

  /** krealloc() has failed: nobody points to the pending bytes any more. */
  lemma MemoryAfterLoss(es: seq<Entry>, temp: Entry, live: set<array<byte>>, leaked: set<array<byte>>,
                        commands: seq<seq<byte>>, pending: seq<byte>)
    requires Memory(es, temp, live, leaked, commands, pending)
    ensures Memory(es, Entry(null, temp.size), live, leaked + (if Held(temp) then {temp.buffptr} else {}),
                   commands, pending)
  {
  }

  // ---------- history ----------

  lemma CommandAppended(cs: seq<seq<byte>>, c: seq<byte>)
    ensures Concat(cs + [c]) == Concat(cs) + c
  {
    ConcatAppend(cs, [c]);
    ConcatOne(c);
  }

  function LastTen(all: seq<seq<byte>>): seq<seq<byte>> {
    if |all| <= MAX_WRITE_OPERATIONS then all else all[|all| - MAX_WRITE_OPERATIONS..]
  }

  /** The stream is what was accepted, except where bytes have been lost. */
  ghost predicate Agrees(accepted: seq<byte>, stream: seq<byte>, lost: set<nat>) {
    |accepted| == |stream| && forall i: nat :: i < |accepted| && i !in lost ==> accepted[i] == stream[i]
  }

  predicate Within(from: nat, to: nat, i: nat) {
    from <= i < to
  }

  ghost function Positions(from: nat, to: nat): (r: set<nat>)
    ensures from < to ==> from in r
  {
    set i: nat | from <= i < to && Within(from, to, i)
  }

  /** The bytes accepted are the committed commands and the pending one; every
      committed command has a newline; the ring holds the last ten commands, or all
      if there are fewer. */
  ghost predicate History(committed: seq<seq<byte>>, commands: seq<seq<byte>>, pending: seq<byte>, accepted: seq<byte>,
                          lost: set<nat>) {
    && Agrees(accepted, Concat(committed) + pending, lost)
    && (forall i :: 0 <= i < |committed| ==> NEWLINE in committed[i])
    && commands == LastTen(committed)
  }

  lemma LastTenStep(all: seq<seq<byte>>, c: seq<byte>)
    ensures LastTen(LastTen(all) + [c]) == LastTen(all + [c])
  {
  }

  lemma AgreesMore(accepted: seq<byte>, stream: seq<byte>, lost: set<nat>, buf: seq<byte>)
    requires Agrees(accepted, stream, lost)
    ensures Agrees(accepted + buf, stream + buf, lost)
  {
  }

  /** The pending bytes may be any, once their positions count as lost. */
  lemma AgreesOnTheRest(accepted: seq<byte>, all: seq<byte>, pending: seq<byte>, other: seq<byte>, lost: set<nat>)
    requires Agrees(accepted, all + pending, lost) && |other| == |pending|
    requires other == pending || Positions(|all|, |accepted|) <= lost
    ensures Agrees(accepted, all + other, lost)
  {
  }

  lemma HistoryAfterAppend(committed: seq<seq<byte>>, commands: seq<seq<byte>>, pending: seq<byte>, accepted: seq<byte>,
                           lost: set<nat>, kept: seq<byte>, buf: seq<byte>)
    requires History(committed, commands, pending, accepted, lost) && |kept| == |pending|
    requires kept == pending || Positions(|Concat(committed)|, |accepted|) <= lost
    ensures History(committed, commands, kept + buf, accepted + buf, lost)
  {
    AgreesOnTheRest(accepted, Concat(committed), pending, kept, lost);
    AgreesMore(accepted, Concat(committed) + kept, lost, buf);
    Regroup(Concat(committed), kept, buf);
  }

  /** One more command: it enters behind the others, and the first of eleven leaves. */
  lemma HistoryAfterCommit(committed: seq<seq<byte>>, commands: seq<seq<byte>>, pending: seq<byte>, accepted: seq<byte>,
                           lost: set<nat>)
    requires History(committed, commands, pending, accepted, lost) && NEWLINE in pending
    ensures History(committed + [pending], LastTen(commands + [pending]), [], accepted, lost)
  {
    LastTenStep(committed, pending);
    CommandAppended(committed, pending);
    assert Concat(committed + [pending]) + [] == Concat(committed) + pending;
  }

  /** What a write adds, with or without a newline. */
  lemma HistoryAfterWrite(committed: seq<seq<byte>>, commands: seq<seq<byte>>, pending: seq<byte>, accepted: seq<byte>,
                          lost: set<nat>, kept: seq<byte>, buf: seq<byte>)
    requires History(committed, commands, pending, accepted, lost) && |kept| == |pending|
    requires kept == pending || Positions(|Concat(committed)|, |accepted|) <= lost
    ensures NEWLINE !in kept + buf ==> History(committed, commands, kept + buf, accepted + buf, lost)
    ensures NEWLINE in kept + buf ==>
      History(committed + [kept + buf], LastTen(commands + [kept + buf]), [], accepted + buf, lost)
  {
    HistoryAfterAppend(committed, commands, pending, accepted, lost, kept, buf);
    if NEWLINE in kept + buf {
      HistoryAfterCommit(committed, commands, kept + buf, accepted + buf, lost);
    }
  }

  datatype WriteResult = Written(count: nat) | NoMemory

  class AesdDev {
    const ring: CircularBuffer
    const mayFail: bool                  // may memory be short?
    var tempEntry: Entry
    ghost var live: set<array<byte>>
    ghost var leaked: set<array<byte>>   // allocated, and nobody points there
    ghost var commands: seq<seq<byte>>   // what the ring holds
    ghost var committed: seq<seq<byte>>  // every command so far
    ghost var pending: seq<byte>         // what tempEntry holds, or held when it lost it
    ghost var accepted: seq<byte>        // everything written so far
    ghost var lost: set<nat>             // the positions in it of bytes that were lost

    /** A size without a buffer: what a failed krealloc() leaves behind. */
    predicate Damaged()
      reads this
    {
      tempEntry.buffptr == null && tempEntry.size != 0
    }

    ghost predicate MemoryValid()
      reads `tempEntry, `live, `leaked, `commands, `pending, ring, ring.entry, live
    {
      && ring.Valid() && (ring.full <==> |commands| == MAX_WRITE_OPERATIONS)
      && Memory(ring.Entries(), tempEntry, live, leaked, commands, pending)
    }

    ghost predicate HistoryValid()
      reads this
    {
      && History(committed, commands, pending, accepted, lost) && NEWLINE !in pending
      && (Damaged() ==> Positions(|Concat(committed)|, |accepted|) <= lost)
    }

    ghost predicate Valid()
      reads this, ring, ring.entry, live
    {
      MemoryValid() && HistoryValid()
    }

    /** What a reader sees. */
    ghost function Stream(): seq<byte>
      reads this
    {
      Concat(commands)
    }

    /** As long as nothing has been lost, what was accepted is in the commands and the
        pending bytes, byte for byte. */
    lemma NothingLostNothingChanged()
      requires Valid() && lost == {}
      ensures accepted == Concat(committed) + pending && !Damaged()
    {
    }

    /** aesd_init_module() */
    constructor (mayFail: bool)
      ensures Valid() && fresh(ring) && fresh(ring.entry) && this.mayFail == mayFail
      ensures live == {} && leaked == {} && lost == {} && tempEntry == NO_ENTRY
      ensures commands == [] && committed == [] && pending == [] && accepted == []
    {
      this.mayFail := mayFail;
      ring := new CircularBuffer();
      tempEntry := NO_ENTRY;
      live, leaked, lost := {}, {}, {};
      commands, committed, pending, accepted := [], [], [], [];
    }

    /** kmalloc(): an object of no bytes takes no memory. */
    method Kmalloc(n: nat) returns (p: array?<byte>)
      modifies this`live
      ensures if p == null then mayFail else fresh(p) && p.Length == n
      ensures live == old(live) + if p != null && 0 < n then {p} else {}
    {
      var ok: bool := *;
      if !ok && mayFail {
        return null;
      }
      var a := new byte[n];
      p := a;
      if 0 < n {
        live := live + {a};
      }
    }

    /** kfree(): of something that is allocated. */
    ghost method Kfree(p: array<byte>)
      requires p in live
      modifies this`live
      ensures live == old(live) - {p}
    {
      live := live - {p};
    }

    /** krealloc() to more bytes: of nothing it is kmalloc(); otherwise the content moves
        over and the old buffer is freed, or it fails and all stays. */
    method Krealloc(p: array?<byte>, n: nat) returns (q: array?<byte>)
      requires 0 < n && (p != null ==> p in live && 0 < p.Length <= n)
      modifies this`live
      ensures q == null ==> mayFail && live == old(live)
      ensures q != null ==> fresh(q) && q.Length == n && (p != null ==> q[..p.Length] == p[..])
      ensures q != null ==> live == old(live) - (if p != null then {p} else {}) + {q}
    {
      q := Kmalloc(n);
      if q != null && p != null {
        forall i | 0 <= i < p.Length {
          q[i] := p[i];
        }
        assert q[..p.Length] == p[..];
        Kfree(p);
      }
    }

    /** A buffer with room for n more bytes behind the pending ones: with these in
        front, or with whatever the memory held if they are lost. */
    method Room(n: nat) returns (p: array?<byte>)
      requires MemoryValid()
      modifies this`live
      ensures p == null ==> mayFail && live == old(live)
      ensures p != null ==> fresh(p) && p.Length == |pending| + n
      ensures p != null && !Damaged() ==> p[..|pending|] == pending
      ensures p != null ==>
        live == old(live) - (if Held(tempEntry) then {tempEntry.buffptr} else {}) + (if 0 < p.Length then {p} else {})
    {
      if tempEntry.size == 0 {
        p := Kmalloc(n);
      } else {
        p := Krealloc(tempEntry.buffptr, tempEntry.size + n);
      }
    }

    /** copy_from_user() behind the pending bytes. */
    method CopyBehind(p: array<byte>, size: nat, buf: seq<byte>)
      requires p.Length == size + |buf|
      modifies p
      ensures p[..] == old(p[..size]) + buf
    {
      CopyIn(p, size, buf);
    }

    /** krealloc() or kmalloc() has failed: the pointer is gone, the size stays. */
    method Forget()
      requires MemoryValid()
      modifies this`tempEntry, this`leaked
      ensures MemoryValid() && tempEntry == Entry(null, old(tempEntry.size))
      ensures leaked == old(leaked) + if Held(old(tempEntry)) then {old(tempEntry.buffptr)} else {}
    {
      MemoryAfterLoss(ring.Entries(), tempEntry, live, leaked, commands, pending);
      if Held(tempEntry) {
        leaked := leaked + {tempEntry.buffptr};
      }
      tempEntry := Entry(null, tempEntry.size);
    }

    /** The pending bytes, or what has come in their place, in their new buffer. */
    method MoveTo(p: array<byte>, ghost before: set<array<byte>>, ghost now: seq<byte>)
      requires ring.Valid() && (ring.full <==> |commands| == MAX_WRITE_OPERATIONS)
      requires Memory(ring.Entries(), tempEntry, before, leaked, commands, pending)
      requires p !in before && p[..] == now
      requires live == before - (if Held(tempEntry) then {tempEntry.buffptr} else {}) + (if now != [] then {p} else {})
      modifies this`tempEntry, this`pending
      ensures MemoryValid() && pending == now && tempEntry == Entry(p, |now|)
    {
      MemoryAfterAppend(ring.Entries(), tempEntry, before, leaked, commands, pending, p, live, now);
      tempEntry := Entry(p, p.Length);
      pending := now;
    }

    /** aesd_write() up to the copy.  The bytes go behind the pending ones, which are as
        they were unless they had been lost before.  When memory runs out while there
        are pending bytes, these are lost and their buffer is leaked. */
    method Append(buf: seq<byte>) returns (ok: bool, ghost kept: seq<byte>)
      requires MemoryValid()
      modifies this`tempEntry, this`live, this`leaked, this`pending
      ensures MemoryValid() && |kept| == |old(pending)| && (!old(Damaged()) ==> kept == old(pending))
      ensures ok ==> pending == kept + buf && !Damaged() && leaked == old(leaked)
      ensures !ok ==> mayFail && pending == old(pending) && live == old(live) && (Damaged() <==> pending != [])
      ensures !ok ==> leaked == old(leaked) + if Held(old(tempEntry)) then {old(tempEntry.buffptr)} else {}
    {
      kept := pending;
      ghost var before := live;
      var p := Room(|buf|);
      if p == null {
        Forget();
        return false, kept;
      }
      kept := p[..|pending|];
      CopyBehind(p, tempEntry.size, buf);
      MoveTo(p, before, kept + buf);
      ok := true;
    }

    /** The ring's own bookkeeping touches no command buffer. */
    method AddToRing(e: Entry, ghost es: seq<Entry>, ghost cs: seq<seq<byte>>) returns (entry: array?<byte>)
      requires ring.Valid() && Memory(es, NO_ENTRY, live, leaked, cs, [])
      requires es == ring.Entries() + [e]
      modifies ring, ring.entry
      ensures ring.Valid() && Memory(es, NO_ENTRY, live, leaked, cs, [])
      ensures ring.full <==> |ring.Entries()| == MAX_WRITE_OPERATIONS
      ensures old(ring.full) ==> ring.full && ring.Entries() == es[1..] && entry == es[0].buffptr
      ensures !old(ring.full) ==> ring.Entries() == es && entry == null
    {
      entry := ring.AddEntry(e);
    }

    /** aesd_write() once a newline is there: the pending command enters the ring... */
    method Enter(ghost es: seq<Entry>) returns (entry: array?<byte>)
      requires MemoryValid() && Held(tempEntry) && es == ring.Entries() + [tempEntry]
      modifies this`tempEntry, this`pending, this`commands, ring, ring.entry
      ensures pending == [] && tempEntry == NO_ENTRY && commands == old(commands) + [old(pending)]
      ensures ring.Valid() && Memory(es, tempEntry, live, leaked, commands, pending)
      ensures ring.full <==> |ring.Entries()| == MAX_WRITE_OPERATIONS
      ensures old(ring.full) ==> ring.full && ring.Entries() == es[1..] && entry == es[0].buffptr
      ensures !old(ring.full) ==> ring.Entries() == es && entry == null
    {
      MemoryAfterCommit(ring.Entries(), tempEntry, live, leaked, commands, pending);
      entry := AddToRing(tempEntry, es, commands + [pending]);
      commands := commands + [pending];
      tempEntry := NO_ENTRY;
      pending := [];
    }

    /** ...and the buffer of the command it pushes out is freed. */
    method Commit()
      requires MemoryValid() && Held(tempEntry)
      modifies this`tempEntry, this`live, this`pending, this`commands, ring, ring.entry
      ensures MemoryValid() && pending == [] && !Damaged()
      ensures commands == LastTen(old(commands) + [old(pending)])
      ensures live == if old(ring.full) then old(live) - {old(ring.Entries()[0].buffptr)} else old(live)
    {
      ghost var es := ring.Entries() + [tempEntry];
      var entry := Enter(es);
      if entry != null {
        EvictOldest(es, entry);
      }
    }

    /** Frees what the ring has handed back. */
    ghost method EvictOldest(es: seq<Entry>, entry: array<byte>)
      requires Memory(es, tempEntry, live, leaked, commands, pending) && tempEntry == NO_ENTRY && pending == []
      requires es != [] && es[0].buffptr == entry
      modifies this`live, this`commands
      ensures live == old(live) - {entry} && commands == old(commands)[1..]
      ensures Memory(es[1..], tempEntry, live, leaked, commands, pending)
    {
      MemoryAfterEviction(es, live, leaked, commands);
      Kfree(entry);
      commands := commands[1..];
    }

    /** What aesd_write() does to the buffers. */
    method Submit(buf: seq<byte>) returns (ok: bool, ghost kept: seq<byte>, newline: bool)
      requires MemoryValid()
      modifies `tempEntry, `live, `leaked, `pending, `commands, ring, ring.entry
      ensures MemoryValid() && |kept| == |old(pending)| && (!old(Damaged()) ==> kept == old(pending))
      ensures ok ==> !Damaged() && leaked == old(leaked)
      ensures ok ==> (newline <==> NEWLINE in kept + buf)
      ensures ok && !newline ==> pending == kept + buf && commands == old(commands)
      ensures ok && newline ==> pending == [] && commands == LastTen(old(commands) + [kept + buf])
      ensures !ok ==> mayFail && pending == old(pending) && commands == old(commands) && (Damaged() <==> pending != [])
      ensures !ok ==> leaked == old(leaked) + if Held(old(tempEntry)) then {old(tempEntry.buffptr)} else {}
    {
      newline := false;
      ok, kept := Append(buf);
      if ok {
        newline := Newline();
        if newline {
          Commit();
        }
      }
    }

    /** memchr() over the pending bytes. */
    method Newline() returns (found: bool)
      requires MemoryValid() && !Damaged()
      ensures found <==> NEWLINE in pending
    {
      if tempEntry.size == 0 {
        return false;
      }
      found := NEWLINE in tempEntry.buffptr[..tempEntry.size];
    }

    /** Accepted bytes enter the record. */
    ghost method Record(held: seq<seq<byte>>, before: seq<byte>, damaged: bool, kept: seq<byte>, buf: seq<byte>,
                        newline: bool)
      requires MemoryValid() && History(committed, held, before, accepted, lost)
      requires |kept| == |before| && (!damaged ==> kept == before)
      requires damaged ==> Positions(|Concat(committed)|, |accepted|) <= lost
      requires !Damaged() && (newline <==> NEWLINE in kept + buf)
      requires !newline ==> pending == kept + buf && commands == held
      requires newline ==> pending == [] && commands == LastTen(held + [kept + buf])
      modifies `committed, `accepted
      ensures Valid() && accepted == old(accepted) + buf
      ensures committed == if newline then old(committed) + [kept + buf] else old(committed)
    {
      HistoryAfterWrite(committed, held, before, accepted, lost, kept, buf);
      accepted, committed := accepted + buf, if newline then committed + [kept + buf] else committed;
    }

    /** aesd_write().  With memory, all bytes are taken; without a newline they stay
        pending; with one, everything pending becomes one command, at the expense of the
        oldest if there are ten, whose buffer is freed.  Out of memory nothing is taken;
        if bytes were pending then, and only then, they are lost, and their buffer is
        leaked: the next command has as many unspecified bytes in their place. */
    method Write(buf: seq<byte>, fpos: nat) returns (r: WriteResult, fpos': nat, ghost kept: seq<byte>)
      requires Valid()
      modifies this, ring, ring.entry
      ensures Valid() && |kept| == |old(pending)| && (!old(Damaged()) ==> kept == old(pending))
      ensures r == NoMemory ==> mayFail && fpos' == fpos && (Damaged() <==> pending != [])
      ensures r == NoMemory ==>
        pending == old(pending) && commands == old(commands) && committed == old(committed) && accepted == old(accepted)
      ensures r == NoMemory ==> lost == old(lost) + Positions(|Concat(committed)|, |accepted|)
      ensures r == NoMemory ==> leaked == old(leaked) + if Held(old(tempEntry)) then {old(tempEntry.buffptr)} else {}
      ensures r.Written? ==> r.count == |buf| && fpos' == 0 && accepted == old(accepted) + buf
      ensures r.Written? ==> lost == old(lost) && leaked == old(leaked) && !Damaged()
      ensures r.Written? && NEWLINE !in kept + buf ==> pending == kept + buf && committed == old(committed)
      ensures r.Written? && NEWLINE in kept + buf ==> pending == [] && committed == old(committed) + [kept + buf]
    {
      ghost var held, before, damaged := commands, pending, Damaged();
      var ok, newline;
      ok, kept, newline := Submit(buf);
      if ok {
        Record(held, before, damaged, kept, buf, newline);
        r, fpos' := Written(|buf|), 0;
      } else {
        Lose(held, before);
        r, fpos' := NoMemory, fpos;
      }
    }

    /** The positions of the pending bytes count as lost. */
    ghost method Lose(held: seq<seq<byte>>, before: seq<byte>)
      requires MemoryValid() && History(committed, held, before, accepted, lost) && NEWLINE !in before
      requires commands == held && pending == before
      modifies `lost
      ensures Valid() && lost == old(lost) + Positions(|Concat(committed)|, |accepted|)
    {
      lost := lost + Positions(|Concat(committed)|, |accepted|);
    }

    /** The total size of the entries is the length of the stream. */
    lemma StreamLength()
      requires Valid()
      ensures TotalSize(ring.Entries()) == |Stream()|
    {
      SameSizes(ring.Entries(), commands);
    }

    /** A position located among the entries is located in the stream. */
    lemma FoundInStream(offset: nat, k: nat, inner: nat)
      requires Valid() && Located(ring.Entries(), offset, k, inner)
      ensures k < |commands| && inner < |commands[k]| && offset == |Concat(commands[..k])| + inner
      ensures var e := ring.Entries()[k]; e.buffptr != null && e.size == |commands[k]| && e.buffptr[..] == commands[k]
    {
      SameSizes(ring.Entries()[..k], commands[..k]);
    }

    /** The position is that far into command k of the stream. */
    ghost predicate InCommand(fpos: nat, k: nat, inner: nat)
      reads this
    {
      k < |commands| && inner < |commands[k]| && fpos == |Concat(commands[..k])| + inner
    }

    /** Where a position is: the entry, its command, and how far into it. */
    method Locate(fpos: nat) returns (found: bool, e: Entry, inner: nat, ghost k: nat)
      requires Valid()
      ensures found <==> fpos < |Stream()|
      ensures found ==> InCommand(fpos, k, inner)
      ensures found ==> e.buffptr != null && e.size == |commands[k]| && e.buffptr[..] == commands[k]
    {
      StreamLength();
      var position;
      found, position, inner, k := ring.FindEntryOffsetForFpos(fpos);
      e := NO_ENTRY;
      if found {
        FoundInStream(fpos, k, inner);
        e := ring.entry[position];
      }
    }

    /** aesd_read(): at or past the end of the stream nothing is returned and the
        position goes back to 0; before it the bytes from there on, up to the end of the
        command that the position is in. */
    method Read(fpos: nat, count: nat) returns (data: seq<byte>, fpos': nat, ghost k: nat, ghost inner: nat)
      requires Valid()
      ensures fpos >= |Stream()| ==> data == [] && fpos' == 0
      ensures fpos < |Stream()| ==>
        && InCommand(fpos, k, inner) && |data| == Min(count, |commands[k]| - inner)
        && fpos' == fpos + |data| <= |Stream()| && data == Stream()[fpos..fpos']
    {
      var found, e, at, which := Locate(fpos);
      k, inner := which, at;
      data, fpos' := [], 0;
      if found {
        data := CopyOut(e, fpos, at, Min(count, e.size - at), k);
        fpos' := fpos + |data|;
      }
    }

    /** copy_to_user(), from inside command k. */
    method CopyOut(e: Entry, ghost fpos: nat, at: nat, n: nat, ghost k: nat) returns (data: seq<byte>)
      requires InCommand(fpos, k, at) && e.buffptr != null && e.buffptr[..] == commands[k] && at + n <= |commands[k]|
      ensures |data| == n && fpos + n <= |Stream()| && data == Stream()[fpos..fpos + n]
    {
      data := e.buffptr[at..at + n];
      assert data == commands[k][at..at + n];
      PieceOfStream(commands, k, at, n, fpos);
    }

    /** Reading from the start with any positive counts yields the whole stream,
        command after command, and then an empty read that rewinds. */
    method ReadAll() returns (data: seq<byte>, fpos: nat)
      requires Valid()
      ensures data == Stream() && fpos == 0
    {
      ghost var stream := Stream();
      data, fpos := [], 0;
      while true
        invariant fpos <= |stream| && data == stream[..fpos]
        decreases |stream| - fpos
      {
        var piece, next := ReadMore(fpos);
        if piece == [] {
          fpos := next;
          return;
        }
        assert stream[..next] == stream[..fpos] + stream[fpos..next];
        data := data + piece;
        fpos := next;
      }
    }

    /** A read of any positive count. */
    method ReadMore(fpos: nat) returns (piece: seq<byte>, next: nat)
      requires Valid() && fpos <= |Stream()|
      ensures if piece == [] then fpos == |Stream()| && next == 0
              else fpos < next <= |Stream()| && piece == Stream()[fpos..next]
    {
      var count: nat :| 0 < count;
      var data, fpos', k, inner := Read(fpos, count);
      piece, next := data, fpos';
    }
  }
}
