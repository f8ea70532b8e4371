/** What comes out of the aesd device for what goes in, as long as there is memory. */
module AesdCommands {
  import opened Ring
  import opened AesdDriver

  /** The commands that a list of writes completes: the bytes gathered so far become one as
      soon as there is a newline among them. */
  function Completed(bufs: seq<seq<byte>>, pending: seq<byte>): (cs: seq<seq<byte>>) {
    if bufs == [] then []
    else if NEWLINE in pending + bufs[0] then [pending + bufs[0]] + Completed(bufs[1..], [])
    else Completed(bufs[1..], pending + bufs[0])
  }

  /** And what they leave pending. */
  function Incomplete(bufs: seq<seq<byte>>, pending: seq<byte>): seq<byte> {
    if bufs == [] then pending
    else if NEWLINE in pending + bufs[0] then Incomplete(bufs[1..], [])
    else Incomplete(bufs[1..], pending + bufs[0])
  }

  /** No byte is lost or moved, every command has a newline, and what is pending has none. */
  lemma {:induction false} CommandsPartitionTheStream(bufs: seq<seq<byte>>, pending: seq<byte>)
    requires NEWLINE !in pending
    ensures Concat(Completed(bufs, pending)) + Incomplete(bufs, pending) == pending + Concat(bufs)
    ensures forall c <- Completed(bufs, pending) :: NEWLINE in c
    ensures NEWLINE !in Incomplete(bufs, pending)
    decreases |bufs|
  {
    if bufs == [] {
      assert pending + [] == [] + pending;
    } else {
      var now, rest := pending + bufs[0], bufs[1..];
      Regroup(pending, bufs[0], Concat(rest));
      if NEWLINE in now {
        CommandsPartitionTheStream(rest, []);
        assert [] + Concat(rest) == Concat(rest);
        Regroup(now, Concat(Completed(rest, [])), Incomplete(rest, []));
        ConcatFirst(now, Completed(rest, []));
      } else {
        CommandsPartitionTheStream(rest, now);
      }
    }
  }

  lemma ConcatFirst(c: seq<byte>, cs: seq<seq<byte>>)
    ensures Concat([c] + cs) == c + Concat(cs)
  {
    assert ([c] + cs)[1..] == cs;
  }

  // ---------- lines ----------

  function FirstNewline(s: seq<byte>): (k: nat)
    requires NEWLINE in s
    ensures k < |s| && s[k] == NEWLINE && NEWLINE !in s[..k]
  {
    if s[0] == NEWLINE then 0
    else
      assert s == [s[0]] + s[1..];
      var k := FirstNewline(s[1..]) + 1;
      assert s[..k] == [s[0]] + s[1..][..k - 1];
      k
  }

  /** The lines of a text, each with its newline. */
  function Lines(s: seq<byte>): seq<seq<byte>>
    decreases |s|
  {
    if NEWLINE !in s then [] else var k := FirstNewline(s) + 1; [s[..k]] + Lines(s[k..])
  }

  predicate IsLine(s: seq<byte>) {
    s != [] && s[|s| - 1] == NEWLINE && NEWLINE !in s[..|s| - 1]
  }

  lemma LinesFirst(line: seq<byte>, rest: seq<byte>)
    requires IsLine(line)
    ensures Lines(line + rest) == [line] + Lines(rest)
  {
    var s, n := line + rest, |line|;
    assert s[n - 1] == NEWLINE;
    var k := FirstNewline(s);
    assert s[..n - 1] == line[..n - 1];
    assert s[..n] == line && s[n..] == rest;
  }

  /** A newline, if there is one, is the last byte. */
  predicate EndsLine(buf: seq<byte>) {
    NEWLINE in buf ==> IsLine(buf)
  }

  lemma LineWithPrefix(pending: seq<byte>, buf: seq<byte>)
    requires NEWLINE !in pending && NEWLINE in pending + buf && EndsLine(buf)
    ensures IsLine(pending + buf)
  {
    var s := pending + buf;
    assert s[..|s| - 1] == pending + buf[..|buf| - 1];
  }

  /** Cut at most behind their newlines, the writes complete exactly the lines of the text
      that they make up together. */
  lemma {:induction false} CommandsAreLines(bufs: seq<seq<byte>>, pending: seq<byte>)
    requires NEWLINE !in pending && forall b <- bufs :: EndsLine(b)
    ensures Completed(bufs, pending) == Lines(pending + Concat(bufs))
    decreases |bufs|
  {
    if bufs == [] {
      assert pending + [] == pending;
    } else {
      var now, rest := pending + bufs[0], bufs[1..];
      Regroup(pending, bufs[0], Concat(rest));
      if NEWLINE in now {
        LineWithPrefix(pending, bufs[0]);
        LinesFirst(now, Concat(rest));
        CommandsAreLines(rest, []);
        assert [] + Concat(rest) == Concat(rest);
      } else {
        CommandsAreLines(rest, now);
      }
    }
  }

  // ---------- the device ----------

  lemma CompletedSnoc(bufs: seq<seq<byte>>, k: nat, pending: seq<byte>)
    requires k < |bufs|
    ensures var p := Incomplete(bufs[..k], pending) + bufs[k];
      && Completed(bufs[..k + 1], pending) == Completed(bufs[..k], pending) + (if NEWLINE in p then [p] else [])
      && Incomplete(bufs[..k + 1], pending) == (if NEWLINE in p then [] else p)
    decreases k
  {
    assert bufs[..k + 1][1..] == bufs[1..][..k];
    if k != 0 {
      assert bufs[..k][1..] == bufs[1..][..k - 1];
      CompletedSnoc(bufs[1..], k - 1, if NEWLINE in pending + bufs[0] then [] else pending + bufs[0]);
    } else {
      assert Completed([], []) == [] && bufs[..1][1..] == [];
    }
  }

  /** One write with memory. */
  method WriteNext(dev: AesdDev, buf: seq<byte>) returns (n: nat)
    requires dev.Valid() && !dev.mayFail && !dev.Damaged()
    modifies dev, dev.ring, dev.ring.entry
    ensures dev.Valid() && !dev.Damaged() && n == |buf|
    ensures var p := old(dev.pending) + buf;
      && dev.committed == old(dev.committed) + (if NEWLINE in p then [p] else [])
      && dev.pending == (if NEWLINE in p then [] else p)
  {
    var r, fpos, kept := dev.Write(buf, 0);
    n := r.count;
  }

  ghost predicate AllWritten(counts: seq<nat>, bufs: seq<seq<byte>>) {
    |counts| == |bufs| && forall i :: 0 <= i < |bufs| ==> counts[i] == |bufs[i]|
  }

  lemma OneMoreWritten(counts: seq<nat>, bufs: seq<seq<byte>>, k: nat)
    requires k < |bufs| && AllWritten(counts, bufs[..k])
    ensures AllWritten(counts + [|bufs[k]|], bufs[..k + 1])
  {
  }

  /** What the device has after a list of writes. */
  ghost predicate Holds(dev: AesdDev, before: seq<seq<byte>>, pending: seq<byte>, bufs: seq<seq<byte>>)
    reads dev
  {
    dev.committed == before + Completed(bufs, pending) && dev.pending == Incomplete(bufs, pending)
  }

  lemma HoldsNext(before: seq<seq<byte>>, bufs: seq<seq<byte>>, k: nat, pending: seq<byte>)
    requires k < |bufs|
    ensures var p := Incomplete(bufs[..k], pending) + bufs[k];
      && before + Completed(bufs[..k + 1], pending) ==
         (before + Completed(bufs[..k], pending)) + (if NEWLINE in p then [p] else [])
      && Incomplete(bufs[..k + 1], pending) == (if NEWLINE in p then [] else p)
  {
    CompletedSnoc(bufs, k, pending);
  }

  /** A list of writes to a device with memory, one after the other: each is accepted in
      full. */
  method WriteEach(dev: AesdDev, bufs: seq<seq<byte>>) returns (counts: seq<nat>)
    requires dev.Valid() && !dev.mayFail && !dev.Damaged()
    modifies dev, dev.ring, dev.ring.entry
    ensures dev.Valid() && !dev.Damaged() && AllWritten(counts, bufs)
    ensures Holds(dev, old(dev.committed), old(dev.pending), bufs)
  {
    ghost var committed, pending := dev.committed, dev.pending;
    counts := [];
    for k := 0 to |bufs|
      invariant dev.Valid() && !dev.Damaged() && AllWritten(counts, bufs[..k])
      invariant Holds(dev, committed, pending, bufs[..k])
    {
      HoldsNext(committed, bufs, k, pending);
      OneMoreWritten(counts, bufs, k);
      var n := WriteNext(dev, bufs[k]);
      counts := counts + [n];
    }
    assert bufs[..|bufs|] == bufs;
  }

  /** A new device with memory, written to and then read to the end. */
  method Session(bufs: seq<seq<byte>>) returns (counts: seq<nat>, data: seq<byte>)
    ensures AllWritten(counts, bufs) && data == Concat(LastTen(Completed(bufs, [])))
  {
    var dev := new AesdDev(false);
    assert dev.pending == [];
    counts := WriteEach(dev, bufs);
    assert [] + Completed(bufs, []) == Completed(bufs, []);
    data := ReadEverything(dev);
  }

  method ReadEverything(dev: AesdDev) returns (data: seq<byte>)
    requires dev.Valid()
    ensures data == Concat(LastTen(dev.committed))
  {
    var fpos;
    data, fpos := dev.ReadAll();
  }

  /** The round trip: of a new device with memory that has been written to in any pieces,
      reads give the last ten commands and no more; of pieces that end at their newlines,
      the last ten lines of the text. */
  method WriteThenRead(bufs: seq<seq<byte>>) returns (counts: seq<nat>, data: seq<byte>)
    ensures |counts| == |bufs| && forall i :: 0 <= i < |bufs| ==> counts[i] == |bufs[i]|
    ensures var cs := Completed(bufs, []); data == Concat(if |cs| <= 10 then cs else cs[|cs| - 10..])
    ensures (forall b <- bufs :: EndsLine(b)) ==>
      var ls := Lines(Concat(bufs)); data == Concat(if |ls| <= 10 then ls else ls[|ls| - 10..])
  {
    counts, data := Session(bufs);
    if forall b <- bufs :: EndsLine(b) {
      AllLines(bufs);
    }
  }

  lemma AllLines(bufs: seq<seq<byte>>)
    requires forall b <- bufs :: EndsLine(b)
    ensures Completed(bufs, []) == Lines(Concat(bufs))
  {
    CommandsAreLines(bufs, []);
    assert [] + Concat(bufs) == Concat(bufs);
  }
}
