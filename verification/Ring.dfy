/** The ring shared by the pipe and the printer: a buffer whose slots from the
    read index up to the write index hold the queued data.  One slot is never
    filled, so equal indices mean "empty". */
module Ring {

  type byte = x: int | 0 <= x < 256

  function Min(a: nat, b: nat): (r: nat)
    ensures r <= a && r <= b && (r == a || r == b)
  {
    if a <= b then a else b
  }

  /** An index that has reached the end of an n-slot buffer starts over. */
  function Wrap(n: nat, p: nat): nat {
    if p == n then 0 else p
  }

  ghost predicate Indices(n: nat, rp: nat, wp: nat) {
    rp < n && wp < n
  }

  /** How many bytes are queued: so many slots after the read index comes the write index. */
  function Used(n: nat, rp: nat, wp: nat): (r: nat)
    requires Indices(n, rp, wp)
    ensures r < n && (rp + r == wp || rp + r == wp + n)
  {
    if wp >= rp then wp - rp else n - rp + wp
  }

  /** The queued bytes, oldest first. */
  function Contents(buf: seq<byte>, rp: nat, wp: nat): (r: seq<byte>)
    requires Indices(|buf|, rp, wp)
    ensures |r| == Used(|buf|, rp, wp)
  {
    if wp >= rp then buf[rp..wp] else buf[rp..] + buf[..wp]
  }

  /** How many queued bytes lie in one piece at the read index: all, or those up to
      the end of the buffer. */
  function DataRun(n: nat, rp: nat, wp: nat): (r: nat)
    requires Indices(n, rp, wp)
    ensures r <= Used(n, rp, wp) && rp + r <= n && (r == Used(n, rp, wp) || rp + r == n)
  {
    if wp >= rp then wp - rp else n - rp
  }

  /** How many free slots lie in one piece at the write index: all but the
      reserved one, or those up to the end of the buffer. */
  function SpaceRun(n: nat, rp: nat, wp: nat): (r: nat)
    requires Indices(n, rp, wp)
    ensures Used(n, rp, wp) + r < n && wp + r <= n && (Used(n, rp, wp) + r == n - 1 || wp + r == n)
  {
    if wp < rp then rp - wp - 1
    else if rp == 0 then n - wp - 1
    else n - wp
  }

  function Overwrite(buf: seq<byte>, at: nat, data: seq<byte>): (r: seq<byte>)
    requires at + |data| <= |buf|
    ensures |r| == |buf|
  {
    buf[..at] + data + buf[at + |data|..]
  }

  /** Consuming bytes of the first run removes exactly those bytes from the front. */
  lemma ConsumeFront(buf: seq<byte>, rp: nat, wp: nat, data: seq<byte>)
    requires Indices(|buf|, rp, wp) && |data| <= DataRun(|buf|, rp, wp) && data == buf[rp..rp + |data|]
    ensures Wrap(|buf|, rp + |data|) < |buf|
    ensures Contents(buf, rp, wp) == data + Contents(buf, Wrap(|buf|, rp + |data|), wp)
    ensures Used(|buf|, Wrap(|buf|, rp + |data|), wp) == Used(|buf|, rp, wp) - |data|
  {
    var k := rp + |data|;
    if wp >= rp {
      SplitSlice(buf, rp, k, wp);
    } else {
      SplitSlice(buf, rp, k, |buf|);
      Regroup(data, buf[k..], buf[..wp]);
    }
  }

  lemma SplitSlice(buf: seq<byte>, lo: nat, mid: nat, hi: nat)
    requires lo <= mid <= hi <= |buf|
    ensures buf[lo..hi] == buf[lo..mid] + buf[mid..hi]
  {
  }

  /** Filling k slots of the first free run appends exactly those bytes and
      leaves the ring distinguishable from an empty one. */
  lemma ProduceBack(buf: seq<byte>, rp: nat, wp: nat, data: seq<byte>)
    requires Indices(|buf|, rp, wp) && |data| <= SpaceRun(|buf|, rp, wp)
    ensures Wrap(|buf|, wp + |data|) < |buf|
    ensures Contents(Overwrite(buf, wp, data), rp, Wrap(|buf|, wp + |data|)) == Contents(buf, rp, wp) + data
    ensures Used(|buf|, rp, Wrap(|buf|, wp + |data|)) == Used(|buf|, rp, wp) + |data|
  {
    var b := Overwrite(buf, wp, data);
    var w := wp + |data|;
    if wp < rp {
      assert b[rp..] == buf[rp..];
      assert b[..w] == buf[..wp] + data;
      assert (buf[rp..] + buf[..wp]) + data == buf[rp..] + (buf[..wp] + data);
    } else if w < |buf| {
      assert b[rp..w] == buf[rp..wp] + data;
    } else {
      assert b[rp..] + b[..0] == buf[rp..wp] + data;
    }
  }

  /** Moving the write index over slots that hold the data already. */
  lemma ProducedInPlace(buf: seq<byte>, rp: nat, wp: nat, data: seq<byte>, before: seq<byte>, all: seq<byte>)
    requires Indices(|buf|, rp, wp) && |data| <= SpaceRun(|buf|, rp, wp)
    requires wp + |data| <= |buf| && buf[wp..wp + |data|] == data
    requires all == before + Contents(buf, rp, wp)
    ensures Wrap(|buf|, wp + |data|) < |buf|
    ensures all + data == before + Contents(buf, rp, Wrap(|buf|, wp + |data|))
    ensures Used(|buf|, rp, Wrap(|buf|, wp + |data|)) == Used(|buf|, rp, wp) + |data|
  {
    OverwriteSame(buf, wp, data);
    ProduceBack(buf, rp, wp, data);
    Regroup(before, Contents(buf, rp, wp), data);
  }

  lemma OverwriteSame(buf: seq<byte>, at: nat, data: seq<byte>)
    requires at + |data| <= |buf| && buf[at..at + |data|] == data
    ensures Overwrite(buf, at, data) == buf
  {
  }

  /** Slots outside the queued data can be overwritten without changing it. */
  lemma FreeSlotsInvisible(buf: seq<byte>, rp: nat, wp: nat, data: seq<byte>)
    requires Indices(|buf|, rp, wp) && |data| <= SpaceRun(|buf|, rp, wp)
    ensures Contents(Overwrite(buf, wp, data), rp, wp) == Contents(buf, rp, wp)
  {
    var b := Overwrite(buf, wp, data);
    if wp >= rp {
      assert b[rp..wp] == buf[rp..wp];
    } else {
      assert b[rp..] == buf[rp..] && b[..wp] == buf[..wp];
    }
  }

  /** The next n bytes of a message continue what has been taken of it. */
  lemma TakeMore(message: seq<byte>, sent: nat, n: nat)
    requires sent + n <= |message|
    ensures message[..sent] + message[sent..][..n] == message[..sent + n]
  {
  }

  lemma AppendMore(base: seq<byte>, message: seq<byte>, sent: nat, n: nat)
    requires sent + n <= |message|
    ensures (base + message[..sent]) + message[sent..][..n] == base + message[..sent + n]
  {
    TakeMore(message, sent, n);
    Regroup(base, message[..sent], message[sent..][..n]);
  }

  /** Moving the read index over data at the front of the queue. */
  lemma Consumed(buf: seq<byte>, rp: nat, wp: nat, data: seq<byte>, before: seq<byte>, all: seq<byte>)
    requires Indices(|buf|, rp, wp) && |data| <= DataRun(|buf|, rp, wp)
    requires data == buf[rp..rp + |data|] && all == before + Contents(buf, rp, wp)
    ensures Wrap(|buf|, rp + |data|) < |buf|
    ensures Contents(buf, rp, wp) == data + Contents(buf, Wrap(|buf|, rp + |data|), wp)
    ensures all == (before + data) + Contents(buf, Wrap(|buf|, rp + |data|), wp)
    ensures Used(|buf|, Wrap(|buf|, rp + |data|), wp) == Used(|buf|, rp, wp) - |data|
  {
    ConsumeFront(buf, rp, wp, data);
    Regroup(before, data, Contents(buf, Wrap(|buf|, rp + |data|), wp));
  }

  lemma OneByte(buf: seq<byte>, rp: nat)
    requires rp < |buf|
    ensures buf[rp..rp + 1] == [buf[rp]]
  {
  }

  lemma ConsumedOne(buf: seq<byte>, rp: nat, wp: nat, before: seq<byte>, all: seq<byte>)
    requires Indices(|buf|, rp, wp) && rp != wp && all == before + Contents(buf, rp, wp)
    ensures Wrap(|buf|, rp + 1) < |buf|
    ensures Contents(buf, rp, wp) == [buf[rp]] + Contents(buf, Wrap(|buf|, rp + 1), wp)
    ensures all == (before + [buf[rp]]) + Contents(buf, Wrap(|buf|, rp + 1), wp)
    ensures Used(|buf|, Wrap(|buf|, rp + 1), wp) == Used(|buf|, rp, wp) - 1
  {
    OneByte(buf, rp);
    Consumed(buf, rp, wp, buf[rp..rp + 1], before, all);
  }

  lemma Regroup(a: seq<byte>, b: seq<byte>, c: seq<byte>)
    ensures a + (b + c) == (a + b) + c
  {
  }

  /** copy_from_user(). */
  method CopyIn(buffer: array<byte>, at: nat, data: seq<byte>)
    requires at + |data| <= buffer.Length
    modifies buffer
    ensures buffer[..] == Overwrite(old(buffer[..]), at, data)
  {
    forall i | 0 <= i < |data| {
      buffer[at + i] := data[i];
    }
  }
}
