/** scull/pipe.c, one call at a time: the circular buffer behind the pipe device.
    Pointers are indices into the buffer. */
module ScullPipe {
  import opened Ring

  /** spacefree() where the pointers differ. */
  function Gap(n: nat, rp: nat, wp: nat): int
    requires 0 < n && wp <= n
  {
    (rp + n - wp) % n - 1
  }

  /** spacefree(): raw indices, either of which may still stand at the end. */
  function Spacefree(n: nat, rp: nat, wp: nat): int
    requires 0 < n && rp <= n && wp <= n
  {
    if rp == wp then n - 1 else Gap(n, rp, wp)
  }

  lemma ModUnwrapped(x: nat, n: nat)
    requires 0 < n && x <= 2 * n
    ensures x % n == if x < n then x else if x < 2 * n then x - n else 0
  {
    if x < n {
    } else if x < 2 * n {
      assert x == 1 * n + (x - n);
    }
  }

  /** What spacefree() computes is the capacity minus the queued bytes, one
      slot being reserved. */
  lemma SpacefreeComplementsUsed(n: nat, rp: nat, wp: nat)
    requires Indices(n, rp, wp)
    ensures Spacefree(n, rp, wp) == n - 1 - Used(n, rp, wp)
  {
    ModUnwrapped(rp + n - wp, n);
  }

  /** The contiguous free run is empty only when no slot is free at all. */
  lemma SpaceRunPositive(n: nat, rp: nat, wp: nat)
    requires Indices(n, rp, wp)
    ensures SpaceRun(n, rp, wp) <= n - 1 - Used(n, rp, wp)
    ensures SpaceRun(n, rp, wp) == 0 <==> Used(n, rp, wp) == n - 1
  {
  }

  /** A non-blocking call either transfers bytes or reports EAGAIN. */
  datatype Outcome = Moved(count: nat) | Again

  class Pipe {
    var buffer: array<byte>
    var buffersize: nat
    var rp: nat
    var wp: nat
    ghost var accepted: seq<byte>   // everything write() has taken since open
    ghost var delivered: seq<byte>  // everything read() has returned since open

    ghost predicate Valid()
      reads this, buffer
    {
      && 0 < buffersize == buffer.Length
      && Indices(buffersize, rp, wp)
      && delivered + Contents() == accepted
    }

    ghost function Contents(): seq<byte>
      requires Indices(buffer.Length, rp, wp)
      reads this, buffer
    {
      Ring.Contents(buffer[..], rp, wp)
    }

    /** scull_p_open() by the first opener. */
    constructor (n: nat)
      requires 0 < n
      ensures Valid() && fresh(buffer)
      ensures Contents() == [] && accepted == [] && delivered == [] && buffersize == n
    {
      var b := new byte[n];
      buffer := b;
      buffersize := n;
      rp, wp := 0, 0;
      accepted, delivered := [], [];
    }

    /** scull_p_read() with O_NONBLOCK: EAGAIN exactly on an empty pipe; otherwise
        the oldest bytes, as many as were asked for unless the data or the end of
        the buffer comes first. */
    method Read(count: nat) returns (r: Outcome, data: seq<byte>)
      requires Valid()
      modifies this
      ensures Valid() && buffer == old(buffer) && buffersize == old(buffersize)
      ensures accepted == old(accepted) && delivered == old(delivered) + data
      ensures old(Contents()) == data + Contents()
      ensures r == Again <==> old(Contents()) == []
      ensures r == Again ==> data == []
      ensures r.Moved? ==> r.count == |data| <= count && (0 < count ==> data != [])
      ensures r.Moved? && |data| < count ==> Contents() == [] || rp == 0
    {
      if rp == wp {
        return Again, [];
      }
      var k: nat;
      if wp > rp {
        k := Min(count, wp - rp);
      } else {
        k := Min(count, buffersize - rp);
      }
      data := MoveOut(k);
      r := Moved(k);
    }

    /** copy_to_user() and rp moved over what was copied. */
    method MoveOut(k: nat) returns (data: seq<byte>)
      requires Valid() && k <= DataRun(buffersize, rp, wp)
      modifies `rp, `delivered
      ensures Valid() && |data| == k && old(Contents()) == data + Contents() && delivered == old(delivered) + data
      ensures k == old(DataRun(buffersize, rp, wp)) ==> Contents() == [] || rp == 0
    {
      data := buffer[rp..rp + k];
      assert data == buffer[..][rp..rp + k];
      Consumed(buffer[..], rp, wp, data, delivered, accepted);
      rp := rp + k;
      if rp == buffersize {
        rp := 0;
      }
      delivered := delivered + data;
    }

    /** scull_p_write() with O_NONBLOCK: EAGAIN exactly when one slot is left;
        otherwise a prefix of the request is appended, all of it unless the free
        space or the end of the buffer comes first. */
    method Write(buf: seq<byte>) returns (r: Outcome)
      requires Valid()
      modifies this, buffer
      ensures Valid() && buffer == old(buffer) && buffersize == old(buffersize)
      ensures r == Again <==> |old(Contents())| == buffersize - 1
      ensures r == Again ==> Contents() == old(Contents()) && accepted == old(accepted)
      ensures r.Moved? ==> r.count <= |buf| && (0 < |buf| ==> 0 < r.count)
      ensures r.Moved? ==> Contents() == old(Contents()) + buf[..r.count]
      ensures r.Moved? ==> accepted == old(accepted) + buf[..r.count]
      ensures r.Moved? && r.count < |buf| ==> |Contents()| == buffersize - 1 || wp == 0
      ensures delivered == old(delivered)
    {
      SpacefreeComplementsUsed(buffersize, rp, wp);
      SpaceRunPositive(buffersize, rp, wp);
      if Spacefree(buffersize, rp, wp) == 0 {
        return Again;
      }
      var k := Min(|buf|, Spacefree(buffersize, rp, wp));
      if wp >= rp {
        k := Min(k, buffersize - wp);
      } else {
        k := Min(k, rp - wp - 1);
      }
      MoveIn(buf[..k]);
      r := Moved(k);
    }

    /** copy_from_user() and wp moved over what was copied. */
    method MoveIn(data: seq<byte>)
      requires Valid() && |data| <= SpaceRun(buffersize, rp, wp)
      modifies `wp, `accepted, buffer
      ensures Valid() && Contents() == old(Contents()) + data && accepted == old(accepted) + data
      ensures |data| == old(SpaceRun(buffersize, rp, wp)) ==> |Contents()| == buffersize - 1 || wp == 0
    {
      ProduceBack(buffer[..], rp, wp, data);
      Regroup(delivered, Contents(), data);
      CopyIn(buffer, wp, data);
      wp := wp + |data|;
      if wp == buffersize {
        wp := 0;
      }
      accepted := accepted + data;
    }
  }

  /** One writer and one reader taking turns move any message through a pipe of
      any size greater than one, intact and in order, whatever chunk size the
      reader asks for: every turn makes progress. */
  method Transfer(pipe: Pipe, message: seq<byte>, chunk: nat) returns (received: seq<byte>)
    requires pipe.Valid() && pipe.Contents() == [] && 1 < pipe.buffersize && 0 < chunk
    modifies pipe, pipe.buffer
    ensures pipe.Valid() && pipe.Contents() == [] && received == message
  {
    received := [];
    var sent := 0;
    while |received| < |message|
      invariant pipe.Valid() && pipe.buffer == old(pipe.buffer) && pipe.buffersize == old(pipe.buffersize)
      invariant sent <= |message| && received + pipe.Contents() == message[..sent]
      decreases |message| - |received|
    {
      ghost var was := pipe.Contents();
      var w := pipe.Write(message[sent..]);
      ghost var before := pipe.Contents();
      if w.Moved? {
        TakeMore(message, sent, w.count);
        Regroup(received, was, message[sent..][..w.count]);
        sent := sent + w.count;
      }
      assert received + before == message[..sent];
      var _, data := pipe.Read(chunk);
      Regroup(received, data, pipe.Contents());
      received := received + data;
    }
  }
}
