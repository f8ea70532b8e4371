/** shortprint/shortprint.c, one call at a time: the globals of the output side and
    the functions that update them, each run without interruption. */
module ShortPrinter {
  import opened Ring
  import opened ShortPrint

  class Printer {
    const outBuffer: array<byte>
    var outHead: nat
    var outTail: nat
    var outputActive: bool
    var workQueued: bool
    var timerArmed: bool
    var waiting: bool             // a writer is on shortp_out_queue and not woken
    ghost var accepted: seq<byte> // everything write() has taken
    ghost var strobed: seq<byte>  // everything sent to the printer

    ghost predicate Indexed()
      reads this
    {
      outBuffer.Length == PAGE_SIZE && outHead < PAGE_SIZE && outTail < PAGE_SIZE
    }

    /** The bytes queued, oldest first. */
    ghost function Contents(): seq<byte>
      requires Indexed()
      reads this, outBuffer
    {
      Ring.Contents(outBuffer[..], outTail, outHead)
    }

    ghost predicate Valid()
      reads this, outBuffer
    {
      && Indexed()
      && accepted == strobed + Contents()
      && (outHead != outTail ==> outputActive)
      && (outputActive ==> workQueued || timerArmed)
      && (waiting ==> Queued(outHead, outTail) >= PAGE_SIZE - SP_MIN_SPACE)
    }

    constructor ()
      ensures Valid() && fresh(outBuffer) && Contents() == [] && !outputActive && !waiting
      ensures !workQueued && !timerArmed
      ensures accepted == [] && strobed == []
    {
      outBuffer := new byte[PAGE_SIZE];
      outHead, outTail := 0, 0;
      outputActive, workQueued, timerArmed, waiting := false, false, false, false;
      accepted, strobed := [], [];
    }

    /** shortp_start_output() */
    method StartOutput()
      modifies `outputActive, `timerArmed, `workQueued
      ensures outputActive
      ensures old(outputActive) ==> timerArmed == old(timerArmed) && workQueued == old(workQueued)
      ensures !old(outputActive) ==> timerArmed && workQueued
    {
      if outputActive {
        return;
      }
      outputActive := true;
      timerArmed := true;
      workQueued := true;
    }

    /** copy_from_user() and the head moved over what was copied. */
    method MoveIn(data: seq<byte>)
      requires Indexed() && accepted == strobed + Contents() && |data| <= SpaceRun(PAGE_SIZE, outTail, outHead)
      modifies `outHead, `accepted, outBuffer
      ensures Indexed() && accepted == strobed + Contents()
      ensures Contents() == old(Contents()) + data && accepted == old(accepted) + data
      ensures Queued(outHead, outTail) == old(Queued(outHead, outTail)) + |data|
    {
      ghost var was := outBuffer[..];
      ProduceBack(was, outTail, outHead, data);
      CopyIn(outBuffer, outHead, data);
      outHead := Incr(outHead, |data|);
      Regroup(strobed, Ring.Contents(was, outTail, old(outHead)), data);
      accepted := accepted + data;
    }

    /** One round of the write loop: as much of the data as fits in one piece goes
        behind what is queued, and output runs; nothing is taken exactly when all
        but the reserved slot are full. */
    method WriteRound(buf: seq<byte>) returns (space: nat)
      requires Valid() && buf != []
      modifies this, outBuffer
      ensures Valid() && space <= |buf| && Contents() == old(Contents()) + buf[..space]
      ensures space == Min(|buf|, SpaceRun(PAGE_SIZE, old(outTail), old(outHead)))
      ensures space == 0 <==> |old(Contents())| == PAGE_SIZE - 1
      ensures accepted == old(accepted) + buf[..space] && strobed == old(strobed) && outTail == old(outTail)
      ensures waiting == old(waiting)
      ensures old(outputActive) ==> timerArmed == old(timerArmed) && workQueued == old(workQueued)
    {
      ghost var was := outBuffer[..];
      OutSpaceIsFreeRun(outHead, outTail);
      if OutSpace(outHead, outTail) <= 0 {
        return 0;
      }
      space := Min(|buf|, OutSpace(outHead, outTail));
      MoveIn(buf[..space]);
      StartOutput();
    }

    /** The wait of the write loop: the writer joins shortp_out_queue exactly when the
        ring has no room, and otherwise goes on. */
    method WaitForSpace() returns (asleep: bool)
      requires Valid() && !waiting
      modifies `waiting
      ensures Valid() && asleep == waiting
      ensures waiting <==> |Contents()| == PAGE_SIZE - 1
    {
      OutSpaceIsFreeRun(outHead, outTail);
      if OutSpace(outHead, outTail) <= 0 {
        waiting := true;
      }
      asleep := waiting;
    }

    /** shortp_write() up to where it goes to sleep, the mutex held by nobody else: it
        takes everything, or as much as the ring holds, wherever the free space wraps,
        and is then asleep exactly if something is left. */
    method Write(buf: seq<byte>) returns (written: nat, asleep: bool)
      requires Valid() && !waiting
      modifies this, outBuffer
      ensures Valid() && written == Min(|buf|, PAGE_SIZE - 1 - |old(Contents())|)
      ensures Contents() == old(Contents()) + buf[..written]
      ensures accepted == old(accepted) + buf[..written] && strobed == old(strobed)
      ensures asleep == waiting && (asleep <==> written < |buf|)
    {
      written, asleep := 0, false;
      ghost var queued, taken := Contents(), accepted;
      while written < |buf|
        invariant Valid() && !waiting && written <= |buf| && Contents() == queued + buf[..written]
        invariant accepted == taken + buf[..written] && strobed == old(strobed)
        invariant |queued| + written < PAGE_SIZE
      {
        asleep := WaitForSpace();
        if asleep {
          return;
        }
        var space := WriteRound(buf[written..]);
        AppendMore(queued, buf, written, space);
        AppendMore(taken, buf, written, space);
        written := written + space;
      }
    }

    /** shortp_do_write(): the oldest byte goes out. */
    method DoWrite()
      requires Indexed() && outHead != outTail && accepted == strobed + Contents()
      modifies `timerArmed, `outTail, `strobed
      ensures Indexed() && accepted == strobed + Contents() && timerArmed
      ensures strobed == old(strobed) + [old(Contents())[0]] && old(Contents()) == [old(Contents())[0]] + Contents()
      ensures Queued(outHead, outTail) == old(Queued(outHead, outTail)) - 1
    {
      timerArmed := true;
      ConsumedOne(outBuffer[..], outTail, outHead, strobed, accepted);
      strobed := strobed + [outBuffer[outTail]];
      outTail := Incr(outTail, 1);
    }

    /** shortp_do_work(): with bytes queued, exactly the oldest goes out; with none,
        output becomes inactive and the timer goes.  A waiting writer is woken when
        the ring has become less than half full. */
    method DoWork()
      requires Valid() && workQueued
      modifies this
      ensures Valid() && !workQueued && accepted == old(accepted)
      ensures old(Contents()) == [] ==> Contents() == [] && strobed == old(strobed) && !outputActive && !timerArmed
      ensures old(Contents()) != [] ==>
        strobed == old(strobed) + [old(Contents())[0]] && old(Contents()) == [old(Contents())[0]] + Contents()
      ensures old(Contents()) != [] ==> outputActive && timerArmed
      ensures waiting <==> old(waiting) && |Contents()| >= PAGE_SIZE / 2
    {
      workQueued := false;
      if outHead == outTail {
        outputActive := false;
        timerArmed := false;
      } else {
        DoWrite();
      }
      WakeThreshold(outHead, outTail);
      if EnoughRoom(outHead, outTail) {
        waiting := false;
      }
    }

    /** shortp_interrupt() */
    method Interrupt()
      modifies `workQueued
      ensures workQueued == (old(workQueued) || outputActive)
    {
      if !outputActive {
        return;
      }
      workQueued := true;
    }

    /** shortp_timeout(), the timer having run out: either the printer is busy and the
        timer starts again, or an interrupt must have been lost and the work is queued. */
    method Timeout(busy: bool)
      requires Valid() && timerArmed
      modifies `timerArmed, `workQueued
      ensures Valid() && timerArmed == (outputActive && busy)
      ensures workQueued == (old(workQueued) || (outputActive && !busy))
    {
      timerArmed := false;
      if !outputActive {
        return;
      }
      if busy {
        timerArmed := true;
        return;
      }
      Interrupt();
    }

    /** With every interrupt lost, the timer and the work queue alone wake a waiting
        writer, and do so once the ring is less than half full. */
    method DrainUntilWoken()
      requires Valid()
      modifies this
      ensures Valid() && !waiting && accepted == old(accepted)
      ensures old(waiting) ==> 0 < |Contents()| < PAGE_SIZE / 2
      ensures !old(waiting) ==> Contents() == old(Contents()) && strobed == old(strobed)
    {
      while waiting
        invariant Valid() && accepted == old(accepted)
        invariant old(waiting) && !waiting ==> 0 < |Contents()| < PAGE_SIZE / 2
        invariant waiting ==> old(waiting) && PAGE_SIZE / 2 <= |Contents()|
        invariant !old(waiting) ==> Contents() == old(Contents()) && strobed == old(strobed)
        decreases |Contents()|
      {
        if !workQueued {
          Timeout(false);
        }
        DoWork();
      }
    }

    /** A whole call of shortp_write(), any number of sleeps included, and then what is
        left to send: any message goes out complete and in order, with no interrupt at
        all. */
    method Print(buf: seq<byte>)
      requires Valid() && !waiting
      modifies this, outBuffer
      ensures Valid() && Contents() == [] && !waiting && !outputActive
      ensures strobed == accepted == old(accepted) + buf
    {
      var done := 0;
      ghost var taken := accepted;
      while done < |buf|
        invariant Valid() && !waiting && done <= |buf| && accepted == taken + buf[..done]
        decreases |buf| - done, |Contents()|
      {
        var written, asleep := Write(buf[done..]);
        AppendMore(taken, buf, done, written);
        done := done + written;
        DrainUntilWoken();
      }
      assert buf[..done] == buf;
      Drain();
    }

    /** The timer and the work queue alone also send out all that was accepted, in
        order, leave no writer asleep and fall inactive. */
    method Drain()
      requires Valid()
      modifies this
      ensures Valid() && Contents() == [] && strobed == accepted == old(accepted)
      ensures !outputActive && !waiting
    {
      while outputActive
        invariant Valid() && accepted == old(accepted)
        decreases |Contents()|, outputActive
      {
        if !workQueued {
          Timeout(false);
        }
        DoWork();
      }
    }
  }
}
