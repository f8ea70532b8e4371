/** An open file of a scull device: the device and a position that reads and writes
    advance and scull_llseek() sets. */
module ScullFile {
  import opened Ring
  import opened QuantumList
  import opened ScullStore

  datatype Whence = Set | Cur | End | Other

  class File {
    const dev: ScullDev
    var fPos: nat

    constructor (dev: ScullDev)
      ensures this.dev == dev && fPos == 0
    {
      this.dev := dev;
      fPos := 0;
    }

    /** What an offset counts from; another origin is invalid. */
    ghost function Origin(whence: Whence): Option<nat>
      reads this, dev`size
    {
      match whence
      case Set => Some(0)
      case Cur => Some(fPos)
      case End => Some(dev.size)
      case Other => None
    }

    /** scull_llseek(): EINVAL, and the position stays, exactly for an invalid origin and
        for a target before the start; any other target may be reached, also one past
        the end. */
    method Llseek(off: int, whence: Whence) returns (ok: bool)
      modifies this
      ensures ok <==> old(Origin(whence)).Some? && 0 <= old(Origin(whence)).value + off
      ensures fPos == if ok then old(Origin(whence)).value + off else old(fPos)
      ensures whence == Set && 0 <= off ==> ok && fPos == off
      ensures whence == Cur && 0 <= old(fPos) + off ==> ok && fPos == old(fPos) + off
      ensures whence == End && 0 <= dev.size + off ==> ok && fPos == dev.size + off
    {
      var newpos: int;
      match whence {
        case Set => newpos := off;
        case Cur => newpos := fPos + off;
        case End => newpos := dev.size + off;
        case Other => return false;
      }
      if newpos < 0 {
        return false;
      }
      fPos := newpos;
      ok := true;
    }

    /** scull_read() at the file's position */
    method Read(count: nat) returns (data: seq<byte>)
      requires dev.Valid()
      modifies this, dev`data, dev`nodes, dev`items, dev.nodes`next
      ensures dev.Valid() && dev.nodes == old(dev.nodes) && dev.items == old(dev.items) && fPos == old(fPos) + |data|
      ensures |data| == dev.Readable(old(fPos), count)
      ensures forall p :: old(fPos) <= p < fPos ==> p in dev.content && dev.content[p] == data[p - old(fPos)]
    {
      data, fPos := dev.Read(fPos, count);
    }

    /** A seek and a read: what is read begins at the target, wherever the file was; past
        the end there is nothing, and after a bad seek the read goes on where the file is. */
    method SeekThenRead(off: int, whence: Whence, count: nat) returns (ok: bool, data: seq<byte>, ghost at: nat)
      requires dev.Valid()
      modifies this, dev`data, dev`nodes, dev`items, dev.nodes`next
      ensures dev.Valid() && dev.nodes == old(dev.nodes) && dev.items == old(dev.items)
      ensures ok <==> old(Origin(whence)).Some? && 0 <= old(Origin(whence)).value + off
      ensures at == if ok then old(Origin(whence)).value + off else old(fPos)
      ensures fPos == at + |data| && |data| == dev.Readable(at, count)
      ensures forall p :: at <= p < fPos ==> p in dev.content && dev.content[p] == data[p - at]
    {
      ok := Llseek(off, whence);
      at := fPos;
      data := Read(count);
    }

    /** Writing a whole buffer at the file's position. */
    method WriteFully(buf: seq<byte>) returns (done: nat)
      requires dev.Valid()
      modifies this, dev, dev.items, dev.tables, dev.bytes
      ensures dev.Valid() && done <= |buf| && (done < |buf| ==> dev.mayFail) && fPos == old(fPos) + done
      ensures dev.written == OverlayTo(old(dev.written), old(fPos), buf, done)
      ensures fresh(dev.items - old(dev.items))
    {
      done := dev.WriteAll(fPos, buf);
      fPos := fPos + done;
    }

    /** A seek backwards over bytes that have all been written, and a read of them. */
    method Reread(n: nat, ghost w: map<nat, byte>, ghost buf: seq<byte>) returns (r: seq<byte>)
      requires dev.Valid() && n == |buf| <= fPos && dev.written == Overlay(w, fPos - n, buf)
      modifies this, dev`data, dev`nodes, dev`items, dev.nodes`next
      ensures dev.Valid() && r == buf && fPos == old(fPos)
    {
      var ok := Llseek(-(n as int), Cur);
      r := dev.ReadBack(fPos, n, w, buf);
      fPos := fPos + n;
    }

    /** What has been written is read back after a seek by as much backwards, and the
        file is then where the write left it. */
    method WriteSeekRead(buf: seq<byte>) returns (ok: bool, r: seq<byte>)
      requires dev.Valid()
      modifies this, dev, dev.items, dev.tables, dev.bytes
      ensures dev.Valid() && (!ok ==> dev.mayFail)
      ensures ok ==> r == buf && fPos == old(fPos) + |buf|
    {
      ghost var before := dev.written;
      r := [];
      var done := WriteFully(buf);
      ok := done == |buf|;
      if ok {
        OverlayAll(before, fPos - |buf|, buf);
        r := Reread(|buf|, before, buf);
      }
    }
  }
}
