/** snull/snull.c, one call at a time: the fields of snull_priv and the loop of
    snull_poll(), run without interruption. */
module SnullDevice {

  datatype Packet = Packet(serial: nat, datalen: nat)

  class Interface {
    const mayFail: bool         // may dev_alloc_skb() be short of memory?
    var pool: seq<Packet>       // ppool
    var rxQueue: seq<Packet>    // rx_queue
    var stopped: bool           // netif_stop_queue() / netif_wake_queue()
    var rxIntEnabled: bool
    var scheduled: bool         // napi_schedule() / napi_complete_done()
    var locked: bool            // priv->lock, as a call leaves it behind
    var rxPackets: nat
    var rxBytes: nat
    var rxDropped: nat

    constructor (packets: seq<Packet>, mayFail: bool)
      ensures this.mayFail == mayFail
      ensures pool == packets && rxQueue == [] && !stopped && rxIntEnabled && !scheduled && !locked
      ensures rxPackets == 0 && rxBytes == 0 && rxDropped == 0
    {
      this.mayFail := mayFail;
      pool, rxQueue := packets, [];
      stopped, rxIntEnabled, scheduled, locked := false, true, false, false;
      rxPackets, rxBytes, rxDropped := 0, 0, 0;
    }

    /** snull_get_tx_buffer(): nothing exactly on an empty pool, and then the lock is
        kept; taking the last packet stops the queue. */
    method GetTxBuffer() returns (ok: bool, p: Packet)
      requires !locked
      modifies this`pool, this`stopped, this`locked
      ensures ok <==> old(pool) != []
      ensures ok ==> old(pool) == [p] + pool && stopped == (old(stopped) || pool == [])
      ensures !ok ==> pool == [] && stopped == old(stopped)
      ensures locked <==> old(pool) == []
    {
      locked := true;
      if pool == [] {
        return false, Packet(0, 0);
      }
      ok, p := true, pool[0];
      pool := pool[1..];
      if pool == [] {
        stopped := true;
      }
      locked := false;
    }

    /** snull_release_buffer(): the packet that ends a shortage wakes the queue. */
    method ReleaseBuffer(p: Packet)
      requires !locked
      modifies this`pool, this`stopped
      ensures pool == [p] + old(pool) && stopped == (old(stopped) && old(pool) != [])
    {
      var last := pool == [];
      pool := [p] + pool;
      if stopped && last {
        stopped := false;
      }
    }

    method EnqueueBuf(p: Packet)
      requires !locked
      modifies this`rxQueue
      ensures rxQueue == [p] + old(rxQueue)
    {
      rxQueue := [p] + rxQueue;
    }

    method DequeueBuf() returns (p: Packet)
      requires !locked && rxQueue != []
      modifies this`rxQueue
      ensures old(rxQueue) == [p] + rxQueue
    {
      p := rxQueue[0];
      rxQueue := rxQueue[1..];
    }

    /** The receive part of snull_napi_interrupt(). */
    method NapiInterrupt()
      requires !locked
      modifies this`rxIntEnabled, this`scheduled
      ensures !rxIntEnabled && scheduled
    {
      rxIntEnabled := false;
      scheduled := true;
    }

    /** dev_alloc_skb() */
    method AllocSkb() returns (ok: bool)
      ensures !mayFail ==> ok
    {
      ok := *;
      if !mayFail {
        ok := true;
      }
    }

    /** The body of the poll loop between dequeue and release: build an skb and
        pass it on, or, without memory, count the packet as dropped. */
    method Receive(pkt: Packet) returns (ok: bool)
      modifies this`rxPackets, this`rxBytes, this`rxDropped
      ensures !mayFail ==> ok
      ensures ok ==> rxPackets == old(rxPackets) + 1 && rxBytes == old(rxBytes) + pkt.datalen
      ensures ok ==> rxDropped == old(rxDropped)
      ensures !ok ==> rxPackets == old(rxPackets) && rxBytes == old(rxBytes) && rxDropped == old(rxDropped) + 1
    {
      ok := AllocSkb();
      if !ok {
        rxDropped := rxDropped + 1;
      } else {
        rxPackets := rxPackets + 1;
        rxBytes := rxBytes + pkt.datalen;
      }
    }

    /** One round of the poll loop. */
    method PollOne(sender: Interface) returns (pkt: Packet, ok: bool)
      requires sender != this && !locked && !sender.locked && rxQueue != []
      modifies this`rxQueue, this`rxPackets, this`rxBytes, this`rxDropped, sender`pool, sender`stopped
      ensures old(rxQueue) == [pkt] + rxQueue && sender.pool == [pkt] + old(sender.pool) && (!mayFail ==> ok)
      ensures sender.stopped == (old(sender.stopped) && old(sender.pool) != [])
      ensures rxPackets == old(rxPackets) + (if ok then 1 else 0) && rxDropped == old(rxDropped) + (if ok then 0 else 1)
      ensures rxBytes == old(rxBytes) + if ok then pkt.datalen else 0
    {
      pkt := DequeueBuf();
      ok := Receive(pkt);
      sender.ReleaseBuffer(pkt);
    }

    /** The poll loop. */
    method PollLoop(sender: Interface, budget: nat)
      returns (npackets: nat, delivered: seq<Packet>, dropped: seq<Packet>, ghost fates: seq<bool>)
      requires sender != this && !locked && !sender.locked
      modifies this`rxQueue, this`rxPackets, this`rxBytes, this`rxDropped, sender`pool, sender`stopped
      ensures npackets == if budget <= |old(rxQueue)| then budget else |old(rxQueue)|
      ensures Handled(old(rxQueue), npackets, rxQueue, delivered, dropped, fates) && (!mayFail ==> false !in fates)
      ensures sender.pool == Reversed(old(rxQueue)[..npackets]) + old(sender.pool)
      ensures sender.stopped == (old(sender.stopped) && (npackets == 0 || old(sender.pool) != []))
      ensures rxPackets == old(rxPackets) + |delivered| && rxDropped == old(rxDropped) + |dropped|
      ensures rxBytes == old(rxBytes) + TotalLength(delivered)
    {
      ghost var queue, home := rxQueue, sender.pool;
      npackets, delivered, dropped, fates := 0, [], [], [];
      while npackets < budget && rxQueue != []
        invariant npackets <= budget && Handled(queue, npackets, rxQueue, delivered, dropped, fates)
        invariant !mayFail ==> false !in fates
        invariant sender.pool == Reversed(queue[..npackets]) + home
        invariant sender.stopped == (old(sender.stopped) && (npackets == 0 || home != []))
        invariant rxPackets == old(rxPackets) + |delivered| && rxDropped == old(rxDropped) + |dropped|
        invariant rxBytes == old(rxBytes) + TotalLength(delivered)
      {
        ghost var left := rxQueue;
        var pkt, ok := PollOne(sender);
        HandledMore(queue, npackets, left, delivered, dropped, fates, pkt, rxQueue);
        SentHome(queue, npackets, pkt, home);
        if ok {
          TotalLengthSnoc(delivered, pkt);
          delivered := delivered + [pkt];
        } else {
          dropped := dropped + [pkt];
        }
        fates := fates + [ok];
        npackets := npackets + 1;
      }
    }

    /** snull_poll(): handles as many packets as the budget and the queue allow,
        in queue order.  Each is delivered, or dropped when no skb can be
        had (fates), none while there is memory, and goes back to its sender's pool either way, waking the sender's
        queue if that ends a shortage.  Interrupts come back on exactly when the budget
        was not used up, and then the queue is empty. */
    method Poll(sender: Interface, budget: nat)
      returns (npackets: nat, delivered: seq<Packet>, dropped: seq<Packet>, ghost fates: seq<bool>)
      requires sender != this && scheduled && !rxIntEnabled && !locked && !sender.locked
      modifies this, sender`pool, sender`stopped
      ensures npackets == if budget <= |old(rxQueue)| then budget else |old(rxQueue)|
      ensures Handled(old(rxQueue), npackets, rxQueue, delivered, dropped, fates)
      ensures sender.pool == Reversed(old(rxQueue)[..npackets]) + old(sender.pool)
      ensures sender.stopped == (old(sender.stopped) && (npackets == 0 || old(sender.pool) != []))
      ensures multiset(delivered) + multiset(dropped) == multiset(old(rxQueue)[..npackets])
      ensures !mayFail ==> delivered == old(rxQueue)[..npackets] && dropped == []
      ensures rxPackets == old(rxPackets) + |delivered| && rxDropped == old(rxDropped) + |dropped|
      ensures rxBytes == old(rxBytes) + TotalLength(delivered)
      ensures rxIntEnabled == !scheduled == (npackets < budget)
      ensures rxIntEnabled ==> rxQueue == []
      ensures pool == old(pool) && stopped == old(stopped) && !locked
    {
      npackets, delivered, dropped, fates := PollLoop(sender, budget);
      HandledAll(old(rxQueue), npackets, rxQueue, delivered, dropped, fates);
      if !mayFail {
        ChosenOne(old(rxQueue)[..npackets], fates);
      }
      if npackets < budget {
        scheduled := false;
        rxIntEnabled := true;
      }
    }
  }

  function If(ok: bool, p: Packet): seq<Packet> {
    if ok then [p] else []
  }

  /** The packets that have met with one fate, in order. */
  function Chosen(s: seq<Packet>, fates: seq<bool>, fate: bool): seq<Packet>
    requires |s| == |fates|
  {
    if s == [] then [] else If(fates[0] == fate, s[0]) + Chosen(s[1..], fates[1..], fate)
  }

  lemma {:induction false} ChosenSnoc(s: seq<Packet>, fates: seq<bool>, fate: bool, p: Packet, ok: bool)
    requires |s| == |fates|
    ensures Chosen(s + [p], fates + [ok], fate) == Chosen(s, fates, fate) + If(ok == fate, p)
  {
    if s == [] {
      assert (s + [p])[1..] == [] && (fates + [ok])[1..] == [];
    } else {
      ChosenSnoc(s[1..], fates[1..], fate, p, ok);
      assert (s + [p])[1..] == s[1..] + [p] && (fates + [ok])[1..] == fates[1..] + [ok];
      Regroup(If(fates[0] == fate, s[0]), Chosen(s[1..], fates[1..], fate), If(ok == fate, p));
    }
  }

  lemma {:induction false} ChosenOne(s: seq<Packet>, fates: seq<bool>)
    requires |s| == |fates| && false !in fates
    ensures Chosen(s, fates, true) == s && Chosen(s, fates, false) == []
  {
    if s != [] {
      assert fates[0] in fates;
      ChosenOne(s[1..], fates[1..]);
      assert [s[0]] + s[1..] == s;
    }
  }

  lemma Regroup(a: seq<Packet>, b: seq<Packet>, c: seq<Packet>)
    ensures a + (b + c) == (a + b) + c
  {
  }

  lemma OneFate(yes: seq<Packet>, no: seq<Packet>, rest: seq<Packet>, p: Packet, ok: bool)
    requires multiset(yes) + multiset(no) == multiset(rest)
    ensures multiset(If(ok, p) + yes) + multiset(If(!ok, p) + no) == multiset([p] + rest)
  {
    forall q
      ensures (multiset(If(ok, p) + yes) + multiset(If(!ok, p) + no))[q] == multiset([p] + rest)[q]
    {
      assert (multiset(yes) + multiset(no))[q] == multiset(rest)[q];
    }
  }

  /** Each packet meets with one. */
  lemma {:induction false} ChosenAll(s: seq<Packet>, fates: seq<bool>)
    requires |s| == |fates|
    ensures multiset(Chosen(s, fates, true)) + multiset(Chosen(s, fates, false)) == multiset(s)
  {
    if s != [] {
      var yes, no := Chosen(s[1..], fates[1..], true), Chosen(s[1..], fates[1..], false);
      ChosenAll(s[1..], fates[1..]);
      OneFate(yes, no, s[1..], s[0], fates[0]);
      assert [s[0]] + s[1..] == s;
      assert Chosen(s, fates, true) == If(fates[0], s[0]) + yes;
      assert Chosen(s, fates, false) == If(!fates[0], s[0]) + no;
    }
  }

  /** n packets of the queue have been taken off; in queue order, those with one fate have
      been delivered and those with the other dropped. */
  ghost predicate Handled(queue: seq<Packet>, n: nat, left: seq<Packet>, delivered: seq<Packet>, dropped: seq<Packet>,
                          fates: seq<bool>) {
    && n <= |queue| && left == queue[n..] && |fates| == n
    && delivered == Chosen(queue[..n], fates, true) && dropped == Chosen(queue[..n], fates, false)
  }

  lemma HandledAll(queue: seq<Packet>, n: nat, left: seq<Packet>, delivered: seq<Packet>, dropped: seq<Packet>,
                   fates: seq<bool>)
    requires Handled(queue, n, left, delivered, dropped, fates)
    ensures multiset(delivered) + multiset(dropped) == multiset(queue[..n])
  {
    ChosenAll(queue[..n], fates);
  }

  lemma HandledMore(queue: seq<Packet>, n: nat, left: seq<Packet>, delivered: seq<Packet>, dropped: seq<Packet>,
                    fates: seq<bool>, p: Packet, left': seq<Packet>)
    requires Handled(queue, n, left, delivered, dropped, fates) && left == [p] + left'
    ensures n < |queue| && queue[n] == p
    ensures Handled(queue, n + 1, left', delivered + [p], dropped, fates + [true])
    ensures Handled(queue, n + 1, left', delivered, dropped + [p], fates + [false])
  {
    assert queue[n] == left[0];
    assert left' == left[1..];
    assert queue[..n + 1] == queue[..n] + [p];
    ChosenSnoc(queue[..n], fates, true, p, true);
    ChosenSnoc(queue[..n], fates, false, p, true);
    ChosenSnoc(queue[..n], fates, true, p, false);
    ChosenSnoc(queue[..n], fates, false, p, false);
    assert delivered + [] == delivered && dropped + [] == dropped;
  }

  lemma SentHome(queue: seq<Packet>, n: nat, p: Packet, home: seq<Packet>)
    requires n < |queue| && queue[n] == p
    ensures [p] + (Reversed(queue[..n]) + home) == Reversed(queue[..n + 1]) + home
  {
    assert queue[..n + 1] == queue[..n] + [p];
    ReversedSnoc(queue[..n], p);
  }

  function Reversed(s: seq<Packet>): (r: seq<Packet>)
    ensures |r| == |s|
  {
    if s == [] then [] else Reversed(s[1..]) + [s[0]]
  }

  lemma {:induction false} ReversedSnoc(s: seq<Packet>, p: Packet)
    ensures Reversed(s + [p]) == [p] + Reversed(s)
  {
    if s == [] {
      assert (s + [p])[1..] == [];
    } else {
      ReversedSnoc(s[1..], p);
      assert (s + [p])[1..] == s[1..] + [p];
    }
  }

  function TotalLength(s: seq<Packet>): nat {
    if s == [] then 0 else s[0].datalen + TotalLength(s[1..])
  }

  lemma {:induction false} TotalLengthSnoc(s: seq<Packet>, p: Packet)
    ensures TotalLength(s + [p]) == TotalLength(s) + p.datalen
  {
    if s == [] {
      assert (s + [p])[1..] == [];
    } else {
      TotalLengthSnoc(s[1..], p);
      assert (s + [p])[1..] == s[1..] + [p];
    }
  }
}
