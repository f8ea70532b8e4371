/** What one call of scull_p_read() or scull_p_write() does to the pipe, taken alone and
    among any other calls. */
module PipeCalls {
  import opened Ring
  import opened ScullPipe
  import opened PipeProtocol

  /** A call of thread t, up to where it returns. */
  ghost predicate CallRun(s: State, es: seq<Event>, t: Tid, s': State)
    decreases |es|
  {
    t in s.pc &&
    if s.pc[t] == Idle then es == [] && s' == s
    else es != [] && InRange(s) && Enabled(s, es[0]) && CallRun(Step(s, es[0]), es[1..], t, s')
  }

  /** It returns empty-handed: EAGAIN or a signal. */
  predicate GaveUp(es: seq<Event>, t: Tid) {
    GiveUp(t) in es
  }

  /** Nobody else takes a step. */
  predicate Alone(es: seq<Event>, t: Tid) {
    forall e <- es :: e == Go(t)
  }

  /** m is one of the states of the run. */
  ghost predicate Passes(s: State, es: seq<Event>, m: State)
    decreases |es|
  {
    m == s || (es != [] && InRange(s) && Enabled(s, es[0]) && Passes(Step(s, es[0]), es[1..], m))
  }

  function Gain(before: seq<byte>, after: seq<byte>): seq<byte> {
    if |before| <= |after| then after[|before|..] else []
  }

  /** What the steps of thread t add to the bytes delivered... */
  ghost function DeliveredTo(s: State, es: seq<Event>, t: Tid): seq<byte>
    decreases |es|
  {
    if es == [] || !InRange(s) || !Enabled(s, es[0]) then []
    else
      (if es[0].t == t then Gain(s.delivered, Step(s, es[0]).delivered) else []) +
      DeliveredTo(Step(s, es[0]), es[1..], t)
  }

  /** ...and to the bytes accepted. */
  ghost function AcceptedFrom(s: State, es: seq<Event>, t: Tid): seq<byte>
    decreases |es|
  {
    if es == [] || !InRange(s) || !Enabled(s, es[0]) then []
    else
      (if es[0].t == t then Gain(s.accepted, Step(s, es[0]).accepted) else []) +
      AcceptedFrom(Step(s, es[0]), es[1..], t)
  }

  lemma GainNothing(s: seq<byte>, more: seq<byte>)
    ensures Gain(s, s) == [] && Gain(s, s + more) == more && [] + more == more && more + [] == more
  {
  }

  // ---------- one step of a call ----------

  /** Before anything has been copied. */
  predicate AwaitsData(pc: Pc) {
    || pc.RLock? || pc.RCheck? || pc.RCond? || pc.RCondRp?
    || pc.REnqueue? || pc.RRecheck? || pc.RRecheckRp? || pc.RAsleep?
  }

  predicate AwaitsSpace(pc: Pc) {
    || pc.WLock? || pc.WCheck? || pc.WEnqueue? || pc.WRecheck? || pc.WRecheckRp?
    || pc.WReread? || pc.WRereadRp? || pc.WAsleep?
  }

  predicate Wants(pc: Pc, count: nat) {
    AwaitsData(pc) && pc.count == count
  }

  predicate Offers(pc: Pc, req: seq<byte>) {
    AwaitsSpace(pc) && pc.req == req
  }

  predicate Returning(pc: Pc) {
    pc.RWrap? || pc.RUnlock? || pc.RWake? || pc.WWrap? || pc.WUnlock? || pc.WWake?
  }

  /** The oldest bytes, as many as are asked for unless the data or the end of the buffer
      comes first. */
  ghost predicate Oldest(s: State, count: nat, data: seq<byte>) {
    && InRange(s) && Settled(s) && s.rp != s.wp
    && |data| == Min(count, DataRun(s.N(), s.rp, s.wp)) && data <= Contents(s.buf, s.rp, s.wp)
  }

  /** A prefix of the request, all of it unless the space or the end of the buffer comes
      first. */
  ghost predicate Fits(s: State, req: seq<byte>, data: seq<byte>) {
    && InRange(s) && Settled(s) && !Full(s)
    && |data| == Min(|req|, SpaceRun(s.N(), s.rp, s.wp)) && data <= req
  }

  lemma OthersLeaveCall(s: State, e: Event, t: Tid)
    requires InRange(s) && Enabled(s, e) && e.t != t && t in s.pc
    ensures t in Step(s, e).pc && Step(s, e).pc[t] == s.pc[t]
  {
    StepMoves(s, e);
  }

  /** A reader copies the oldest bytes, or waits on. */
  lemma ReaderCopies(s: State, t: Tid, count: nat)
    requires Mutex(s) && Pointers(s) && CanGo(s, t) && s.pc[t] == RCheck(count) && s.rp != s.wp
    ensures Advance(s, t).pc[t].RCopied? && Oldest(s, count, Advance(s, t).pc[t].data)
  {
    assert s.lock == HeldBy(t) && Settled(s);
    CountsFit(s.N(), s.rp, s.wp, count);
    FrontOfRing(s, Min(count, DataRun(s.N(), s.rp, s.wp)));
  }

  lemma FrontOfRing(s: State, k: nat)
    requires InRange(s) && Settled(s) && k <= DataRun(s.N(), s.rp, s.wp)
    ensures s.rp + k <= s.N() && s.buf[s.rp..s.rp + k] <= Contents(s.buf, s.rp, s.wp)
  {
    ConsumeFront(s.buf, s.rp, s.wp, s.buf[s.rp..s.rp + k]);
  }

  lemma ReaderWaits(s: State, t: Tid, count: nat)
    requires InRange(s) && CanGo(s, t) && Wants(s.pc[t], count)
    requires s.pc[t].RCheck? ==> s.rp == s.wp
    ensures Wants(Advance(s, t).pc[t], count) && Advance(s, t).delivered == s.delivered
  {
  }

  lemma WriterCopies(s: State, t: Tid, req: seq<byte>)
    requires Mutex(s) && Pointers(s) && CanGo(s, t) && s.pc[t] == WCheck(req) && !Full(s)
    ensures Advance(s, t).pc[t].WCopied? && Fits(s, req, Advance(s, t).pc[t].data)
    ensures Advance(s, t).accepted == s.accepted
  {
    assert s.lock == HeldBy(t) && Settled(s);
    CountsFit(s.N(), s.rp, s.wp, |req|);
  }

  lemma WriterWaits(s: State, t: Tid, req: seq<byte>)
    requires InRange(s) && CanGo(s, t) && Offers(s.pc[t], req)
    requires s.pc[t].WCheck? ==> Full(s)
    ensures Offers(Advance(s, t).pc[t], req) && Advance(s, t).accepted == s.accepted
  {
  }

  lemma CallReturns(s: State, t: Tid)
    requires InRange(s) && CanGo(s, t) && Returning(s.pc[t])
    ensures Returning(Advance(s, t).pc[t]) || Advance(s, t).pc[t] == Idle
    ensures Advance(s, t).delivered == s.delivered && Advance(s, t).accepted == s.accepted
  {
  }

  // ---------- a whole call ----------

  lemma {:induction false} ReturningMovesNothing(s: State, es: seq<Event>, t: Tid, s': State)
    requires CallRun(s, es, t, s') && (Returning(s.pc[t]) || s.pc[t] == Idle)
    ensures DeliveredTo(s, es, t) == [] && AcceptedFrom(s, es, t) == [] && !GaveUp(es, t)
    decreases |es|
  {
    if es != [] {
      if es[0].t == t {
        CallReturns(s, t);
      } else {
        OthersLeaveCall(s, es[0], t);
      }
      ReturningMovesNothing(Step(s, es[0]), es[1..], t, s');
      GainNothing(s.delivered, []);
      GainNothing(s.accepted, []);
    }
  }

  lemma {:induction false} CopiedIsDelivered(s: State, es: seq<Event>, t: Tid, s': State)
    requires CallRun(s, es, t, s') && s.pc[t].RCopied?
    ensures DeliveredTo(s, es, t) == s.pc[t].data && !GaveUp(es, t)
    decreases |es|
  {
    GainNothing(s.delivered, s.pc[t].data);
    GainNothing(s.delivered, []);
    if es[0].t == t {
      ReturningMovesNothing(Step(s, es[0]), es[1..], t, s');
    } else {
      OthersLeaveCall(s, es[0], t);
      CopiedIsDelivered(Step(s, es[0]), es[1..], t, s');
    }
  }

  lemma {:induction false} CopiedIsAccepted(s: State, es: seq<Event>, t: Tid, s': State)
    requires CallRun(s, es, t, s') && s.pc[t].WCopied?
    ensures AcceptedFrom(s, es, t) == s.pc[t].data && !GaveUp(es, t)
    decreases |es|
  {
    GainNothing(s.accepted, s.pc[t].data);
    GainNothing(s.accepted, []);
    if es[0].t == t {
      ReturningMovesNothing(Step(s, es[0]), es[1..], t, s');
    } else {
      OthersLeaveCall(s, es[0], t);
      CopiedIsAccepted(Step(s, es[0]), es[1..], t, s');
    }
  }

  /** A read among any other calls.  If it gives up it has delivered nothing.  Otherwise
      there was a moment at which the pipe was not empty, and it has delivered the bytes
      that were the oldest then. */
  lemma {:induction false} ReadCall(s: State, es: seq<Event>, t: Tid, s': State, count: nat) returns (m: State)
    requires Inv(s) && CallRun(s, es, t, s') && Wants(s.pc[t], count)
    ensures GaveUp(es, t) ==> DeliveredTo(s, es, t) == []
    ensures !GaveUp(es, t) ==> Passes(s, es, m) && Oldest(m, count, DeliveredTo(s, es, t))
    decreases |es|
  {
    var e, s1, rest := es[0], Step(s, es[0]), es[1..];
    StepKeepsInv(s, e);
    GainNothing(s.delivered, []);
    m := s;
    if e.t != t {
      OthersLeaveCall(s, e, t);
      m := ReadCall(s1, rest, t, s', count);
    } else if e.GiveUp? {
      assert rest == [];
    } else if s.pc[t].RCheck? && s.rp != s.wp {
      ReaderCopies(s, t, count);
      CopiedIsDelivered(s1, rest, t, s');
      GainNothing(s.delivered, DeliveredTo(s1, rest, t));
    } else {
      ReaderWaits(s, t, count);
      m := ReadCall(s1, rest, t, s', count);
    }
    GainNothing([], DeliveredTo(s1, rest, t));
  }

  /** A write among any other calls.  If it gives up nothing has been accepted.  Otherwise
      there was a moment at which the pipe was not full, and it has stored the prefix of
      its own request that fitted then. */
  lemma {:induction false} WriteCall(s: State, es: seq<Event>, t: Tid, s': State, req: seq<byte>) returns (m: State)
    requires Inv(s) && CallRun(s, es, t, s') && Offers(s.pc[t], req)
    ensures GaveUp(es, t) ==> AcceptedFrom(s, es, t) == []
    ensures !GaveUp(es, t) ==> Passes(s, es, m) && Fits(m, req, AcceptedFrom(s, es, t))
    decreases |es|
  {
    var e, s1, rest := es[0], Step(s, es[0]), es[1..];
    StepKeepsInv(s, e);
    GainNothing(s.accepted, []);
    m := s;
    if e.t != t {
      OthersLeaveCall(s, e, t);
      m := WriteCall(s1, rest, t, s', req);
    } else if e.GiveUp? {
      assert rest == [];
    } else if s.pc[t].WCheck? && !Full(s) {
      WriterCopies(s, t, req);
      CopiedIsAccepted(s1, rest, t, s');
    } else {
      WriterWaits(s, t, req);
      m := WriteCall(s1, rest, t, s', req);
    }
    GainNothing([], AcceptedFrom(s1, rest, t));
  }

  /** So a read that returns without an error has delivered at least a byte, if it was
      asked for any, and no more than it was asked for... */
  lemma ReadsSomething(n: nat, threads: set<Tid>, s: State, t: Tid, count: nat, es: seq<Event>, s': State)
    requires 0 < n && Reachable(n, threads, s) && t in s.pc && s.pc[t] == Idle
    requires InRange(s) && CallRun(Step(s, Read(t, count)), es, t, s') && !GaveUp(es, t)
    ensures var got := DeliveredTo(Step(s, Read(t, count)), es, t);
      |got| <= count && (0 < count ==> got != [])
  {
    ReachableInv(n, threads, s);
    StepKeepsInv(s, Read(t, count));
    var m := ReadCall(Step(s, Read(t, count)), es, t, s', count);
  }

  /** ...and a write has stored a prefix of its own request, not empty unless that is. */
  lemma WritesSomething(n: nat, threads: set<Tid>, s: State, t: Tid, req: seq<byte>, es: seq<Event>, s': State)
    requires 0 < n && Reachable(n, threads, s) && t in s.pc && s.pc[t] == Idle
    requires InRange(s) && CallRun(Step(s, Write(t, req)), es, t, s') && !GaveUp(es, t)
    ensures var put := AcceptedFrom(Step(s, Write(t, req)), es, t);
      put <= req && (req != [] ==> put != [])
  {
    ReachableInv(n, threads, s);
    StepKeepsInv(s, Write(t, req));
    var m := WriteCall(Step(s, Write(t, req)), es, t, s', req);
    SpacefreeComplementsUsed(m.N(), m.rp, m.wp);
    SpaceRunPositive(m.N(), m.rp, m.wp);
  }

  // ---------- alone ----------

  /** A thread that runs alone takes its next step. */
  lemma NextAlone(s: State, es: seq<Event>, t: Tid, s': State)
    requires CallRun(s, es, t, s') && Alone(es, t) && s.pc[t] != Idle
    ensures CanGo(s, t) && InRange(s) && es != []
    ensures CallRun(Advance(s, t), es[1..], t, s') && Alone(es[1..], t)
  {
    assert es[0] in es;
    forall e <- es[1..] ensures e == Go(t) { assert e in es; }
  }

  /** The rest of a read: the pointer wraps, the mutex is free, the writers are awake. */
  lemma ReaderReturns(s: State, es: seq<Event>, t: Tid, s': State)
    requires CallRun(s, es, t, s') && Alone(es, t) && s.pc[t].RWrap?
    ensures s' == s.(rp := Wrap(s.N(), s.rp), lock := Free, outq := {}, pc := s.pc[t := Idle])
  {
    NextAlone(s, es, t, s');
    ReaderUnlocks(Advance(s, t), es[1..], t, s');
    assert s'.pc == s.pc[t := Idle];
  }

  lemma ReaderUnlocks(s: State, es: seq<Event>, t: Tid, s': State)
    requires CallRun(s, es, t, s') && Alone(es, t) && s.pc[t].RUnlock?
    ensures s' == s.(lock := Free, outq := {}, pc := s.pc[t := Idle])
  {
    NextAlone(s, es, t, s');
    NextAlone(Advance(s, t), es[1..], t, s');
    assert s'.pc == s.pc[t := Idle];
  }

  lemma FinishRead(s: State, es: seq<Event>, t: Tid, s': State)
    requires CallRun(s, es, t, s') && Alone(es, t) && s.pc[t].RCopied?
    ensures s' == s.(rp := Wrap(s.N(), s.rp + |s.pc[t].data|), delivered := s.delivered + s.pc[t].data,
                     lock := Free, outq := {}, pc := s.pc[t := Idle])
  {
    NextAlone(s, es, t, s');
    ReaderReturns(Advance(s, t), es[1..], t, s');
    assert s'.pc == s.pc[t := Idle];
  }

  /** And of a write. */
  lemma WriterReturns(s: State, es: seq<Event>, t: Tid, s': State)
    requires CallRun(s, es, t, s') && Alone(es, t) && s.pc[t].WWrap?
    ensures s' == s.(wp := Wrap(s.N(), s.wp), lock := Free, inq := {}, pc := s.pc[t := Idle])
  {
    NextAlone(s, es, t, s');
    WriterUnlocks(Advance(s, t), es[1..], t, s');
    assert s'.pc == s.pc[t := Idle];
  }

  lemma WriterUnlocks(s: State, es: seq<Event>, t: Tid, s': State)
    requires CallRun(s, es, t, s') && Alone(es, t) && s.pc[t].WUnlock?
    ensures s' == s.(lock := Free, inq := {}, pc := s.pc[t := Idle])
  {
    NextAlone(s, es, t, s');
    NextAlone(Advance(s, t), es[1..], t, s');
    assert s'.pc == s.pc[t := Idle];
  }

  lemma FinishWrite(s: State, es: seq<Event>, t: Tid, s': State)
    requires CallRun(s, es, t, s') && Alone(es, t) && s.pc[t].WCopied?
    ensures s' == s.(wp := Wrap(s.N(), s.wp + |s.pc[t].data|), accepted := s.accepted + s.pc[t].data,
                     lock := Free, inq := {}, pc := s.pc[t := Idle])
  {
    NextAlone(s, es, t, s');
    WriterReturns(Advance(s, t), es[1..], t, s');
    assert s'.pc == s.pc[t := Idle];
  }

  /** The beginning: the mutex is taken and the bytes are copied. */
  lemma BeginRead(s: State, es: seq<Event>, t: Tid, s': State, count: nat) returns (m: State, rest: seq<Event>)
    requires Mutex(s) && Pointers(s) && CallRun(s, es, t, s') && Alone(es, t)
    requires s.pc[t] == RLock(count) && s.lock == Free && s.rp != s.wp
    ensures CallRun(m, rest, t, s') && Alone(rest, t) && m.pc[t].RCopied? && Oldest(s, count, m.pc[t].data)
    ensures m == s.(lock := HeldBy(t), pc := s.pc[t := m.pc[t]])
  {
    NextAlone(s, es, t, s');
    var b := Advance(s, t);
    StepKeepsMutex(s, Go(t));
    StepKeepsPointers(s, Go(t));
    NextAlone(b, es[1..], t, s');
    ReaderCopies(b, t, count);
    m, rest := Advance(b, t), es[1..][1..];
    assert m.pc == s.pc[t := m.pc[t]];
  }

  lemma BeginWrite(s: State, es: seq<Event>, t: Tid, s': State, req: seq<byte>) returns (m: State, rest: seq<Event>)
    requires Mutex(s) && Pointers(s) && CallRun(s, es, t, s') && Alone(es, t)
    requires s.pc[t] == WLock(req) && s.lock == Free && !Full(s)
    ensures CallRun(m, rest, t, s') && Alone(rest, t) && m.pc[t].WCopied? && Fits(s, req, m.pc[t].data)
    ensures s.wp + |m.pc[t].data| <= s.N()
    ensures m == s.(lock := HeldBy(t), pc := s.pc[t := m.pc[t]], buf := Overwrite(s.buf, s.wp, m.pc[t].data))
  {
    NextAlone(s, es, t, s');
    var b := Advance(s, t);
    StepKeepsMutex(s, Go(t));
    StepKeepsPointers(s, Go(t));
    NextAlone(b, es[1..], t, s');
    WriterCopies(b, t, req);
    m, rest := Advance(b, t), es[1..][1..];
    assert m.pc == s.pc[t := m.pc[t]];
  }

  lemma WholeRead(s: State, es: seq<Event>, t: Tid, s': State, count: nat) returns (data: seq<byte>)
    requires Mutex(s) && Pointers(s) && CallRun(s, es, t, s') && Alone(es, t)
    requires s.pc[t] == RLock(count) && s.lock == Free && s.rp != s.wp
    ensures Oldest(s, count, data)
    ensures s' == s.(rp := Wrap(s.N(), s.rp + |data|), delivered := s.delivered + data, outq := {},
                     pc := s.pc[t := Idle])
  {
    var m, rest := BeginRead(s, es, t, s', count);
    FinishRead(m, rest, t, s');
    data := m.pc[t].data;
    assert s'.pc == s.pc[t := Idle];
  }

  lemma WholeWrite(s: State, es: seq<Event>, t: Tid, s': State, req: seq<byte>) returns (data: seq<byte>)
    requires Mutex(s) && Pointers(s) && CallRun(s, es, t, s') && Alone(es, t)
    requires s.pc[t] == WLock(req) && s.lock == Free && !Full(s)
    ensures Fits(s, req, data) && s.wp + |data| <= s.N()
    ensures s' == s.(buf := Overwrite(s.buf, s.wp, data), wp := Wrap(s.N(), s.wp + |data|),
                     accepted := s.accepted + data, inq := {}, pc := s.pc[t := Idle])
  {
    var m, rest := BeginWrite(s, es, t, s', req);
    FinishWrite(m, rest, t, s');
    data := m.pc[t].data;
    assert s'.pc == s.pc[t := Idle];
  }

  /** A read alone, of a pipe that is not empty: the oldest bytes have been delivered, as
      many as were asked for unless the data or the end of the buffer came first; the
      others are still queued; nothing else has changed, but that the writers on the queue
      are awake. */
  lemma ReadAlone(n: nat, threads: set<Tid>, s: State, t: Tid, count: nat, es: seq<Event>, s': State)
    requires 0 < n && Reachable(n, threads, s) && s.lock == Free && t in s.pc && s.pc[t] == Idle && s.rp != s.wp
    requires InRange(s) && CallRun(Step(s, Read(t, count)), es, t, s') && Alone(es, t)
    ensures InRange(s') && Settled(s) && Settled(s')
    ensures var k := Min(count, DataRun(s.N(), s.rp, s.wp));
      && s'.delivered == s.delivered + Contents(s.buf, s.rp, s.wp)[..k]
      && Contents(s'.buf, s'.rp, s'.wp) == Contents(s.buf, s.rp, s.wp)[k..]
    ensures s' == s.(rp := s'.rp, delivered := s'.delivered, outq := {})
  {
    ReachableInv(n, threads, s);
    ReadFromIdle(s, t, count, es, s');
  }

  lemma ReadFromIdle(s: State, t: Tid, count: nat, es: seq<Event>, s': State)
    requires Mutex(s) && Pointers(s) && s.lock == Free && t in s.pc && s.pc[t] == Idle && s.rp != s.wp
    requires CallRun(Step(s, Read(t, count)), es, t, s') && Alone(es, t)
    ensures InRange(s') && Settled(s')
    ensures var k := Min(count, DataRun(s.N(), s.rp, s.wp));
      && s'.delivered == s.delivered + Contents(s.buf, s.rp, s.wp)[..k]
      && Contents(s'.buf, s'.rp, s'.wp) == Contents(s.buf, s.rp, s.wp)[k..]
    ensures s' == s.(rp := s'.rp, delivered := s'.delivered, outq := {})
  {
    StepKeepsMutex(s, Read(t, count));
    StepKeepsPointers(s, Read(t, count));
    var data := WholeRead(Step(s, Read(t, count)), es, t, s', count);
    assert s'.pc == s.pc;
    TakenFromFront(s, data);
  }

  lemma TakenFromFront(s: State, data: seq<byte>)
    requires InRange(s) && Settled(s) && |data| <= DataRun(s.N(), s.rp, s.wp) && data <= Contents(s.buf, s.rp, s.wp)
    ensures s.rp + |data| <= s.N() && Wrap(s.N(), s.rp + |data|) < s.N()
    ensures Contents(s.buf, Wrap(s.N(), s.rp + |data|), s.wp) == Contents(s.buf, s.rp, s.wp)[|data|..]
  {
    ConsumeFront(s.buf, s.rp, s.wp, s.buf[s.rp..s.rp + |data|]);
  }

  /** A write alone, to a pipe that is not full: a prefix of the request has been appended
      to the bytes queued, all of it unless the space or the end of the buffer came first;
      the readers on the queue are awake. */
  lemma WriteAlone(n: nat, threads: set<Tid>, s: State, t: Tid, req: seq<byte>, es: seq<Event>, s': State)
    requires 0 < n && Reachable(n, threads, s) && s.lock == Free && t in s.pc && s.pc[t] == Idle
    requires InRange(s) && !Full(s) && CallRun(Step(s, Write(t, req)), es, t, s') && Alone(es, t)
    ensures InRange(s') && Settled(s) && Settled(s')
    ensures var k := Min(|req|, SpaceRun(s.N(), s.rp, s.wp));
      && s'.accepted == s.accepted + req[..k]
      && Contents(s'.buf, s'.rp, s'.wp) == Contents(s.buf, s.rp, s.wp) + req[..k]
    ensures s' == s.(buf := s'.buf, wp := s'.wp, accepted := s'.accepted, inq := {})
  {
    ReachableInv(n, threads, s);
    WriteFromIdle(s, t, req, es, s');
  }

  lemma WriteFromIdle(s: State, t: Tid, req: seq<byte>, es: seq<Event>, s': State)
    requires Mutex(s) && Pointers(s) && s.lock == Free && t in s.pc && s.pc[t] == Idle
    requires !Full(s) && CallRun(Step(s, Write(t, req)), es, t, s') && Alone(es, t)
    ensures InRange(s') && Settled(s')
    ensures var k := Min(|req|, SpaceRun(s.N(), s.rp, s.wp));
      && s'.accepted == s.accepted + req[..k]
      && Contents(s'.buf, s'.rp, s'.wp) == Contents(s.buf, s.rp, s.wp) + req[..k]
    ensures s' == s.(buf := s'.buf, wp := s'.wp, accepted := s'.accepted, inq := {})
  {
    StepKeepsMutex(s, Write(t, req));
    StepKeepsPointers(s, Write(t, req));
    var data := WholeWrite(Step(s, Write(t, req)), es, t, s', req);
    assert s'.pc == s.pc;
    PutAtBack(s, data);
  }

  lemma PutAtBack(s: State, data: seq<byte>)
    requires InRange(s) && Settled(s) && |data| <= SpaceRun(s.N(), s.rp, s.wp) && s.wp + |data| <= s.N()
    ensures Wrap(s.N(), s.wp + |data|) < s.N()
    ensures Contents(Overwrite(s.buf, s.wp, data), s.rp, Wrap(s.N(), s.wp + |data|)) ==
      Contents(s.buf, s.rp, s.wp) + data
  {
    ProduceBack(s.buf, s.rp, s.wp, data);
  }

  // ---------- there are such runs ----------

  /** How many steps are left at most of a call that need not wait for others. */
  function StepsLeft(s: State, t: Tid): nat
    requires t in s.pc
  {
    match s.pc[t]
    case Idle => 0
    case RRecheck(_) => if t in s.inq then 8 else 14
    case RRecheckRp(_, _) => if t in s.inq then 7 else 13
    case RAsleep(_) => 12
    case RCond(_) => 11
    case RCondRp(_, _) => 10
    case REnqueue(_) => 9
    case RLock(_) => 6
    case RCheck(_) => 5
    case RCopied(_) => 4
    case RWrap => 3
    case RUnlock => 2
    case RWake => 1
    case WRecheck(_) => if t in s.outq then 10 else 16
    case WRecheckRp(_, _) => if t in s.outq then 9 else 15
    case WReread(_) => if t in s.outq then 8 else 14
    case WRereadRp(_, _) => if t in s.outq then 7 else 13
    case WAsleep(_) => 12
    case WEnqueue(_) => 11
    case WLock(_) => 6
    case WCheck(_) => 5
    case WCopied(_) => 4
    case WWrap => 3
    case WUnlock => 2
    case WWake => 1
  }

  /** There is what the call waits for, and what it has read while on its queue tells it so. */
  predicate NeedNotWait(s: State, t: Tid) {
    && t in s.pc && InRange(s)
    && (AwaitsData(s.pc[t]) ==> s.rp != s.wp && (t in s.inq ==> ReaderKnows(s, s.pc[t])))
    && (AwaitsSpace(s.pc[t]) ==> !Full(s) && (t in s.outq ==> WriterKnows(s, s.pc[t])))
    && (AwaitsData(s.pc[t]) || AwaitsSpace(s.pc[t]) ==> s.lock == if Holds(s.pc[t]) then HeldBy(t) else Free)
  }

  lemma ReaderGoesOn(s: State, t: Tid)
    requires NeedNotWait(s, t) && s.pc[t] != Idle && Reading(s.pc[t])
    requires s.pc[t].RLock? || s.pc[t].RCheck? || !AwaitsData(s.pc[t])
    ensures CanGo(s, t)
    ensures InRange(Advance(s, t)) ==> NeedNotWait(Advance(s, t), t)
    ensures t in Advance(s, t).pc && StepsLeft(Advance(s, t), t) < StepsLeft(s, t)
  {
  }

  /** A reader that looks again finds the data. */
  lemma WaitingReaderGoesOn(s: State, t: Tid)
    requires NeedNotWait(s, t) && AwaitsData(s.pc[t]) && !s.pc[t].RLock? && !s.pc[t].RCheck?
    ensures CanGo(s, t)
    ensures InRange(Advance(s, t)) && NeedNotWait(Advance(s, t), t)
    ensures t in Advance(s, t).pc && StepsLeft(Advance(s, t), t) < StepsLeft(s, t)
  {
  }

  lemma WriterGoesOn(s: State, t: Tid)
    requires NeedNotWait(s, t) && s.pc[t] != Idle && !Reading(s.pc[t])
    requires s.pc[t].WLock? || s.pc[t].WCheck? || !AwaitsSpace(s.pc[t])
    ensures CanGo(s, t)
    ensures InRange(Advance(s, t)) ==> NeedNotWait(Advance(s, t), t)
    ensures t in Advance(s, t).pc && StepsLeft(Advance(s, t), t) < StepsLeft(s, t)
  {
  }

  /** A writer that looks again finds the space. */
  lemma WaitingWriterGoesOn(s: State, t: Tid)
    requires NeedNotWait(s, t) && AwaitsSpace(s.pc[t]) && !s.pc[t].WLock? && !s.pc[t].WCheck?
    ensures CanGo(s, t)
    ensures InRange(Advance(s, t)) && NeedNotWait(Advance(s, t), t)
    ensures t in Advance(s, t).pc && StepsLeft(Advance(s, t), t) < StepsLeft(s, t)
  {
  }

  lemma {:induction false} EndsAlone(s: State, t: Tid) returns (es: seq<Event>, s': State)
    requires Mutex(s) && Pointers(s) && NeedNotWait(s, t)
    ensures CallRun(s, es, t, s') && Alone(es, t)
    decreases StepsLeft(s, t)
  {
    es, s' := [], s;
    if s.pc[t] != Idle {
      if AwaitsData(s.pc[t]) && !s.pc[t].RLock? && !s.pc[t].RCheck? {
        WaitingReaderGoesOn(s, t);
      } else if Reading(s.pc[t]) {
        ReaderGoesOn(s, t);
      } else if AwaitsSpace(s.pc[t]) && !s.pc[t].WLock? && !s.pc[t].WCheck? {
        WaitingWriterGoesOn(s, t);
      } else {
        WriterGoesOn(s, t);
      }
      StepKeepsMutex(s, Go(t));
      StepKeepsPointers(s, Go(t));
      var rest;
      rest, s' := EndsAlone(Advance(s, t), t);
      es := GoFirst(s, t, rest, s');
    }
  }

  lemma GoFirst(s: State, t: Tid, rest: seq<Event>, s': State) returns (es: seq<Event>)
    requires InRange(s) && CanGo(s, t) && CallRun(Advance(s, t), rest, t, s') && Alone(rest, t)
    ensures CallRun(s, es, t, s') && Alone(es, t)
  {
    es := [Go(t)] + rest;
    assert es[1..] == rest;
  }

  /** A read alone of a pipe that is not empty ends, and a write alone to one that is not
      full does. */
  lemma CallsEndAlone(n: nat, threads: set<Tid>, s: State, t: Tid, call: Event) returns (es: seq<Event>, s': State)
    requires 0 < n && Reachable(n, threads, s) && s.lock == Free && t in s.pc && s.pc[t] == Idle && InRange(s)
    requires (call.Read? && s.rp != s.wp) || (call.Write? && !Full(s))
    requires call.t == t
    ensures CallRun(Step(s, call), es, t, s') && Alone(es, t)
  {
    ReachableInv(n, threads, s);
    StepKeepsInv(s, call);
    es, s' := EndsAlone(Step(s, call), t);
  }

  /** A reader anywhere in its wait, with data in the pipe, nobody at the mutex and no wake
      to come, can finish alone; so can a writer with space.  Nobody sleeps on. */
  lemma WaitingCallsEndAlone(n: nat, threads: set<Tid>, s: State, t: Tid) returns (es: seq<Event>, s': State)
    requires 0 < n && Reachable(n, threads, s) && s.lock == Free && t in s.pc && InRange(s)
    requires || (AwaitsData(s.pc[t]) && s.rp != s.wp && !ReadersWakeDue(s))
             || (AwaitsSpace(s.pc[t]) && !Full(s) && !WritersWakeDue(s))
    ensures CallRun(s, es, t, s') && Alone(es, t)
  {
    ReachableInv(n, threads, s);
    es, s' := EndsAlone(s, t);
  }

  // ---------- calls that have to wait ----------

  lemma GoAlone(s: State, t: Tid, rest: seq<Event>, s': State) returns (es: seq<Event>)
    requires InRange(s) && CanGo(s, t) && Run(Advance(s, t), rest, s') && Alone(rest, t)
    ensures Run(s, es, s') && Alone(es, t)
  {
    es := [Go(t)] + rest;
    assert es[1..] == rest;
  }

  /** A reader in wait_event() over an empty pipe... */
  lemma LooksForData(s: State, t: Tid, count: nat) returns (es: seq<Event>)
    requires InRange(s) && s.rp == s.wp && t in s.pc && s.pc[t] == RCond(count)
    ensures Run(s, es, s.(inq := s.inq + {t}, pc := s.pc[t := RAsleep(count)])) && Alone(es, t)
  {
    var asleep := s.(inq := s.inq + {t}, pc := s.pc[t := RAsleep(count)]);
    var a := Advance(s, t);
    var b := Advance(a, t);
    var c := Advance(b, t);
    var d := Advance(c, t);
    assert Advance(d, t).pc == asleep.pc;
    es := GoAlone(d, t, [], asleep);
    es := GoAlone(c, t, es, asleep);
    es := GoAlone(b, t, es, asleep);
    es := GoAlone(a, t, es, asleep);
    es := GoAlone(s, t, es, asleep);
  }

  /** ...and a writer over a full one. */
  lemma LooksForSpace(s: State, t: Tid, req: seq<byte>) returns (es: seq<Event>)
    requires InRange(s) && Full(s) && Settled(s) && t in s.pc && s.pc[t] == WEnqueue(req)
    ensures Run(s, es, s.(outq := s.outq + {t}, pc := s.pc[t := WAsleep(req)])) && Alone(es, t)
  {
    var asleep := s.(outq := s.outq + {t}, pc := s.pc[t := WAsleep(req)]);
    SpacefreeComplementsUsed(s.N(), s.rp, s.wp);
    var a := Advance(s, t);
    var b := Advance(a, t);
    es := [];
    if s.rp == s.wp {
      assert Advance(b, t).pc == asleep.pc;
    } else {
      var c := Advance(b, t);
      var d := Advance(c, t);
      assert Advance(d, t).pc == asleep.pc;
      es := GoAlone(d, t, [], asleep);
      es := GoAlone(c, t, es, asleep);
    }
    es := GoAlone(b, t, es, asleep);
    es := GoAlone(a, t, es, asleep);
    es := GoAlone(s, t, es, asleep);
  }

  /** Nothing has changed but the place of one thread. */
  function Away(s: State, t: Tid, pc: Pc): State {
    s.(pc := s.pc[t := pc])
  }

  /** A read alone, of an empty pipe, changes nothing: it may return with EAGAIN as soon as
      it has freed the mutex, or it falls asleep on its queue, from where a signal takes it
      back. */
  lemma EmptyPipeRefuses(s: State, t: Tid, count: nat) returns (es: seq<Event>)
    requires InRange(s) && t in s.pc && s.pc[t] == Idle && s.lock == Free && s.rp == s.wp && t !in s.inq + s.outq
    ensures Run(Step(s, Read(t, count)), [Go(t), Go(t), GiveUp(t)], s)
    ensures Run(Step(s, Read(t, count)), es, Away(s, t, RAsleep(count)).(inq := s.inq + {t})) && Alone(es, t)
    ensures Run(Away(s, t, RAsleep(count)).(inq := s.inq + {t}), [GiveUp(t)], s)
  {
    var a := Step(s, Read(t, count));
    var b := Advance(a, t);
    var c := Advance(b, t);
    assert c == Away(s, t, RCond(count));
    ReturnsAsItCame(s, t, RCond(count), s.inq, s.outq);
    ReturnsAsItCame(s, t, RAsleep(count), s.inq + {t}, s.outq);
    ThreeSteps(a, b, c, s, t);
    es := LooksForData(c, t, count);
    assert c.pc[t := RAsleep(count)] == s.pc[t := RAsleep(count)];
    es := GoAlone(b, t, es, Away(s, t, RAsleep(count)).(inq := s.inq + {t}));
    es := GoAlone(a, t, es, Away(s, t, RAsleep(count)).(inq := s.inq + {t}));
  }

  /** So does a write alone to a full one. */
  lemma FullPipeRefuses(s: State, t: Tid, req: seq<byte>) returns (es: seq<Event>)
    requires InRange(s) && Settled(s) && t in s.pc && s.pc[t] == Idle && s.lock == Free && Full(s)
    requires t !in s.inq + s.outq
    ensures Run(Step(s, Write(t, req)), [Go(t), Go(t), GiveUp(t)], s)
    ensures Run(Step(s, Write(t, req)), es, Away(s, t, WAsleep(req)).(outq := s.outq + {t})) && Alone(es, t)
    ensures Run(Away(s, t, WAsleep(req)).(outq := s.outq + {t}), [GiveUp(t)], s)
  {
    var a := Step(s, Write(t, req));
    var b := Advance(a, t);
    var c := Advance(b, t);
    assert c == Away(s, t, WEnqueue(req));
    ReturnsAsItCame(s, t, WEnqueue(req), s.inq, s.outq);
    ReturnsAsItCame(s, t, WAsleep(req), s.inq, s.outq + {t});
    ThreeSteps(a, b, c, s, t);
    es := LooksForSpace(c, t, req);
    assert c.pc[t := WAsleep(req)] == s.pc[t := WAsleep(req)];
    es := GoAlone(b, t, es, Away(s, t, WAsleep(req)).(outq := s.outq + {t}));
    es := GoAlone(a, t, es, Away(s, t, WAsleep(req)).(outq := s.outq + {t}));
  }

  lemma ReturnsAsItCame(s: State, t: Tid, pc: Pc, inq: set<Tid>, outq: set<Tid>)
    requires InRange(s) && t in s.pc && s.pc[t] == Idle && MayReturn(pc) && t !in s.inq + s.outq
    requires inq - {t} == s.inq && outq - {t} == s.outq
    ensures Run(Away(s, t, pc).(inq := inq, outq := outq), [GiveUp(t)], s)
  {
    var a := Away(s, t, pc).(inq := inq, outq := outq);
    assert a.pc[t := Idle] == s.pc;
    assert [GiveUp(t)][1..] == [];
    assert Run(s, [], s);
  }

  lemma ThreeSteps(a: State, b: State, c: State, s: State, t: Tid)
    requires InRange(a) && CanGo(a, t) && b == Advance(a, t)
    requires InRange(b) && CanGo(b, t) && c == Advance(b, t)
    requires Run(c, [GiveUp(t)], s)
    ensures Run(a, [Go(t), Go(t), GiveUp(t)], s)
  {
    assert [Go(t), Go(t), GiveUp(t)][1..] == [Go(t), GiveUp(t)];
    assert [Go(t), GiveUp(t)][1..] == [GiveUp(t)];
  }
}
