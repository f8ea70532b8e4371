/** scull/pipe.c with any number of reader and writer threads, interleaved at
    every lock, load, queue, pointer and wake step.  Without the mutex a condition
    is evaluated one load at a time.  A thread is on a wait queue from the moment it
    enqueues itself until it is woken or gives up, so "asleep and not woken" is: at the
    sleeping step and still on its queue. */
module PipeProtocol {
  import opened Ring
  import opened ScullPipe

  type Tid = nat

  datatype Pc =
    | Idle
    // scull_p_read
    | RLock(count: nat)                  // about to take the mutex
    | RCheck(count: nat)                 // holds it, evaluates "rp == wp"
    | RCond(count: nat)                  // wait_event: loads rp, not yet queued
    | RCondRp(count: nat, rp: nat)       // has it, loads wp
    | REnqueue(count: nat)
    | RRecheck(count: nat)               // queued, loads rp
    | RRecheckRp(count: nat, rp: nat)    // has it, loads wp
    | RAsleep(count: nat)
    | RCopied(data: seq<byte>)           // holds it, bytes copied out
    | RWrap | RUnlock | RWake            // rp advanced; wrap, unlock, wake writers
    // scull_p_write
    | WLock(req: seq<byte>)
    | WCheck(req: seq<byte>)             // holds it, evaluates "spacefree() == 0"
    | WEnqueue(req: seq<byte>)
    | WRecheck(req: seq<byte>)           // queued, spacefree() loads rp
    | WRecheckRp(req: seq<byte>, rp: nat) // has it, loads wp
    | WReread(req: seq<byte>)            // they differ: loads rp again
    | WRereadRp(req: seq<byte>, rp: nat) // has it, loads wp again
    | WAsleep(req: seq<byte>)
    | WCopied(data: seq<byte>)           // holds it, bytes copied in
    | WWrap | WUnlock | WWake            // wp advanced; wrap, unlock, wake readers

  datatype Lock = Free | HeldBy(t: Tid)

  datatype State = State(
    buf: seq<byte>, rp: nat, wp: nat,
    lock: Lock,
    pc: map<Tid, Pc>,
    inq: set<Tid>,   // readers queued and not woken
    outq: set<Tid>,  // writers queued and not woken
    accepted: seq<byte>, delivered: seq<byte>)
  {
    function N(): nat { |buf| }
  }

  datatype Event =
    | Read(t: Tid, count: nat)           // an idle thread calls read()
    | Write(t: Tid, req: seq<byte>)      // an idle thread calls write()
    | Go(t: Tid)                         // the thread takes its next step
    | GiveUp(t: Tid)                     // EAGAIN, or a signal, where the source returns

  function Init(n: nat, threads: set<Tid>): State {
    State(seq(n, _ => 0), 0, 0, Free, map t | t in threads :: Idle, {}, {}, [], [])
  }

  predicate Holds(pc: Pc) {
    pc.RCheck? || pc.RCopied? || pc.RWrap? || pc.RUnlock? ||
    pc.WCheck? || pc.WCopied? || pc.WWrap? || pc.WUnlock?
  }

  /** A thread waits for something else exactly at the mutex and while asleep. */
  predicate CanGo(s: State, t: Tid) {
    t in s.pc &&
    match s.pc[t]
    case Idle => false
    case RLock(_) => s.lock == Free
    case WLock(_) => s.lock == Free
    case RAsleep(_) => t !in s.inq
    case WAsleep(_) => t !in s.outq
    case _ => true
  }

  /** Where a call returns empty-handed: EAGAIN just after unlocking, or a signal. */
  predicate MayReturn(pc: Pc) {
    pc.RCond? || pc.WEnqueue? || pc.RAsleep? || pc.WAsleep?
  }

  predicate Enabled(s: State, e: Event) {
    match e
    case Read(t, _) => t in s.pc && s.pc[t] == Idle
    case Write(t, _) => t in s.pc && s.pc[t] == Idle
    case Go(t) => CanGo(s, t)
    case GiveUp(t) => t in s.pc && MayReturn(s.pc[t])
  }

  predicate Full(s: State)
    requires 0 < s.N() && s.rp <= s.N() && s.wp <= s.N()
  {
    Spacefree(s.N(), s.rp, s.wp) == 0
  }

  /** The count computed under the lock, as scull_p_read() does. */
  function ReadCount(n: nat, rp: nat, wp: nat, count: nat): nat
    requires rp <= n && wp <= n
  {
    if wp > rp then Min(count, wp - rp) else Min(count, n - rp)
  }

  /** And as scull_p_write() does.  Cast to size_t, a negative spacefree() bounds nothing. */
  function WriteCount(n: nat, rp: nat, wp: nat, count: nat): nat
    requires 0 < n && rp <= n && wp <= n
  {
    var free := Spacefree(n, rp, wp);
    var k := if free < 0 then count else Min(count, free);
    if wp >= rp then Min(k, n - wp) else Min(k, rp - wp - 1)
  }

  /** Both pointers within the buffer or at its end: all that a step needs to
      stay within the buffer. */
  predicate InRange(s: State) {
    0 < s.N() && s.rp <= s.N() && s.wp <= s.N()
  }

  /** The end of a writer's recheck: sleep, or leave the queue and try again. */
  function SleepIf(s: State, t: Tid, r: seq<byte>, full: bool): State {
    if full then s.(pc := s.pc[t := WAsleep(r)])
    else s.(outq := s.outq - {t}, pc := s.pc[t := WLock(r)])
  }

  /** One step of thread t. */
  function Advance(s: State, t: Tid): State
    requires InRange(s) && CanGo(s, t)
  {
    match s.pc[t]
    case Idle => s
    case RLock(c) => s.(lock := HeldBy(t), pc := s.pc[t := RCheck(c)])
    case RCheck(c) =>
      if s.rp == s.wp then s.(lock := Free, pc := s.pc[t := RCond(c)])
      else s.(pc := s.pc[t := RCopied(s.buf[s.rp..s.rp + ReadCount(s.N(), s.rp, s.wp, c)])])
    case RCond(c) => s.(pc := s.pc[t := RCondRp(c, s.rp)])
    case RCondRp(c, rp) => s.(pc := s.pc[t := if rp != s.wp then RLock(c) else REnqueue(c)])
    case REnqueue(c) => s.(inq := s.inq + {t}, pc := s.pc[t := RRecheck(c)])
    case RRecheck(c) => s.(pc := s.pc[t := RRecheckRp(c, s.rp)])
    case RRecheckRp(c, rp) =>
      if rp != s.wp then s.(inq := s.inq - {t}, pc := s.pc[t := RLock(c)])
      else s.(pc := s.pc[t := RAsleep(c)])
    case RAsleep(c) => s.(pc := s.pc[t := REnqueue(c)])
    case RCopied(data) =>
      s.(rp := s.rp + |data|, delivered := s.delivered + data, pc := s.pc[t := RWrap])
    case RWrap => s.(rp := Wrap(s.N(), s.rp), pc := s.pc[t := RUnlock])
    case RUnlock => s.(lock := Free, pc := s.pc[t := RWake])
    case RWake => s.(outq := {}, pc := s.pc[t := Idle])
    case WLock(r) => s.(lock := HeldBy(t), pc := s.pc[t := WCheck(r)])
    case WCheck(r) =>
      if Full(s) then s.(lock := Free, pc := s.pc[t := WEnqueue(r)])
      else
        var data := r[..WriteCount(s.N(), s.rp, s.wp, |r|)];
        s.(buf := Overwrite(s.buf, s.wp, data), pc := s.pc[t := WCopied(data)])
    case WEnqueue(r) => s.(outq := s.outq + {t}, pc := s.pc[t := WRecheck(r)])
    case WRecheck(r) => s.(pc := s.pc[t := WRecheckRp(r, s.rp)])
    case WRecheckRp(r, rp) => if rp == s.wp then SleepIf(s, t, r, s.N() - 1 == 0) else s.(pc := s.pc[t := WReread(r)])
    case WReread(r) => s.(pc := s.pc[t := WRereadRp(r, s.rp)])
    case WRereadRp(r, rp) => SleepIf(s, t, r, Gap(s.N(), rp, s.wp) == 0)
    case WAsleep(r) => s.(pc := s.pc[t := WLock(r)])
    case WCopied(data) =>
      s.(wp := s.wp + |data|, accepted := s.accepted + data, pc := s.pc[t := WWrap])
    case WWrap => s.(wp := Wrap(s.N(), s.wp), pc := s.pc[t := WUnlock])
    case WUnlock => s.(lock := Free, pc := s.pc[t := WWake])
    case WWake => s.(inq := {}, pc := s.pc[t := Idle])
  }

  function Step(s: State, e: Event): State
    requires InRange(s) && Enabled(s, e)
  {
    match e
    case Read(t, c) => s.(pc := s.pc[t := RLock(c)])
    case Write(t, r) => s.(pc := s.pc[t := WLock(r)])
    case Go(t) => Advance(s, t)
    case GiveUp(t) => s.(pc := s.pc[t := Idle], inq := s.inq - {t}, outq := s.outq - {t})
  }

  /** s' is reached from s by the events es. */
  ghost predicate Run(s: State, es: seq<Event>, s': State)
    decreases |es|
  {
    if es == [] then s' == s
    else InRange(s) && Enabled(s, es[0]) && Run(Step(s, es[0]), es[1..], s')
  }

  ghost predicate Reachable(n: nat, threads: set<Tid>, s: State) {
    exists es :: Run(Init(n, threads), es, s)
  }

  // ---------- the invariant ----------

  predicate Settled(s: State) {
    s.rp < s.N() && s.wp < s.N()
  }

  /** What the thread holding the mutex knows about the pointers. */
  ghost predicate HolderKnows(s: State, pc: Pc)
    requires InRange(s)
  {
    match pc
    case RCopied(data) =>
      Settled(s) && |data| <= DataRun(s.N(), s.rp, s.wp) && data == s.buf[s.rp..s.rp + |data|]
    case WCopied(data) =>
      Settled(s) && |data| <= SpaceRun(s.N(), s.rp, s.wp) && data == s.buf[s.wp..s.wp + |data|] && !Full(s)
    case RWrap => s.wp < s.N()
    case WWrap => s.rp < s.N()
    case _ => Settled(s)
  }

  ghost predicate Mutex(s: State) {
    && (s.lock.HeldBy? ==> s.lock.t in s.pc)
    && (forall t <- s.pc :: Holds(s.pc[t]) <==> s.lock == HeldBy(t))
  }

  ghost predicate Pointers(s: State) {
    && InRange(s)
    && (s.lock == Free ==> Settled(s))
    && (s.lock.HeldBy? ==> s.lock.t in s.pc && HolderKnows(s, s.pc[s.lock.t]))
  }

  ghost predicate Fifo(s: State)
    requires InRange(s)
  {
    s.delivered + Contents(s.buf, Wrap(s.N(), s.rp), Wrap(s.N(), s.wp)) == s.accepted
  }

  predicate QueuedReader(pc: Pc) {
    pc.RRecheck? || pc.RRecheckRp? || pc.RAsleep?
  }

  predicate QueuedWriter(pc: Pc) {
    pc.WRecheck? || pc.WRecheckRp? || pc.WReread? || pc.WRereadRp? || pc.WAsleep?
  }

  ghost predicate Queues(s: State) {
    && (forall t <- s.inq :: t in s.pc && QueuedReader(s.pc[t]))
    && (forall t <- s.outq :: t in s.pc && QueuedWriter(s.pc[t]))
  }

  /** A reader has moved rp and will wake the writers. */
  predicate ReaderDue(pc: Pc) {
    pc.RWrap? || pc.RUnlock? || pc.RWake?
  }

  predicate WriterDue(pc: Pc) {
    pc.WWrap? || pc.WUnlock? || pc.WWake?
  }

  ghost predicate WritersWakeDue(s: State) {
    exists t <- s.pc :: ReaderDue(s.pc[t])
  }

  ghost predicate ReadersWakeDue(s: State) {
    exists t <- s.pc :: WriterDue(s.pc[t])
  }

  ghost predicate SleepingReader(s: State, t: Tid) {
    t in s.pc && s.pc[t].RAsleep? && t in s.inq
  }

  ghost predicate SleepingWriter(s: State, t: Tid) {
    t in s.pc && s.pc[t].WAsleep? && t in s.outq
  }

  /** What a queued reader has loaded cannot make it sleep over queued data. */
  predicate ReaderKnows(s: State, pc: Pc) {
    match pc
    case RRecheckRp(_, rp) => s.wp == rp ==> s.rp == s.wp
    case RAsleep(_) => s.rp == s.wp
    case _ => true
  }

  /** Nor a queued writer over free space. */
  predicate WriterKnows(s: State, pc: Pc)
    requires InRange(s)
  {
    match pc
    case WRecheckRp(_, rp) => s.rp == rp
    case WRereadRp(_, rp) => s.rp == rp
    case WAsleep(_) => Full(s)
    case _ => true
  }

  ghost predicate NoLostWakeup(s: State)
    requires InRange(s) && Queues(s)
  {
    && (forall t <- s.inq :: ReaderKnows(s, s.pc[t]) || ReadersWakeDue(s))
    && (forall t <- s.outq :: WriterKnows(s, s.pc[t]) || WritersWakeDue(s))
  }

  ghost predicate Inv(s: State) {
    Mutex(s) && Pointers(s) && Fifo(s) && Queues(s) && NoLostWakeup(s)
  }

  // ---------- every step keeps it ----------

  lemma InitInv(n: nat, threads: set<Tid>)
    requires 0 < n
    ensures Inv(Init(n, threads))
  {
  }

  predicate Reading(pc: Pc) {
    pc.RLock? || pc.RCheck? || pc.RCond? || pc.RCondRp? || pc.REnqueue? || pc.RRecheck? || pc.RRecheckRp? ||
    pc.RAsleep? || pc.RCopied? || pc.RWrap? || pc.RUnlock? || pc.RWake?
  }

  /** Only thread t has moved... */
  predicate MovesOne(s: State, t: Tid, s': State) {
    t in s'.pc && s'.pc == s.pc[t := s'.pc[t]]
  }

  /** ...and it has taken or freed the mutex exactly as its place says. */
  predicate MovesMutex(s: State, t: Tid, s': State)
    requires t in s.pc && t in s'.pc
  {
    && (Holds(s'.pc[t]) ==> s'.lock == if Holds(s.pc[t]) then s.lock else HeldBy(t))
    && (Holds(s'.pc[t]) && !Holds(s.pc[t]) ==> s.lock == Free)
    && (!Holds(s'.pc[t]) ==> s'.lock == if Holds(s.pc[t]) then Free else s.lock)
  }

  lemma ReaderMoves(s: State, t: Tid)
    requires InRange(s) && CanGo(s, t) && Reading(s.pc[t])
    ensures MovesOne(s, t, Advance(s, t)) && MovesMutex(s, t, Advance(s, t))
  {
  }

  lemma WriterMoves(s: State, t: Tid)
    requires InRange(s) && CanGo(s, t) && !Reading(s.pc[t])
    ensures MovesOne(s, t, Advance(s, t)) && MovesMutex(s, t, Advance(s, t))
  {
  }

  /** A step changes the place of one thread, and the mutex with it. */
  lemma StepMoves(s: State, e: Event)
    requires InRange(s) && Enabled(s, e)
    ensures MovesOne(s, e.t, Step(s, e)) && MovesMutex(s, e.t, Step(s, e))
  {
    if e.Go? && Reading(s.pc[e.t]) {
      ReaderMoves(s, e.t);
    } else if e.Go? {
      WriterMoves(s, e.t);
    }
  }

  lemma StepKeepsMutex(s: State, e: Event)
    requires InRange(s) && Mutex(s) && Enabled(s, e)
    ensures Mutex(Step(s, e))
  {
    StepMoves(s, e);
  }

  /** A thread on a queue leaves it before it goes elsewhere. */
  ghost predicate MovesQueues(s: State, t: Tid, s': State)
    requires t in s.pc && t in s'.pc
  {
    && s'.inq <= s.inq + {t} && s'.outq <= s.outq + {t}
    && (t in s'.inq && s.pc[t].REnqueue? ==> s'.pc[t].RRecheck?)
    && (t in s'.outq && s.pc[t].WEnqueue? ==> s'.pc[t].WRecheck?)
    && (!s.pc[t].REnqueue? ==> s'.inq <= s.inq) && (!s.pc[t].WEnqueue? ==> s'.outq <= s.outq)
    && (t in s'.inq && QueuedReader(s.pc[t]) ==> QueuedReader(s'.pc[t]))
    && (t in s'.outq && QueuedWriter(s.pc[t]) ==> QueuedWriter(s'.pc[t]))
  }

  lemma ReaderMovesQueues(s: State, t: Tid)
    requires InRange(s) && CanGo(s, t) && Reading(s.pc[t]) && t in Advance(s, t).pc
    ensures MovesQueues(s, t, Advance(s, t))
  {
  }

  lemma WriterMovesQueues(s: State, t: Tid)
    requires InRange(s) && CanGo(s, t) && !Reading(s.pc[t]) && t in Advance(s, t).pc
    ensures MovesQueues(s, t, Advance(s, t))
  {
  }

  lemma StepMovesQueues(s: State, e: Event)
    requires InRange(s) && Enabled(s, e) && e.t in Step(s, e).pc
    ensures MovesQueues(s, e.t, Step(s, e))
  {
    if e.Go? && Reading(s.pc[e.t]) {
      ReaderMovesQueues(s, e.t);
    } else if e.Go? {
      WriterMovesQueues(s, e.t);
    }
  }

  lemma StepKeepsQueues(s: State, e: Event)
    requires InRange(s) && Queues(s) && Enabled(s, e)
    ensures Queues(Step(s, e))
  {
    StepMoves(s, e);
    StepMovesQueues(s, e);
  }

  /** The counts computed under the lock stay within the contiguous runs. */
  lemma CountsFit(n: nat, rp: nat, wp: nat, count: nat)
    requires Indices(n, rp, wp)
    ensures rp != wp ==> ReadCount(n, rp, wp, count) == Min(count, DataRun(n, rp, wp))
    ensures Spacefree(n, rp, wp) != 0 ==> WriteCount(n, rp, wp, count) == Min(count, SpaceRun(n, rp, wp))
  {
    SpacefreeComplementsUsed(n, rp, wp);
  }

  lemma CheckKeepsPointers(s: State, t: Tid)
    requires Mutex(s) && Pointers(s) && CanGo(s, t) && (s.pc[t].RCheck? || s.pc[t].WCheck?)
    ensures Pointers(Advance(s, t))
  {
    assert s.lock == HeldBy(t) && Settled(s);
    var n := s.N();
    if s.pc[t].RCheck? {
      CountsFit(n, s.rp, s.wp, s.pc[t].count);
    } else if !Full(s) {
      var r := s.pc[t].req;
      CountsFit(n, s.rp, s.wp, |r|);
      var data := r[..WriteCount(n, s.rp, s.wp, |r|)];
      assert Overwrite(s.buf, s.wp, data)[s.wp..s.wp + |data|] == data;
    }
  }

  lemma HolderKeepsPointers(s: State, t: Tid)
    requires Mutex(s) && Pointers(s) && CanGo(s, t) && Holds(s.pc[t])
    ensures Pointers(Advance(s, t))
  {
    if s.pc[t].RCheck? || s.pc[t].WCheck? {
      CheckKeepsPointers(s, t);
    }
  }

  lemma StepKeepsPointers(s: State, e: Event)
    requires Mutex(s) && Pointers(s) && Enabled(s, e)
    ensures Pointers(Step(s, e))
  {
    if e.Go? && Holds(s.pc[e.t]) {
      HolderKeepsPointers(s, e.t);
    } else {
      OtherStepsLeaveTheRing(s, e);
    }
  }

  /** A thread without the mutex changes no pointer and no byte; it can only
      take the mutex when it is free. */
  lemma OtherStepsLeaveTheRing(s: State, e: Event)
    requires InRange(s) && Mutex(s) && Enabled(s, e) && !(e.Go? && Holds(s.pc[e.t]))
    ensures var s' := Step(s, e);
      && s' == s.(lock := s'.lock, pc := s'.pc, inq := s'.inq, outq := s'.outq)
      && (s'.lock == s.lock || (s.lock == Free && s'.lock == HeldBy(e.t)))
      && (s.lock.HeldBy? ==> s.lock.t in s'.pc && s'.pc[s.lock.t] == s.pc[s.lock.t])
      && (s'.lock != s.lock ==> e.t in s'.pc && (s'.pc[e.t].RCheck? || s'.pc[e.t].WCheck?))
  {
  }

  /** Copying into free slots shows in nobody's view of the queued bytes. */
  lemma CopyInKeepsFifo(s: State, t: Tid)
    requires Mutex(s) && Pointers(s) && Fifo(s) && CanGo(s, t) && s.pc[t].WCheck?
    ensures InRange(Advance(s, t)) && Fifo(Advance(s, t))
  {
    assert s.lock == HeldBy(t) && Settled(s);
    if !Full(s) {
      var r := s.pc[t].req;
      CountsFit(s.N(), s.rp, s.wp, |r|);
      FreeSlotsInvisible(s.buf, s.rp, s.wp, r[..WriteCount(s.N(), s.rp, s.wp, |r|)]);
    }
  }

  /** The bytes copied out leave the ring as rp moves over them... */
  lemma RpMoves(s: State, data: seq<byte>)
    requires InRange(s) && Settled(s) && Fifo(s)
    requires |data| <= DataRun(s.N(), s.rp, s.wp) && data == s.buf[s.rp..s.rp + |data|]
    ensures s.rp + |data| <= s.N() && Wrap(s.N(), s.rp + |data|) < s.N()
    ensures (s.delivered + data) + Contents(s.buf, Wrap(s.N(), s.rp + |data|), s.wp) == s.accepted
  {
    Consumed(s.buf, s.rp, s.wp, data, s.delivered, s.accepted);
  }

  lemma MovingRpKeepsFifo(s: State, t: Tid)
    requires Mutex(s) && Pointers(s) && Fifo(s) && CanGo(s, t) && s.pc[t].RCopied?
    ensures InRange(Advance(s, t)) && Fifo(Advance(s, t))
  {
    assert s.lock == HeldBy(t) && HolderKnows(s, s.pc[t]);
    var s' := Advance(s, t);
    RpMoves(s, s.pc[t].data);
    assert s'.buf == s.buf && s'.rp == s.rp + |s.pc[t].data| && Wrap(s'.N(), s'.wp) == s.wp;
    assert s'.delivered == s.delivered + s.pc[t].data && s'.accepted == s.accepted;
  }

  /** ...and those copied in enter it as wp does. */
  lemma WpMoves(s: State, data: seq<byte>)
    requires InRange(s) && Settled(s) && Fifo(s)
    requires |data| <= SpaceRun(s.N(), s.rp, s.wp) && s.wp + |data| <= s.N() && data == s.buf[s.wp..s.wp + |data|]
    ensures Wrap(s.N(), s.wp + |data|) < s.N()
    ensures s.delivered + Contents(s.buf, s.rp, Wrap(s.N(), s.wp + |data|)) == s.accepted + data
  {
    ProducedInPlace(s.buf, s.rp, s.wp, data, s.delivered, s.accepted);
  }

  lemma MovingWpKeepsFifo(s: State, t: Tid)
    requires Mutex(s) && Pointers(s) && Fifo(s) && CanGo(s, t) && s.pc[t].WCopied?
    ensures InRange(Advance(s, t)) && Fifo(Advance(s, t))
  {
    assert s.lock == HeldBy(t) && HolderKnows(s, s.pc[t]);
    WpMoves(s, s.pc[t].data);
  }

  lemma StepKeepsFifo(s: State, e: Event)
    requires Mutex(s) && Pointers(s) && Fifo(s) && Enabled(s, e)
    ensures InRange(Step(s, e)) && Fifo(Step(s, e))
  {
    if e.Go? && s.pc[e.t].WCheck? {
      CopyInKeepsFifo(s, e.t);
    } else if e.Go? && s.pc[e.t].RCopied? {
      MovingRpKeepsFifo(s, e.t);
    } else if e.Go? && s.pc[e.t].WCopied? {
      MovingWpKeepsFifo(s, e.t);
    } else if !(e.Go? && Holds(s.pc[e.t])) {
      OtherStepsLeaveTheRing(s, e);
    }
  }

  /** A pointer moves only with a wake to follow. */
  lemma StepMovesPointers(s: State, e: Event)
    requires InRange(s) && Enabled(s, e) && e.t in Step(s, e).pc
    ensures var s' := Step(s, e);
      && s'.N() == s.N()
      && (s'.rp == s.rp || ReaderDue(s'.pc[e.t]))
      && (s'.wp == s.wp || WriterDue(s'.pc[e.t]))
      && (s'.wp == s.wp || (e.Go? && (s.pc[e.t].WCopied? || (s.pc[e.t].WWrap? && s.wp == s.N() && s'.wp == 0))))
  {
  }

  /** A wake that is due stays due, or is done. */
  lemma StepKeepsDue(s: State, e: Event)
    requires InRange(s) && Enabled(s, e) && e.t in Step(s, e).pc
    ensures ReaderDue(s.pc[e.t]) ==> ReaderDue(Step(s, e).pc[e.t]) || Step(s, e).outq == {}
    ensures WriterDue(s.pc[e.t]) ==> WriterDue(Step(s, e).pc[e.t]) || Step(s, e).inq == {}
  {
  }

  lemma ReadersWakeStaysDue(s: State, e: Event)
    requires InRange(s) && Enabled(s, e) && ReadersWakeDue(s)
    ensures ReadersWakeDue(Step(s, e)) || Step(s, e).inq == {}
  {
    var d :| d in s.pc && WriterDue(s.pc[d]);
    StepMoves(s, e);
    StepKeepsDue(s, e);
    assert d in Step(s, e).pc;
  }

  lemma WritersWakeStaysDue(s: State, e: Event)
    requires InRange(s) && Enabled(s, e) && WritersWakeDue(s)
    ensures WritersWakeDue(Step(s, e)) || Step(s, e).outq == {}
  {
    var d :| d in s.pc && ReaderDue(s.pc[d]);
    StepMoves(s, e);
    StepKeepsDue(s, e);
    assert d in Step(s, e).pc;
  }

  /** What a queued reader knows survives the moves of the others: a thread that has
      taken data out has found some there. */
  lemma ReaderStaysSafe(s: State, e: Event, u: Tid)
    requires Mutex(s) && Pointers(s) && Enabled(s, e) && u != e.t
    requires u in s.pc && ReaderKnows(s, s.pc[u]) && Step(s, e).wp == s.wp
    ensures ReaderKnows(Step(s, e), s.pc[u])
  {
    if !(e.Go? && Holds(s.pc[e.t])) {
      OtherStepsLeaveTheRing(s, e);
    }
  }

  lemma OwnStepKeepsReaderSafe(s: State, e: Event)
    requires InRange(s) && Queues(s) && Enabled(s, e)
    requires e.t in s.inq ==> ReaderKnows(s, s.pc[e.t])
    requires e.t in Step(s, e).inq && e.t in Step(s, e).pc
    ensures ReaderKnows(Step(s, e), Step(s, e).pc[e.t])
  {
  }

  lemma StepKeepsReadersSafe(s: State, e: Event, u: Tid)
    requires Mutex(s) && Pointers(s) && Queues(s) && NoLostWakeup(s) && Enabled(s, e)
    requires u in Step(s, e).inq && u in Step(s, e).pc
    ensures ReaderKnows(Step(s, e), Step(s, e).pc[u]) || ReadersWakeDue(Step(s, e))
  {
    StepMoves(s, e);
    StepMovesQueues(s, e);
    StepMovesPointers(s, e);
    if ReadersWakeDue(s) {
      ReadersWakeStaysDue(s, e);
    } else if u == e.t {
      OwnStepKeepsReaderSafe(s, e);
    } else if Step(s, e).wp == s.wp {
      ReaderStaysSafe(s, e, u);
    } else {
      assert e.t in Step(s, e).pc;
    }
  }

  /** Wrapping wp does not change what spacefree() says while it stands at the end. */
  lemma WrapKeepsFull(n: nat, rp: nat)
    requires rp < n && Spacefree(n, rp, n) == 0
    ensures Spacefree(n, rp, 0) == 0
  {
    ModUnwrapped(rp, n);
    ModUnwrapped(rp + n, n);
  }

  /** A writer that finds the pointers it has loaded to leave no gap is right. */
  lemma GapMeansFull(n: nat, rp: nat, wp: nat)
    requires 0 < n && rp <= n && wp <= n && Gap(n, rp, wp) == 0
    ensures Spacefree(n, rp, wp) == 0
  {
    if rp == wp {
      ModUnwrapped(n, n);
    }
  }

  /** What a queued writer knows survives the moves of wp: a thread that has put data
      in has found space. */
  lemma WriterStaysSafe(s: State, s': State, pc: Pc)
    requires InRange(s) && InRange(s') && s'.N() == s.N() && WriterKnows(s, pc) && s'.rp == s.rp
    requires s'.wp == s.wp || (s.rp < s.N() == s.wp && s'.wp == 0) || !Full(s)
    ensures WriterKnows(s', pc)
  {
    if s'.wp != s.wp && Full(s) {
      WrapKeepsFull(s.N(), s.rp);
    }
  }

  lemma OwnStepKeepsWriterSafe(s: State, e: Event)
    requires InRange(s) && Queues(s) && Enabled(s, e)
    requires e.t in s.outq ==> WriterKnows(s, s.pc[e.t])
    requires InRange(Step(s, e)) && e.t in Step(s, e).outq && e.t in Step(s, e).pc
    ensures WriterKnows(Step(s, e), Step(s, e).pc[e.t])
  {
    if e.Go? && s.pc[e.t].WRereadRp? && Gap(s.N(), s.pc[e.t].rp, s.wp) == 0 {
      GapMeansFull(s.N(), s.pc[e.t].rp, s.wp);
    }
  }

  lemma StepKeepsWritersSafe(s: State, e: Event, u: Tid)
    requires Mutex(s) && Pointers(s) && Queues(s) && NoLostWakeup(s) && Enabled(s, e)
    requires InRange(Step(s, e)) && u in Step(s, e).outq && u in Step(s, e).pc
    ensures WriterKnows(Step(s, e), Step(s, e).pc[u]) || WritersWakeDue(Step(s, e))
  {
    StepMoves(s, e);
    StepMovesQueues(s, e);
    StepMovesPointers(s, e);
    if WritersWakeDue(s) {
      WritersWakeStaysDue(s, e);
    } else if u == e.t {
      OwnStepKeepsWriterSafe(s, e);
    } else if Step(s, e).rp == s.rp {
      assert Step(s, e).wp != s.wp ==> s.lock == HeldBy(e.t);
      WriterStaysSafe(s, Step(s, e), s.pc[u]);
    } else {
      assert e.t in Step(s, e).pc;
    }
  }

  lemma StepKeepsInv(s: State, e: Event)
    requires Inv(s) && Enabled(s, e)
    ensures Inv(Step(s, e))
  {
    StepKeepsMutex(s, e);
    StepKeepsQueues(s, e);
    StepKeepsPointers(s, e);
    StepKeepsFifo(s, e);
    var s' := Step(s, e);
    forall u <- s'.inq
      ensures ReaderKnows(s', s'.pc[u]) || ReadersWakeDue(s')
    {
      StepKeepsReadersSafe(s, e, u);
    }
    forall u <- s'.outq
      ensures WriterKnows(s', s'.pc[u]) || WritersWakeDue(s')
    {
      StepKeepsWritersSafe(s, e, u);
    }
  }

  lemma {:induction false} RunKeepsInv(s: State, es: seq<Event>, s': State)
    requires Inv(s) && Run(s, es, s')
    ensures Inv(s')
    decreases |es|
  {
    if es != [] {
      StepKeepsInv(s, es[0]);
      RunKeepsInv(Step(s, es[0]), es[1..], s');
    }
  }

  // ---------- what holds over every run ----------

  /** No lost wakeup.  In every interleaving of any number of threads, a reader
      asleep and not woken faces an empty pipe or a writer that has moved wp and
      will wake it; a writer asleep and not woken faces a full pipe or a reader
      that has moved rp and will wake it. */
  lemma NoWakeupIsLost(n: nat, threads: set<Tid>, s: State, t: Tid)
    requires 0 < n && Reachable(n, threads, s)
    ensures InRange(s)
    ensures SleepingReader(s, t) ==> s.rp == s.wp || ReadersWakeDue(s)
    ensures SleepingWriter(s, t) ==> Full(s) || WritersWakeDue(s)
  {
    ReachableInv(n, threads, s);
  }

  lemma ReachableInv(n: nat, threads: set<Tid>, s: State)
    requires 0 < n && Reachable(n, threads, s)
    ensures Inv(s)
  {
    InitInv(n, threads);
    var es :| Run(Init(n, threads), es, s);
    RunKeepsInv(Init(n, threads), es, s);
  }

  /** FIFO under concurrency.  The bytes handed to all readers together are a
      prefix of the bytes taken from all writers together; the rest is in the ring. */
  lemma ConcurrentFifo(n: nat, threads: set<Tid>, s: State)
    requires 0 < n && Reachable(n, threads, s)
    ensures InRange(s)
    ensures s.accepted == s.delivered + Contents(s.buf, Wrap(s.N(), s.rp), Wrap(s.N(), s.wp))
    ensures s.delivered <= s.accepted
  {
    ReachableInv(n, threads, s);
  }

  /** Threads inside a call that cannot take a step. */
  ghost predicate Blocked(s: State) {
    forall t <- s.pc :: s.pc[t] == Idle || !CanGo(s, t)
  }

  /** No deadlock.  When no thread inside a call can move, nobody holds the mutex
      and the blocked threads are all readers of an empty pipe or all writers to a
      full one; never both, unless the buffer is the reserved slot alone. */
  lemma OnlyEmptyOrFullBlocks(n: nat, threads: set<Tid>, s: State)
    requires 0 < n && Reachable(n, threads, s) && Blocked(s)
    ensures InRange(s) && s.lock == Free && s.N() == n
    ensures forall t <- s.pc :: s.pc[t] == Idle || SleepingReader(s, t) || SleepingWriter(s, t)
    ensures (exists t :: SleepingReader(s, t)) ==> s.rp == s.wp
    ensures (exists t :: SleepingWriter(s, t)) ==> Full(s)
    ensures 1 < n ==> (forall t :: !SleepingReader(s, t)) || (forall t :: !SleepingWriter(s, t))
  {
    ReachableInv(n, threads, s);
    var es :| Run(Init(n, threads), es, s);
    RunKeepsSize(Init(n, threads), es, s);
    if s.lock.HeldBy? {
      assert Holds(s.pc[s.lock.t]) && CanGo(s, s.lock.t);
    }
    assert !ReadersWakeDue(s) && !WritersWakeDue(s);
  }

  lemma {:induction false} RunKeepsSize(s: State, es: seq<Event>, s': State)
    requires Run(s, es, s')
    ensures s'.N() == s.N()
    decreases |es|
  {
    if es != [] {
      RunKeepsSize(Step(s, es[0]), es[1..], s');
    }
  }
}
