/** shortprint/shortprint.c, the output side: one writer at a time (the mutex is
    held for a whole write call), a work item that strobes one byte per run, an
    interrupt that may come at any moment or never, and a fallback timer.  All
    four interleave; shortp_out_lock is the only thing they share besides the
    ring, and the writer reads the tail without it, twice for each look at the
    space. */
module ShortPrint {
  import opened Ring

  const PAGE_SIZE: nat := 4096
  const SP_MIN_SPACE: nat := PAGE_SIZE / 2

  /** shortp_out_space(): contiguous free space. */
  function OutSpace(head: nat, tail: nat): int
    requires head < PAGE_SIZE && tail < PAGE_SIZE
  {
    if head >= tail then
      var space := PAGE_SIZE - head;
      if tail == 0 then space - 1 else space
    else
      tail - head - 1
  }

  /** shortp_incr_out_bp() */
  function Incr(p: nat, incr: nat): nat {
    var new' := p + incr;
    if new' >= PAGE_SIZE then new' - PAGE_SIZE else new'
  }

  function Queued(head: nat, tail: nat): nat
    requires head < PAGE_SIZE && tail < PAGE_SIZE
  {
    Used(PAGE_SIZE, tail, head)
  }

  /** The test at the end of the work item. */
  predicate EnoughRoom(head: nat, tail: nat)
    requires head < PAGE_SIZE && tail < PAGE_SIZE
  {
    (PAGE_SIZE + tail - head) % PAGE_SIZE > SP_MIN_SPACE
  }

  /** Contiguous space is the free run at the head, and it is nil only when all
      but the reserved slot are taken. */
  lemma OutSpaceIsFreeRun(head: nat, tail: nat)
    requires head < PAGE_SIZE && tail < PAGE_SIZE
    ensures OutSpace(head, tail) == SpaceRun(PAGE_SIZE, tail, head)
    ensures OutSpace(head, tail) <= 0 <==> Queued(head, tail) == PAGE_SIZE - 1
  {
  }

  /** The wake test passes exactly for a ring that is less than half full but not
      empty: on an empty ring the difference is taken modulo the page and is zero. */
  lemma WakeThreshold(head: nat, tail: nat)
    requires head < PAGE_SIZE && tail < PAGE_SIZE
    ensures EnoughRoom(head, tail) <==> 0 < Queued(head, tail) < PAGE_SIZE - SP_MIN_SPACE
  {
  }

  /** Space computed from an old tail is still free after the consumer has moved
      the tail on: the contiguous run never shrinks. */
  lemma StaleTailIsSafe(head: nat, tail: nat, space: nat)
    requires head < PAGE_SIZE && tail < PAGE_SIZE && head != tail
    requires space <= SpaceRun(PAGE_SIZE, tail, head)
    ensures space <= SpaceRun(PAGE_SIZE, Incr(tail, 1), head)
  {
  }

  /** shortp_out_space() as it is when the tail moves between its comparison and
      its second read. */
  function TornSpace(head: nat, before: nat, tail: nat): int
    requires head < PAGE_SIZE && before < PAGE_SIZE && tail < PAGE_SIZE
  {
    if head >= before then
      var space := PAGE_SIZE - head;
      if tail == 0 then space - 1 else space
    else
      tail - head - 1
  }

  /** The second tail is the one that counts, unless the consumer has passed the end
      of the page in between: then the space that is there is denied. */
  lemma TornTail(head: nat, before: nat, tail: nat)
    requires head < PAGE_SIZE && before < PAGE_SIZE && tail < PAGE_SIZE
    requires Queued(head, tail) <= Queued(head, before)
    ensures if before > head >= tail then TornSpace(head, before, tail) < 0 < OutSpace(head, tail)
            else TornSpace(head, before, tail) == OutSpace(head, tail)
  {
  }

  datatype Writer =
    | WIdle
    | WLoop(todo: seq<byte>)                // top of the while loop, reads the tail
    | WLoopTail(todo: seq<byte>, before: nat) // has compared it, reads it again
    | WCond(todo: seq<byte>)                // wait_event: the same, not yet queued
    | WCondTail(todo: seq<byte>, before: nat)
    | WEnqueue(todo: seq<byte>)
    | WRecheck(todo: seq<byte>)             // the same, queued
    | WRecheckTail(todo: seq<byte>, before: nat)
    | WAsleep(todo: seq<byte>)
    | WCopy(todo: seq<byte>, space: nat)    // space as computed, maybe stale by now
    | WCopied(todo: seq<byte>, k: nat)      // k bytes in the buffer, head not moved
    | WStart(todo: seq<byte>)               // head moved, wants the lock
    | WLocked(todo: seq<byte>)              // holds it, starts output if inactive

  datatype Worker = KIdle | KWait | KCheck | KEmpty | KWake

  datatype Timer = TIdle | TFired | TLock | TLocked | TIrq

  datatype Lock = Free | ByWriter | ByWorker | ByTimer

  datatype State = State(
    buf: seq<byte>, head: nat, tail: nat,
    active: bool,        // shortp_output_active
    lock: Lock,          // shortp_out_lock
    pending: bool,       // the work item is queued
    armed: bool,         // the timer is pending
    waiting: bool,       // the writer is on shortp_out_queue and not woken
    writer: Writer, worker: Worker, timer: Timer,
    accepted: seq<byte>, strobed: seq<byte>)

  datatype Event =
    | Write(data: seq<byte>)   // a thread gets the mutex and enters the write loop
    | WriterGo
    | Signal                   // ends the wait; the write returns what it has done
    | WorkerGo
    | Irq
    | TimerFires
    | TimerGo(busy: bool)      // what the status register says, where it is read

  function Init(): State {
    State(seq(PAGE_SIZE, _ => 0), 0, 0, false, Free, false, false, false, WIdle, KIdle, TIdle, [], [])
  }

  predicate InRange(s: State) {
    |s.buf| == PAGE_SIZE && s.head < PAGE_SIZE && s.tail < PAGE_SIZE
  }

  predicate WriterCanGo(s: State) {
    match s.writer
    case WIdle => false
    case WAsleep(_) => !s.waiting
    case WCopy(todo, space) => s.head + Min(space, |todo|) <= |s.buf|
    case WCopied(todo, k) => k <= |todo|
    case WLoopTail(_, before) => before < PAGE_SIZE
    case WCondTail(_, before) => before < PAGE_SIZE
    case WRecheckTail(_, before) => before < PAGE_SIZE
    case WStart(_) => s.lock == Free
    case _ => true
  }

  predicate WorkerCanGo(s: State) {
    match s.worker
    case KIdle => s.pending
    case KWait => s.lock == Free
    case _ => true
  }

  predicate Enabled(s: State, e: Event) {
    match e
    case Write(_) => s.writer == WIdle
    case WriterGo => WriterCanGo(s)
    case Signal => s.writer.WAsleep? || s.writer.WEnqueue?
    case WorkerGo => WorkerCanGo(s)
    case Irq => true
    case TimerFires => s.armed && s.timer == TIdle
    case TimerGo(_) => s.timer != TIdle && (s.timer == TLock ==> s.lock == Free)
  }

  /** After the space is known the writer copies; without space it goes to wait. */
  function SpaceOr(s: State, todo: seq<byte>, before: nat, otherwise: Writer): Writer
    requires InRange(s) && before < PAGE_SIZE
  {
    var space := TornSpace(s.head, before, s.tail);
    if space > 0 then WCopy(todo, space) else otherwise
  }

  /** shortp_write(), one step. */
  function WriterStep(s: State): State
    requires InRange(s) && WriterCanGo(s)
  {
    match s.writer
    case WIdle => s
    case WLoop(todo) => s.(writer := if todo == [] then WIdle else WLoopTail(todo, s.tail))
    case WLoopTail(todo, before) => s.(writer := SpaceOr(s, todo, before, WCond(todo)))
    case WCond(todo) => s.(writer := WCondTail(todo, s.tail))
    case WCondTail(todo, before) => s.(writer := SpaceOr(s, todo, before, WEnqueue(todo)))
    case WEnqueue(todo) => s.(waiting := true, writer := WRecheck(todo))
    case WRecheck(todo) => s.(writer := WRecheckTail(todo, s.tail))
    case WRecheckTail(todo, before) =>
      var w := SpaceOr(s, todo, before, WAsleep(todo));
      s.(writer := w, waiting := s.waiting && w.WAsleep?)
    case WAsleep(todo) => s.(writer := WEnqueue(todo))
    case WCopy(todo, space) =>
      var k := Min(space, |todo|);
      s.(buf := Overwrite(s.buf, s.head, todo[..k]), writer := WCopied(todo, k))
    case WCopied(todo, k) =>
      s.(head := Incr(s.head, k), accepted := s.accepted + todo[..k], writer := WStart(todo[k..]))
    case WStart(todo) => s.(lock := ByWriter, writer := WLocked(todo))
    case WLocked(todo) =>
      var t := if s.active then s else s.(active := true, armed := true, pending := true);
      t.(lock := Free, writer := WLoop(todo))
  }

  /** shortp_do_work(), one step; KCheck covers shortp_do_write(). */
  function WorkerStep(s: State): State
    requires InRange(s) && WorkerCanGo(s)
  {
    match s.worker
    case KIdle => s.(pending := false, worker := KWait)
    case KWait => s.(lock := ByWorker, worker := KCheck)
    case KCheck =>
      if s.head == s.tail then s.(worker := KEmpty)
      else s.(armed := true, strobed := s.strobed + [s.buf[s.tail]], tail := Incr(s.tail, 1), worker := KWake)
    case KEmpty => s.(active := false, armed := false, worker := KWake)
    case KWake =>
      s.(waiting := s.waiting && !EnoughRoom(s.head, s.tail), lock := Free, worker := KIdle)
  }

  /** shortp_interrupt() */
  function Interrupt(s: State): State {
    if s.active then s.(pending := true) else s
  }

  /** shortp_timeout(), one step. */
  function TimerStep(s: State, busy: bool): State {
    match s.timer
    case TIdle => s
    case TFired => s.(timer := if s.active then TLock else TIdle)
    case TLock => s.(lock := ByTimer, timer := TLocked)
    case TLocked =>
      if busy then s.(armed := true, lock := Free, timer := TIdle)
      else s.(lock := Free, timer := TIrq)
    case TIrq => Interrupt(s).(timer := TIdle)
  }

  function Step(s: State, e: Event): State
    requires InRange(s) && Enabled(s, e)
  {
    match e
    case Write(data) => s.(writer := WLoop(data))
    case WriterGo => WriterStep(s)
    case Signal => s.(waiting := false, writer := WIdle)
    case WorkerGo => WorkerStep(s)
    case Irq => Interrupt(s)
    case TimerFires => s.(armed := false, timer := TFired)
    case TimerGo(busy) => TimerStep(s, busy)
  }

  ghost predicate Run(s: State, es: seq<Event>, s': State)
    decreases |es|
  {
    if es == [] then s' == s
    else InRange(s) && Enabled(s, es[0]) && Run(Step(s, es[0]), es[1..], s')
  }

  ghost predicate Reachable(s: State) {
    exists es :: Run(Init(), es, s)
  }

  // ---------- the invariant ----------

  predicate Locking(s: State) {
    && (s.lock == ByWriter <==> s.writer.WLocked?)
    && (s.lock == ByWorker <==> s.worker == KCheck || s.worker == KEmpty || s.worker == KWake)
    && (s.lock == ByTimer <==> s.timer == TLocked)
  }

  /** The tail has moved at most towards the head since it was read. */
  predicate StillAhead(s: State, before: nat)
    requires InRange(s)
  {
    before < PAGE_SIZE && Queued(s.head, s.tail) <= Queued(s.head, before)
  }

  /** What the writer has read, computed or copied is still good. */
  predicate WriterKnows(s: State)
    requires InRange(s)
  {
    match s.writer
    case WCopy(todo, space) => space <= SpaceRun(PAGE_SIZE, s.tail, s.head)
    case WCopied(todo, k) =>
      && k <= |todo| && k <= SpaceRun(PAGE_SIZE, s.tail, s.head)
      && s.buf[s.head..s.head + k] == todo[..k]
    case WLoopTail(_, before) => StillAhead(s, before)
    case WCondTail(_, before) => StillAhead(s, before)
    case WRecheckTail(_, before) => StillAhead(s, before)
    case _ => true
  }

  predicate Fifo(s: State)
    requires InRange(s)
  {
    s.accepted == s.strobed + Contents(s.buf, s.tail, s.head)
  }

  /** The writer has moved head and has yet to look at shortp_output_active. */
  predicate StartDue(s: State) {
    s.writer.WStart? || s.writer.WLocked?
  }

  predicate DrainAhead(s: State) {
    s.pending || s.worker == KWait || s.worker == KCheck || s.worker == KEmpty || s.armed || s.timer != TIdle
  }

  predicate Draining(s: State)
    requires InRange(s)
  {
    && (!s.active ==> s.head == s.tail || StartDue(s))
    && (s.worker == KEmpty ==> s.head == s.tail || s.writer.WStart?)
    && (s.active ==> DrainAhead(s))
  }

  predicate Sleeping(s: State) {
    s.writer.WAsleep? && s.waiting
  }

  predicate HalfFull(s: State)
    requires InRange(s)
  {
    Queued(s.head, s.tail) >= PAGE_SIZE - SP_MIN_SPACE
  }

  predicate Waking(s: State)
    requires InRange(s)
  {
    && (s.waiting ==> s.writer.WRecheck? || s.writer.WRecheckTail? || s.writer.WAsleep?)
    && (s.waiting && s.writer.WRecheckTail? ==>
          s.tail == s.writer.before || s.head == s.tail || s.worker == KWake || HalfFull(s))
    && (Sleeping(s) ==> HalfFull(s) || (s.worker == KWake && s.head != s.tail))
  }

  /** The writer, on the queue, compares a tail behind the end of the page; then the
      last byte queued goes out, which wakes nobody; then it reads the tail again. */
  predicate MissesTheEnd(s: State, e: Event) {
    e.WriterGo? && s.waiting && s.writer.WRecheckTail? && s.writer.before > s.head == s.tail
  }

  predicate Inv(s: State) {
    RingInv(s) && ControlInv(s)
  }

  // ---------- every step keeps it ----------

  predicate RingInv(s: State) {
    InRange(s) && WriterKnows(s) && Fifo(s)
  }

  predicate ControlInv(s: State) {
    InRange(s) && Locking(s) && Draining(s)
  }

  lemma CopyKeepsRing(s: State)
    requires RingInv(s) && WriterCanGo(s) && s.writer.WCopy?
    ensures RingInv(WriterStep(s))
  {
    var data := s.writer.todo[..Min(s.writer.space, |s.writer.todo|)];
    FreeSlotsInvisible(s.buf, s.tail, s.head, data);
    assert Overwrite(s.buf, s.head, data)[s.head..s.head + |data|] == data;
  }

  lemma MovingHeadKeepsRing(s: State)
    requires RingInv(s) && WriterCanGo(s) && s.writer.WCopied?
    ensures RingInv(WriterStep(s))
  {
    ProducedInPlace(s.buf, s.tail, s.head, s.writer.todo[..s.writer.k], s.strobed, s.accepted);
  }

  lemma StrobeKeepsRing(s: State)
    requires RingInv(s) && s.worker == KCheck && s.head != s.tail
    ensures RingInv(WorkerStep(s))
  {
    ConsumedOne(s.buf, s.tail, s.head, s.strobed, s.accepted);
    StaleTailIsSafe(s.head, s.tail, SpaceRun(PAGE_SIZE, s.tail, s.head));
  }

  predicate MovesRing(s: State, e: Event) {
    || (e.WriterGo? && (s.writer.WCopy? || s.writer.WCopied?))
    || (e.WorkerGo? && s.worker == KCheck && s.head != s.tail)
  }

  predicate SameRing(s: State, s': State) {
    && s'.buf == s.buf && s'.head == s.head && s'.tail == s.tail
    && s'.accepted == s.accepted && s'.strobed == s.strobed
  }

  /** The writer's other steps leave the ring alone... */
  lemma OtherWriterStepsLeaveTheRing(s: State)
    requires InRange(s) && WriterCanGo(s) && !s.writer.WCopy? && !s.writer.WCopied?
    ensures SameRing(s, WriterStep(s)) && !WriterStep(s).writer.WCopied?
  {
  }

  /** ...and know what they have read; the space that is found is free. */
  lemma OtherWriterStepsKnow(s: State)
    requires InRange(s) && WriterKnows(s) && WriterCanGo(s) && !s.writer.WCopy? && !s.writer.WCopied?
    ensures var w := WriterStep(s).writer;
      && (w.WCopy? ==> w.space == OutSpace(s.head, s.tail))
      && (w.WLoopTail? || w.WCondTail? || w.WRecheckTail? ==> w.before == s.tail)
  {
    if s.writer.WLoopTail? || s.writer.WCondTail? || s.writer.WRecheckTail? {
      TornTail(s.head, s.writer.before, s.tail);
    }
  }

  lemma OtherStepsLeaveTheRing(s: State, e: Event)
    requires InRange(s) && Enabled(s, e) && !MovesRing(s, e) && !e.WriterGo?
    ensures var s' := Step(s, e);
      SameRing(s, s') && (s'.writer == s.writer || s'.writer.WLoop? || s'.writer.WIdle?)
  {
    if e.TimerGo? {
      TimerLeavesRing(s, e.busy);
    }
  }

  lemma TimerLeavesRing(s: State, busy: bool)
    ensures SameRing(s, TimerStep(s, busy)) && TimerStep(s, busy).writer == s.writer
  {
  }

  lemma StepKeepsRing(s: State, e: Event)
    requires RingInv(s) && Enabled(s, e)
    ensures RingInv(Step(s, e))
  {
    if e.WriterGo? && s.writer.WCopy? {
      CopyKeepsRing(s);
    } else if e.WriterGo? && s.writer.WCopied? {
      MovingHeadKeepsRing(s);
    } else if e.WorkerGo? && s.worker == KCheck && s.head != s.tail {
      StrobeKeepsRing(s);
    } else {
      if e.WriterGo? {
        OtherWriterStepsLeaveTheRing(s);
        OtherWriterStepsKnow(s);
      } else {
        OtherStepsLeaveTheRing(s, e);
      }
      OutSpaceIsFreeRun(s.head, s.tail);
      assert WriterKnows(Step(s, e));
    }
  }

  /** A step in which the writer reads, queues or unqueues. */
  predicate Looks(w: Writer) {
    || w.WLoop? || w.WLoopTail? || w.WCond? || w.WCondTail?
    || w.WEnqueue? || w.WRecheck? || w.WRecheckTail? || w.WAsleep?
  }

  predicate SameControl(s: State, t: State) {
    && t.head == s.head && t.tail == s.tail && t.active == s.active && t.lock == s.lock
    && t.pending == s.pending && t.armed == s.armed && t.worker == s.worker && t.timer == s.timer
  }

  lemma LookingOnly(s: State)
    requires InRange(s) && WriterCanGo(s) && Looks(s.writer)
    ensures SameControl(s, WriterStep(s)) && !StartDue(WriterStep(s))
  {
  }

  lemma LookKeepsControl(s: State)
    requires ControlInv(s) && WriterCanGo(s) && Looks(s.writer)
    ensures InRange(WriterStep(s)) ==> ControlInv(WriterStep(s))
  {
    LookingOnly(s);
  }

  lemma MoveKeepsControl(s: State)
    requires ControlInv(s) && WriterCanGo(s) && !Looks(s.writer)
    ensures InRange(WriterStep(s)) ==> ControlInv(WriterStep(s))
  {
  }

  lemma WriterStepKeepsControl(s: State)
    requires ControlInv(s) && WriterCanGo(s)
    ensures InRange(WriterStep(s)) ==> ControlInv(WriterStep(s))
  {
    if Looks(s.writer) {
      LookKeepsControl(s);
    } else {
      MoveKeepsControl(s);
    }
  }

  lemma WorkerStepKeepsControl(s: State)
    requires ControlInv(s) && WorkerCanGo(s)
    ensures InRange(WorkerStep(s)) ==> ControlInv(WorkerStep(s))
  {
  }

  lemma TimerStepKeepsLocking(s: State, busy: bool)
    requires InRange(s) && Locking(s) && Enabled(s, TimerGo(busy))
    ensures Locking(TimerStep(s, busy))
  {
  }

  lemma TimerStepKeepsDraining(s: State, busy: bool)
    requires InRange(s) && Draining(s) && Enabled(s, TimerGo(busy))
    ensures InRange(TimerStep(s, busy)) && Draining(TimerStep(s, busy))
  {
  }

  lemma TimerStepKeepsControl(s: State, busy: bool)
    requires ControlInv(s) && Enabled(s, TimerGo(busy))
    ensures ControlInv(TimerStep(s, busy))
  {
    TimerStepKeepsLocking(s, busy);
    TimerStepKeepsDraining(s, busy);
  }

  predicate FromOutside(e: Event) {
    e.Write? || e == Signal || e == Irq || e == TimerFires
  }

  lemma OutsideKeepsControl(s: State, e: Event)
    requires ControlInv(s) && Enabled(s, e) && FromOutside(e)
    ensures ControlInv(Step(s, e))
  {
  }

  lemma StepKeepsControl(s: State, e: Event)
    requires ControlInv(s) && Enabled(s, e)
    ensures InRange(Step(s, e)) ==> ControlInv(Step(s, e))
  {
    match e
    case WriterGo => WriterStepKeepsControl(s);
    case WorkerGo => WorkerStepKeepsControl(s);
    case TimerGo(busy) => TimerStepKeepsControl(s, busy);
    case _ => OutsideKeepsControl(s, e);
  }

  lemma StepKeepsInv(s: State, e: Event)
    requires Inv(s) && Enabled(s, e)
    ensures Inv(Step(s, e))
  {
    StepKeepsRing(s, e);
    StepKeepsControl(s, e);
  }

  lemma {:induction false} RunKeepsInv(s: State, es: seq<Event>, s': State)
    requires Inv(s) && Run(s, es, s')
    ensures Inv(s')
    decreases |es|
  {
    if es != [] {
      StepKeepsInv(s, es[0]);
      RunKeepsInv(Step(s, es[0]), es[1..], s');
    }
  }

  lemma ReachableInv(s: State)
    requires Reachable(s)
    ensures Inv(s)
  {
    var es :| Run(Init(), es, s);
    RunKeepsInv(Init(), es, s);
  }

  predicate LooksGood(s: State) {
    ControlInv(s) && WriterKnows(s) && Waking(s)
  }

  lemma RecheckKeepsWaking(s: State)
    requires LooksGood(s) && WriterCanGo(s) && s.writer.WRecheckTail?
    ensures Waking(WriterStep(s)) <==> !MissesTheEnd(s, WriterGo)
  {
    TornTail(s.head, s.writer.before, s.tail);
    OutSpaceIsFreeRun(s.head, s.tail);
  }

  lemma LookKeepsWaking(s: State)
    requires LooksGood(s) && WriterCanGo(s) && Looks(s.writer) && !s.writer.WRecheckTail?
    ensures InRange(WriterStep(s)) && Waking(WriterStep(s))
  {
  }

  lemma MoveKeepsWaking(s: State)
    requires LooksGood(s) && WriterCanGo(s) && !Looks(s.writer)
    ensures InRange(WriterStep(s)) ==> Waking(WriterStep(s))
  {
  }

  lemma WorkerStepKeepsWaking(s: State)
    requires LooksGood(s) && WorkerCanGo(s)
    ensures InRange(WorkerStep(s)) && Waking(WorkerStep(s))
  {
    WakeThreshold(s.head, s.tail);
  }

  lemma TimerStepKeepsWaking(s: State, busy: bool)
    requires LooksGood(s) && Enabled(s, TimerGo(busy))
    ensures InRange(TimerStep(s, busy)) && Waking(TimerStep(s, busy))
  {
  }

  lemma OutsideKeepsWaking(s: State, e: Event)
    requires LooksGood(s) && Enabled(s, e) && FromOutside(e)
    ensures Waking(Step(s, e))
  {
  }

  /** A step from a good state leaves the writer asleep without a prospect if and
      only if the writer misses the end. */
  lemma StepKeepsWaking(s: State, e: Event)
    requires Inv(s) && Waking(s) && Enabled(s, e)
    ensures Inv(Step(s, e)) && (Waking(Step(s, e)) <==> !MissesTheEnd(s, e))
  {
    StepKeepsInv(s, e);
    match e
    case WriterGo =>
      if s.writer.WRecheckTail? {
        RecheckKeepsWaking(s);
      } else if Looks(s.writer) {
        LookKeepsWaking(s);
      } else {
        MoveKeepsWaking(s);
      }
    case WorkerGo => WorkerStepKeepsWaking(s);
    case TimerGo(busy) => TimerStepKeepsWaking(s, busy);
    case _ => OutsideKeepsWaking(s, e);
  }

  /** A run in which the writer never misses the end. */
  ghost predicate SteadyRun(s: State, es: seq<Event>, s': State)
    decreases |es|
  {
    if es == [] then s' == s
    else
      && InRange(s) && Enabled(s, es[0]) && !MissesTheEnd(s, es[0])
      && SteadyRun(Step(s, es[0]), es[1..], s')
  }

  lemma {:induction false} SteadyRunKeepsWaking(s: State, es: seq<Event>, s': State)
    requires Inv(s) && Waking(s) && SteadyRun(s, es, s')
    ensures Inv(s') && Waking(s')
    decreases |es|
  {
    if es != [] {
      StepKeepsWaking(s, es[0]);
      SteadyRunKeepsWaking(Step(s, es[0]), es[1..], s');
    }
  }

  predicate BetweenReads(w: Writer) {
    w.WLoopTail? || w.WCondTail? || w.WRecheckTail?
  }

  /** A run in which nothing comes between the two reads of the tail, as if
      shortp_out_space() made do with one load. */
  ghost predicate OneLoadRun(s: State, es: seq<Event>, s': State)
    decreases |es|
  {
    if es == [] then s' == s
    else
      && InRange(s) && Enabled(s, es[0]) && (BetweenReads(s.writer) ==> es[0] == WriterGo)
      && OneLoadRun(Step(s, es[0]), es[1..], s')
  }

  /** The tail is still the one that was read. */
  predicate TailAsRead(s: State) {
    BetweenReads(s.writer) ==> s.writer.before == s.tail
  }

  lemma WriterReadsTail(s: State)
    requires InRange(s) && WriterCanGo(s)
    ensures WriterStep(s).tail == s.tail && TailAsRead(WriterStep(s))
  {
  }

  lemma OthersLeaveWriter(s: State, e: Event)
    requires InRange(s) && Enabled(s, e) && e != WriterGo
    ensures Step(s, e).writer == s.writer || !BetweenReads(Step(s, e).writer)
  {
  }

  lemma OneLoadStep(s: State, e: Event)
    requires InRange(s) && TailAsRead(s) && Enabled(s, e) && (BetweenReads(s.writer) ==> e == WriterGo)
    ensures !MissesTheEnd(s, e) && TailAsRead(Step(s, e))
  {
    if e == WriterGo {
      WriterReadsTail(s);
    } else {
      OthersLeaveWriter(s, e);
    }
  }

  /** With one load the end is never missed. */
  lemma {:induction false} OneLoadIsSteady(s: State, es: seq<Event>, s': State)
    requires TailAsRead(s) && OneLoadRun(s, es, s')
    ensures SteadyRun(s, es, s')
    decreases |es|
  {
    if es != [] {
      OneLoadStep(s, es[0]);
      OneLoadIsSteady(Step(s, es[0]), es[1..], s');
    }
  }

  /** A writer over an empty ring, asleep and not woken. */
  predicate Stalled(s: State) {
    Sleeping(s) && s.head == s.tail
  }

  lemma EmptyRingWakesNobody(s: State, e: Event)
    requires InRange(s) && Stalled(s) && Enabled(s, e) && e != Signal
    ensures var s' := Step(s, e); InRange(s') && Stalled(s') && s'.accepted == s.accepted
  {
    WakeThreshold(s.head, s.tail);
  }

  /** In every run the writer has a prospect of being woken, or has missed the end. */
  lemma StepKeepsProspect(s: State, e: Event)
    requires Inv(s) && (Waking(s) || Stalled(s)) && Enabled(s, e)
    ensures Inv(Step(s, e)) && (Waking(Step(s, e)) || Stalled(Step(s, e)))
  {
    StepKeepsInv(s, e);
    if Waking(s) {
      StepKeepsWaking(s, e);
      if MissesTheEnd(s, e) {
        TornTail(s.head, s.writer.before, s.tail);
      }
    } else if e != Signal {
      EmptyRingWakesNobody(s, e);
    }
  }

  lemma {:induction false} RunKeepsProspect(s: State, es: seq<Event>, s': State)
    requires Inv(s) && (Waking(s) || Stalled(s)) && Run(s, es, s')
    ensures Inv(s') && (Waking(s') || Stalled(s'))
    decreases |es|
  {
    if es != [] {
      StepKeepsProspect(s, es[0]);
      RunKeepsProspect(Step(s, es[0]), es[1..], s');
    }
  }

  // ---------- what holds over every run ----------

  /** The bytes strobed out are a prefix of the bytes accepted; the rest is in
      the ring, and a copy about to be made from a possibly stale space fits. */
  lemma PrinterFifo(s: State)
    requires Reachable(s)
    ensures InRange(s)
    ensures s.accepted == s.strobed + Contents(s.buf, s.tail, s.head) && s.strobed <= s.accepted
    ensures s.writer.WCopy? ==> s.writer.space <= SpaceRun(PAGE_SIZE, s.tail, s.head)
  {
    ReachableInv(s);
  }

  /** The drain cannot stall.  Bytes are queued with output inactive only while the
      writer is between moving the head and its locked start; active output has
      the work queued or running, or the timer armed or firing. */
  lemma DrainCannotStall(s: State)
    requires Reachable(s)
    ensures InRange(s)
    ensures s.head != s.tail && !s.active ==> StartDue(s)
    ensures s.active ==> DrainAhead(s)
  {
    ReachableInv(s);
  }

  /** In every interleaving a writer asleep and not woken faces a ring at least half
      full, or a work item that is just about to wake it, exactly if the ring is not
      empty; and then output is active. */
  lemma SleeperIsOwedAWake(s: State)
    requires Reachable(s) && Sleeping(s)
    ensures InRange(s)
    ensures (Queued(s.head, s.tail) >= PAGE_SIZE / 2 || (s.worker == KWake && EnoughRoom(s.head, s.tail))) <==>
      s.head != s.tail
    ensures s.head != s.tail ==> s.active && DrainAhead(s)
  {
    var es :| Run(Init(), es, s);
    RunKeepsProspect(Init(), es, s);
    WakeThreshold(s.head, s.tail);
  }

  /** If the end has never been missed, the ring is not empty. */
  lemma SteadySleeperHasData(es: seq<Event>, s: State)
    requires SteadyRun(Init(), es, s) && Sleeping(s)
    ensures InRange(s) && s.head != s.tail
    ensures Queued(s.head, s.tail) >= PAGE_SIZE / 2 || (s.worker == KWake && EnoughRoom(s.head, s.tail))
  {
    SteadyRunKeepsWaking(Init(), es, s);
    WakeThreshold(s.head, s.tail);
  }

  /** So it never is when shortp_out_space() makes do with one load of the tail. */
  lemma OneLoadLosesNoWake(es: seq<Event>, s: State)
    requires OneLoadRun(Init(), es, s) && Sleeping(s)
    ensures InRange(s) && s.head != s.tail
    ensures Queued(s.head, s.tail) >= PAGE_SIZE / 2 || (s.worker == KWake && EnoughRoom(s.head, s.tail))
  {
    OneLoadIsSteady(Init(), es, s);
    SteadySleeperHasData(es, s);
  }

  // ---------- a waking step always lies ahead ----------

  /** The next thing the work queue or the timer does, with every interrupt lost. */
  function Helper(s: State): Event {
    if s.worker == KIdle && !s.pending then
      if s.timer == TIdle then TimerFires else TimerGo(false)
    else if s.worker == KWait && s.lock == ByTimer then TimerGo(true)
    else WorkerGo
  }

  /** Bytes to drain first, then how far the next strobe is. */
  function Distance(s: State): nat
    requires InRange(s)
  {
    100 * Queued(s.head, s.tail) +
    match s.worker
    case KCheck => 1
    case KEmpty => 1
    case KWait => if s.lock == ByTimer then 3 else 2
    case KWake => 10
    case KIdle =>
      if s.pending then 4 else
      match s.timer
      case TIrq => 5
      case TLocked => 6
      case TLock => 7
      case TFired => 8
      case TIdle => 9
  }

  lemma WorkerAdvances(s: State)
    requires LooksGood(s) && Sleeping(s) && Helper(s) == WorkerGo
    ensures WorkerCanGo(s) && WorkerStep(s).writer == s.writer && InRange(WorkerStep(s))
    ensures WorkerStep(s).waiting ==> Distance(WorkerStep(s)) < Distance(s)
  {
    WakeThreshold(s.head, s.tail);
  }

  lemma TimerAdvances(s: State)
    requires LooksGood(s) && Sleeping(s) && Helper(s) != WorkerGo
    ensures Enabled(s, Helper(s))
    ensures Step(s, Helper(s)).writer == s.writer && InRange(Step(s, Helper(s)))
    ensures Distance(Step(s, Helper(s))) < Distance(s)
  {
    assert s.active && s.head != s.tail;
  }

  lemma HelperAdvances(s: State)
    requires LooksGood(s) && Sleeping(s)
    ensures Enabled(s, Helper(s))
    ensures Step(s, Helper(s)).writer == s.writer && InRange(Step(s, Helper(s)))
    ensures Step(s, Helper(s)).waiting ==> Distance(Step(s, Helper(s))) < Distance(s)
  {
    if Helper(s) == WorkerGo {
      WorkerAdvances(s);
    } else {
      TimerAdvances(s);
    }
  }

  /** Such a writer can still be woken by the work queue and the timer alone: no
      interrupt and no step of the writer is needed. */
  lemma {:induction false} WakeIsReachable(s: State) returns (es: seq<Event>, s': State)
    requires Inv(s) && Waking(s) && Sleeping(s)
    ensures Run(s, es, s') && s'.writer == s.writer && !s'.waiting
    ensures forall e <- es :: e.WorkerGo? || e.TimerFires? || e.TimerGo?
    decreases Distance(s)
  {
    HelperAdvances(s);
    StepKeepsWaking(s, Helper(s));
    var next := Step(s, Helper(s));
    var rest := [];
    s' := next;
    if next.waiting {
      rest, s' := WakeIsReachable(next);
    }
    es := [Helper(s)] + rest;
    assert es[1..] == rest;
  }

  // ---------- missing the end ----------

  /** A writer asleep over an empty ring stays asleep whatever the printer, the work
      queue and the timer do: only a signal ends its wait. */
  lemma {:induction false} OnlyASignalHelps(s: State, es: seq<Event>, s': State)
    requires InRange(s) && Stalled(s) && Run(s, es, s') && Signal !in es
    ensures Stalled(s') && s'.accepted == s.accepted
    decreases |es|
  {
    if es != [] {
      EmptyRingWakesNobody(s, es[0]);
      OnlyASignalHelps(Step(s, es[0]), es[1..], s');
    }
  }

  /** Some run without a signal takes the writer off the queue. */
  ghost predicate CanBeWoken(s: State) {
    exists es: seq<Event>, s' :: Run(s, es, s') && Signal !in es && !Sleeping(s')
  }

  /** And some run of the work queue and the timer alone. */
  ghost predicate WillBeWoken(s: State) {
    exists es: seq<Event>, s' ::
      && Run(s, es, s') && s'.writer == s.writer && !s'.waiting
      && forall e <- es :: e.WorkerGo? || e.TimerFires? || e.TimerGo?
  }

  /** In every reachable state, a writer asleep and not woken can be woken, be it by
      interrupts or by the timer alone, exactly if the ring is not empty. */
  lemma EveryWriterCanBeWoken(s: State)
    requires Reachable(s) && Sleeping(s)
    ensures s.head != s.tail <==> CanBeWoken(s)
    ensures s.head != s.tail <==> WillBeWoken(s)
  {
    var es :| Run(Init(), es, s);
    RunKeepsProspect(Init(), es, s);
    if s.head != s.tail {
      var es', s' := WakeIsReachable(s);
      assert Signal !in es';
    } else if CanBeWoken(s) {
      var es', s' :| Run(s, es', s') && Signal !in es' && !Sleeping(s');
      OnlyASignalHelps(s, es', s');
    }
    WokenByHelpersIsWoken(s);
  }

  lemma WokenByHelpersIsWoken(s: State)
    ensures WillBeWoken(s) ==> CanBeWoken(s)
  {
    if WillBeWoken(s) {
      var es: seq<Event>, s' :| Run(s, es, s') && s'.writer == s.writer && !s'.waiting
        && forall e <- es :: e.WorkerGo? || e.TimerFires? || e.TimerGo?;
      assert Signal !in es;
    }
  }

  lemma {:induction false} RunSnoc(s: State, es: seq<Event>, t: State, e: Event)
    requires Run(s, es, t) && InRange(t) && Enabled(t, e)
    ensures Run(s, es + [e], Step(t, e))
    decreases |es|
  {
    if es == [] {
      assert [e][1..] == [];
    } else {
      RunSnoc(Step(s, es[0]), es[1..], t, e);
      assert (es + [e])[1..] == es[1..] + [e];
    }
  }

  lemma Play(s: State, e: Event) returns (s': State)
    requires Reachable(s) && InRange(s) && Enabled(s, e)
    ensures s' == Step(s, e) && Reachable(s')
  {
    s' := Step(s, e);
    var es :| Run(Init(), es, s);
    RunSnoc(Init(), es, s, e);
    assert Run(Init(), es + [e], s');
  }

  lemma InitReachable()
    ensures Reachable(Init())
  {
    assert Run(Init(), [], Init());
  }

  /** Output is active, and nobody but perhaps the writer is in the middle of something. */
  predicate Resting(s: State) {
    InRange(s) && s.active && s.worker == KIdle && s.lock == Free
  }

  /** An interrupt and one run of the work item: one byte. */
  lemma StrobeOne(s: State) returns (s': State)
    requires Reachable(s) && Resting(s) && s.head != s.tail
    ensures Reachable(s') && Resting(s')
    ensures s'.head == s.head && s'.tail == Incr(s.tail, 1) && s'.writer == s.writer
    ensures s'.waiting == (s.waiting && !EnoughRoom(s'.head, s'.tail))
  {
    s' := Play(s, Irq);
    s' := Play(s', WorkerGo);
    s' := Play(s', WorkerGo);
    s' := Play(s', WorkerGo);
    s' := Play(s', WorkerGo);
  }

  /** And k of them, short of the end of the page. */
  lemma {:induction false} StrobeMany(s: State, k: nat) returns (s': State)
    requires Reachable(s) && Resting(s) && !s.waiting && s.head < s.tail && s.tail + k < PAGE_SIZE
    ensures Reachable(s') && Resting(s') && !s'.waiting
    ensures s'.head == s.head && s'.tail == s.tail + k && s'.writer == s.writer
    decreases k
  {
    s' := s;
    if k != 0 {
      s' := StrobeOne(s);
      s' := StrobeMany(s', k - 1);
    }
  }

  /** The writer finds space and copies... */
  lemma FindsSpace(s: State) returns (s': State)
    requires Reachable(s) && InRange(s) && s.writer.WLoop? && s.writer.todo != [] && 0 < OutSpace(s.head, s.tail)
    ensures Reachable(s')
    ensures s' == s.(buf := s'.buf, writer := WCopied(s.writer.todo, Min(OutSpace(s.head, s.tail), |s.writer.todo|)))
    ensures InRange(s')
  {
    s' := Play(s, WriterGo);
    s' := Play(s', WriterGo);
    OutSpaceIsFreeRun(s.head, s.tail);
    s' := Play(s', WriterGo);
  }

  /** ...moves the head and starts output. */
  lemma MovesHead(s: State) returns (s': State)
    requires Reachable(s) && InRange(s) && s.lock == Free
    requires s.writer.WCopied? && 0 < s.writer.k <= |s.writer.todo|
    requires s.writer.k <= OutSpace(s.head, s.tail)
    ensures Reachable(s') && InRange(s') && s'.active && s'.lock == Free
    ensures s'.head == Incr(s.head, s.writer.k) && s'.tail == s.tail && s'.writer == WLoop(s.writer.todo[s.writer.k..])
    ensures s'.worker == s.worker && s'.waiting == s.waiting
  {
    s' := Play(s, WriterGo);
    s' := Play(s', WriterGo);
    s' := Play(s', WriterGo);
  }

  /** A round of the write loop that finds space. */
  lemma WriteSome(s: State) returns (s': State)
    requires Reachable(s) && InRange(s) && s.worker == KIdle && s.lock == Free && !s.waiting
    requires s.writer.WLoop? && s.writer.todo != [] && 0 < OutSpace(s.head, s.tail)
    ensures var k := Min(OutSpace(s.head, s.tail), |s.writer.todo|);
      && Reachable(s') && Resting(s') && !s'.waiting
      && s'.head == Incr(s.head, k) && s'.tail == s.tail && s'.writer == WLoop(s.writer.todo[k..])
  {
    s' := FindsSpace(s);
    s' := MovesHead(s');
  }

  /** A full ring, wrapped, and a writer with one more byte about to join the queue. */
  lemma FullAndWaiting() returns (s: State)
    ensures Reachable(s) && Resting(s) && !s.waiting && s.head == 0 && s.tail == 1 && s.writer.WEnqueue?
  {
    InitReachable();
    s := Play(Init(), Write(seq(PAGE_SIZE + 1, _ => 0)));
    s := WriteSome(s);
    s := StrobeOne(s);
    s := WriteSome(s);
    s := Play(s, WriterGo);
    s := Play(s, WriterGo);
    s := Play(s, WriterGo);
    s := Play(s, WriterGo);
  }

  /** It happens: the ring drains to its last byte, at the end of the page, while the
      writer joins the queue; the byte goes out between its two reads of the tail;
      and it goes to sleep over an empty ring. */
  lemma MissedEndStalls() returns (s: State)
    ensures Reachable(s) && Stalled(s)
  {
    s := FullAndWaiting();
    s := StrobeMany(s, PAGE_SIZE - 2);
    s := Play(s, WriterGo);
    s := Play(s, WriterGo);
    s := StrobeOne(s);
    s := Play(s, WriterGo);
  }
}
