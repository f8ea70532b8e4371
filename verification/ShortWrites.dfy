/** What one call of shortp_write() hands over among all the steps of the drain, and when
    it can come to an end. */
module ShortWrites {
  import opened Ring
  import opened ShortPrint

  /** The part of the request that has not been accepted yet. */
  function Todo(w: Writer): seq<byte> {
    if w == WIdle then [] else w.todo
  }

  /** A piece of a run within one call: the writer is not idle before its end. */
  ghost predicate During(s: State, es: seq<Event>, s': State)
    decreases |es|
  {
    if es == [] then s' == s
    else s.writer != WIdle && InRange(s) && Enabled(s, es[0]) && During(Step(s, es[0]), es[1..], s')
  }

  // ---------- no byte of the request is lost ----------

  /** What a step of the writer takes off the request has been accepted. */
  lemma WriterKeepsRequest(s: State)
    requires InRange(s) && WriterCanGo(s) && s.writer != WIdle
    ensures s.accepted <= WriterStep(s).accepted
    ensures WriterStep(s).accepted + Todo(WriterStep(s).writer) == s.accepted + Todo(s.writer)
  {
    if s.writer.WCopied? {
      Regroup(s.accepted, s.writer.todo[..s.writer.k], s.writer.todo[s.writer.k..]);
    }
  }

  lemma OthersKeepRequest(s: State, e: Event)
    requires InRange(s) && Enabled(s, e) && s.writer != WIdle && e != WriterGo
    ensures Step(s, e).accepted == s.accepted
    ensures Step(s, e).writer == if e == Signal then WIdle else s.writer
  {
    if e.TimerGo? {
      TimerLeavesRing(s, e.busy);
    }
  }

  lemma StepKeepsRequest(s: State, e: Event)
    requires InRange(s) && Enabled(s, e) && s.writer != WIdle
    ensures s.accepted <= Step(s, e).accepted
    ensures e != Signal ==> Step(s, e).accepted + Todo(Step(s, e).writer) == s.accepted + Todo(s.writer)
  {
    if e == WriterGo {
      WriterKeepsRequest(s);
    } else {
      OthersKeepRequest(s, e);
    }
  }

  lemma {:induction false} CallKeepsRequest(s: State, es: seq<Event>, s': State)
    requires During(s, es, s')
    ensures s.accepted <= s'.accepted <= s.accepted + Todo(s.writer)
    ensures Signal !in es ==> s'.accepted + Todo(s'.writer) == s.accepted + Todo(s.writer)
    decreases |es|
  {
    if es != [] {
      var e, s1 := es[0], Step(s, es[0]);
      StepKeepsRequest(s, e);
      CallKeepsRequest(s1, es[1..], s');
      if e == Signal {
        assert es[1..] == [];
      }
    }
  }

  /** Whatever comes in between: at every point of a write a first part of its request has
      been accepted, and what the writer is still to do is exactly the rest.  If the call
      ends without a signal, all of it has been accepted. */
  lemma WriteAcceptsItsRequest(s: State, data: seq<byte>, es: seq<Event>, s': State)
    requires InRange(s) && s.writer == WIdle
    requires During(Step(s, Write(data)), es, s') && Signal !in es
    ensures exists k: nat :: k <= |data| && s'.accepted == s.accepted + data[..k] && Todo(s'.writer) == data[k..]
    ensures s'.writer == WIdle ==> s'.accepted == s.accepted + data
  {
    CallKeepsRequest(Step(s, Write(data)), es, s');
    var k := SplitRequest(s.accepted, data, s'.accepted, Todo(s'.writer));
  }

  /** A signal cuts the request short, and adds nothing else. */
  lemma SignalCutsRequest(s: State, data: seq<byte>, es: seq<Event>, s': State)
    requires InRange(s) && s.writer == WIdle && During(Step(s, Write(data)), es, s')
    ensures exists k: nat :: k <= |data| && s'.accepted == s.accepted + data[..k]
  {
    CallKeepsRequest(Step(s, Write(data)), es, s');
    var k := |s'.accepted| - |s.accepted|;
    assert s'.accepted == s.accepted + data[..k];
  }

  lemma SplitRequest(before: seq<byte>, data: seq<byte>, after: seq<byte>, rest: seq<byte>) returns (k: nat)
    requires before <= after && after + rest == before + data
    ensures k <= |data| && after == before + data[..k] && rest == data[k..]
    ensures rest == [] ==> after == before + data
  {
    k := |after| - |before|;
    assert after == (before + data)[..|before| + k];
    assert rest == (before + data)[|before| + k..];
  }

  // ---------- a write can come to its end ----------

  /** A writer goes on only while there is something to do, and copies something. */
  predicate Working(w: Writer) {
    match w
    case WCopy(todo, space) => todo != [] && 0 < space
    case WCopied(todo, k) => 0 < k <= |todo|
    case WIdle => true
    case WLoop(_) => true
    case WStart(_) => true
    case WLocked(_) => true
    case _ => Todo(w) != []
  }

  /** The writer has missed the end, or is about to. */
  predicate Doomed(s: State) {
    Stalled(s) || MissesTheEnd(s, WriterGo)
  }

  /** Someone who lets the writer go on: the holder of the lock it wants, the drain while
      it sleeps, itself otherwise. */
  function Next(s: State): Event {
    if Sleeping(s) then Helper(s)
    else if s.writer.WStart? && s.lock == ByWorker then WorkerGo
    else if s.writer.WStart? && s.lock == ByTimer then TimerGo(true)
    else WriterGo
  }

  /** There is space and the writer will find it. */
  predicate Sure(s: State)
    requires InRange(s)
  {
    0 < OutSpace(s.head, s.tail) && TailAsRead(s)
  }

  /** How far the writer is from moving the head, or from its end. */
  function Rank(s: State): nat
    requires InRange(s)
  {
    if Sleeping(s) then 100 + Distance(s)
    else if s.writer.WCopied? then 0
    else if s.writer.WCopy? then 1
    else (if Sure(s) then 0 else 1000000) + Place(s)
  }

  function Place(s: State): nat {
    match s.writer
    case WRecheckTail(_, _) => if s.waiting then 2 else 12
    case WRecheck(_) => if s.waiting then 3 else 13
    case WEnqueue(_) => 4
    case WAsleep(_) => 5
    case WCondTail(_, _) => 6
    case WCond(_) => 7
    case WLoopTail(_, _) => 8
    case WLoop(_) => 9
    case WLocked(_) => 20
    case WStart(_) => 21 + LockHeld(s)
    case _ => 0
  }

  /** For how many steps more the lock is held. */
  function LockHeld(s: State): nat {
    if s.lock == Free then 0
    else if s.lock == ByWorker && s.worker == KCheck then 3
    else if s.lock == ByWorker && s.worker == KEmpty then 2
    else 1
  }

  ghost predicate Good(s: State) {
    Inv(s) && Waking(s) && Working(s.writer)
  }

  lemma LookKeepsWorking(s: State)
    requires InRange(s) && WriterCanGo(s) && Looks(s.writer) && Working(s.writer)
    ensures Working(WriterStep(s).writer)
  {
  }

  lemma MoveKeepsWorking(s: State)
    requires InRange(s) && WriterCanGo(s) && !Looks(s.writer) && Working(s.writer)
    ensures Working(WriterStep(s).writer)
  {
  }

  lemma OthersKeepWorking(s: State, e: Event)
    requires InRange(s) && Enabled(s, e) && e != WriterGo && Working(s.writer)
    ensures Working(Step(s, e).writer)
  {
    if e.TimerGo? {
      TimerLeavesRing(s, e.busy);
    }
  }

  lemma StepKeepsWorking(s: State, e: Event)
    requires InRange(s) && Enabled(s, e) && Working(s.writer)
    ensures Working(Step(s, e).writer)
  {
    if e != WriterGo {
      OthersKeepWorking(s, e);
    } else if Looks(s.writer) {
      LookKeepsWorking(s);
    } else {
      MoveKeepsWorking(s);
    }
  }

  /** Looking for space the writer comes closer to finding some, or to falling asleep over
      a full ring. */
  lemma ReadingAgainComesCloser(s: State)
    requires InRange(s) && WriterKnows(s) && WriterCanGo(s) && BetweenReads(s.writer) && !Doomed(s)
    ensures InRange(WriterStep(s)) && Rank(WriterStep(s)) < Rank(s)
  {
    TornTail(s.head, s.writer.before, s.tail);
  }

  lemma LookingComesCloser(s: State)
    requires InRange(s) && WriterCanGo(s) && Working(s.writer) && Looks(s.writer) && !BetweenReads(s.writer)
    requires !Sleeping(s) && WriterStep(s).writer != WIdle
    ensures InRange(WriterStep(s)) && Rank(WriterStep(s)) < Rank(s)
  {
  }

  /** Moving the head shortens what is left to do; the other steps around it come closer. */
  lemma MovingComesCloser(s: State)
    requires RingInv(s) && WriterCanGo(s) && Working(s.writer) && !Looks(s.writer)
    ensures InRange(WriterStep(s))
    ensures if s.writer.WCopied? then |Todo(WriterStep(s).writer)| < |Todo(s.writer)|
            else Rank(WriterStep(s)) < Rank(s) && Todo(WriterStep(s).writer) == Todo(s.writer)
  {
  }

  /** The holder of the lock comes closer to giving it back... */
  lemma HolderComesCloser(s: State)
    requires Inv(s) && s.writer.WStart? && s.lock != Free
    ensures Enabled(s, Next(s)) && Next(s) != WriterGo
    ensures InRange(Step(s, Next(s))) && Step(s, Next(s)).writer == s.writer && Rank(Step(s, Next(s))) < Rank(s)
  {
  }

  /** ...and the drain to waking the writer. */
  lemma DrainComesCloser(s: State)
    requires LooksGood(s) && Sleeping(s)
    ensures Enabled(s, Next(s)) && Next(s) != WriterGo
    ensures InRange(Step(s, Next(s))) && Step(s, Next(s)).writer == s.writer && Rank(Step(s, Next(s))) < Rank(s)
  {
    HelperAdvances(s);
    if Helper(s) == WorkerGo {
      WokenOverSpace(s);
    } else {
      TimerWakesNobody(s);
    }
  }

  lemma WokenOverSpace(s: State)
    requires InRange(s) && s.waiting && WorkerCanGo(s)
    ensures InRange(WorkerStep(s))
    ensures !WorkerStep(s).waiting ==> 0 < OutSpace(WorkerStep(s).head, WorkerStep(s).tail)
  {
    if s.worker == KWake {
      WakeThreshold(s.head, s.tail);
    }
  }

  lemma TimerWakesNobody(s: State)
    requires InRange(s) && Enabled(s, Helper(s)) && Helper(s) != WorkerGo
    ensures Step(s, Helper(s)).waiting == s.waiting
  {
  }

  lemma {:induction false} RunKeepsWorking(s: State, es: seq<Event>, s': State)
    requires Working(s.writer) && Run(s, es, s')
    ensures Working(s'.writer)
    decreases |es|
  {
    if es != [] {
      StepKeepsWorking(s, es[0]);
      RunKeepsWorking(Step(s, es[0]), es[1..], s');
    }
  }

  lemma ReachableGood(s: State)
    requires Reachable(s) && !Doomed(s)
    ensures Good(s)
  {
    var es :| Run(Init(), es, s);
    RunKeepsProspect(Init(), es, s);
    RunKeepsWorking(Init(), es, s);
  }

  /** One step of whoever is next, seen by the writer. */
  predicate Closer(s: State, s': State)
    requires InRange(s) && InRange(s')
  {
    || s'.writer == WIdle
    || |Todo(s'.writer)| < |Todo(s.writer)|
    || (Todo(s'.writer) == Todo(s.writer) && Rank(s') < Rank(s))
  }

  lemma WriterIsNext(s: State)
    requires Good(s) && !Doomed(s) && s.writer != WIdle && Next(s) == WriterGo
    ensures WriterCanGo(s) && InRange(WriterStep(s)) && Closer(s, WriterStep(s))
  {
    WriterMayGo(s);
    if !Looks(s.writer) {
      MovingComesCloser(s);
    } else if WriterStep(s).writer != WIdle {
      if BetweenReads(s.writer) {
        ReadingAgainComesCloser(s);
      } else {
        LookingComesCloser(s);
      }
      LookKeepsTodo(s);
    }
  }

  lemma WriterMayGo(s: State)
    requires Good(s) && s.writer != WIdle && Next(s) == WriterGo
    ensures WriterCanGo(s)
  {
    if Sleeping(s) {
      DrainComesCloser(s);
    } else if s.writer.WStart? && s.lock != Free {
      HolderComesCloser(s);
    }
  }

  lemma LookKeepsTodo(s: State)
    requires InRange(s) && WriterCanGo(s) && Looks(s.writer)
    ensures Todo(WriterStep(s).writer) == Todo(s.writer)
  {
  }

  lemma NextComesCloser(s: State)
    requires Good(s) && !Doomed(s) && s.writer != WIdle
    ensures Enabled(s, Next(s)) && Next(s) != Signal
    ensures InRange(Step(s, Next(s))) && Closer(s, Step(s, Next(s)))
  {
    if Next(s) == WriterGo {
      WriterIsNext(s);
    } else if Sleeping(s) {
      DrainComesCloser(s);
    } else {
      HolderComesCloser(s);
    }
  }

  lemma NextStaysGood(s: State)
    requires Good(s) && !Doomed(s) && s.writer != WIdle && Enabled(s, Next(s)) && Next(s) != Signal
    ensures Good(Step(s, Next(s))) && !Doomed(Step(s, Next(s)))
  {
    StepKeepsWaking(s, Next(s));
    StepKeepsWorking(s, Next(s));
    if Next(s) == WriterGo {
      WriterReadsTail(s);
    } else {
      OthersKeepRequest(s, Next(s));
    }
  }

  lemma {:induction false} Finish(s: State) returns (es: seq<Event>, s': State)
    requires Good(s) && !Doomed(s)
    ensures During(s, es, s') && Signal !in es && s'.writer == WIdle
    decreases |Todo(s.writer)|, Rank(s)
  {
    es, s' := [], s;
    if s.writer != WIdle {
      NextComesCloser(s);
      NextStaysGood(s);
      var s1 := Step(s, Next(s));
      var rest := [];
      s' := s1;
      if s1.writer != WIdle {
        rest, s' := Finish(s1);
      }
      es := [Next(s)] + rest;
      assert es[1..] == rest;
    }
  }

  lemma DoomedStays(s: State, e: Event)
    requires InRange(s) && Doomed(s) && Enabled(s, e) && e != Signal
    ensures InRange(Step(s, e)) && Doomed(Step(s, e))
  {
    if Stalled(s) {
      EmptyRingWakesNobody(s, e);
    } else if e == WriterGo {
      TornTail(s.head, s.writer.before, s.tail);
    } else {
      OthersKeepRequest(s, e);
      OthersLeaveEmptyRing(s, e);
    }
  }

  lemma OthersLeaveEmptyRing(s: State, e: Event)
    requires InRange(s) && s.head == s.tail && s.waiting && Enabled(s, e) && e != Signal && e != WriterGo
    ensures Step(s, e).head == s.head && Step(s, e).tail == s.tail && Step(s, e).waiting
    ensures InRange(Step(s, e))
  {
    WakeThreshold(s.head, s.tail);
  }

  lemma {:induction false} DoomedForGood(s: State, es: seq<Event>, s': State)
    requires InRange(s) && Doomed(s) && During(s, es, s') && Signal !in es
    ensures s'.writer != WIdle
    decreases |es|
  {
    if es != [] {
      DoomedStays(s, es[0]);
      DoomedForGood(Step(s, es[0]), es[1..], s');
    }
  }

  /** Some run takes the write to its end, with every byte of the rest accepted. */
  ghost predicate CanFinish(s: State) {
    exists es: seq<Event>, s' :: During(s, es, s') && Signal !in es && s'.writer == WIdle
                              && s'.accepted == s.accepted + Todo(s.writer)
  }

  /** In every reachable state a write can be finished without a signal, however long the
      rest of its request, exactly if the writer neither has missed the end nor is one step
      away from it. */
  lemma WriteCanFinish(s: State)
    requires Reachable(s) && s.writer != WIdle
    ensures CanFinish(s) <==> !Doomed(s)
  {
    if Doomed(s) {
      ReachableInv(s);
      if CanFinish(s) {
        var es, s' :| During(s, es, s') && Signal !in es && s'.writer == WIdle
                      && s'.accepted == s.accepted + Todo(s.writer);
        DoomedForGood(s, es, s');
      }
    } else {
      ReachableGood(s);
      var es, s' := Finish(s);
      CallKeepsRequest(s, es, s');
    }
  }

  /** A signal ends the wait, and changes nothing else. */
  lemma SignalReturns(s: State)
    requires s.writer.WEnqueue? || s.writer.WAsleep?
    ensures InRange(s) ==> Enabled(s, Signal) && Step(s, Signal) == s.(writer := WIdle, waiting := false)
  {
  }

  // ---------- the other side, alone ----------

  lemma OneStep(s: State, e: Event, rest: seq<Event>, s': State)
    requires InRange(s) && Enabled(s, e) && Run(Step(s, e), rest, s')
    ensures Run(s, [e] + rest, s')
  {
    assert ([e] + rest)[1..] == rest;
  }

  function WorkerGoes(k: nat): seq<Event> {
    if k == 0 then [] else [WorkerGo] + WorkerGoes(k - 1)
  }

  function TimerGoes(k: nat, busy: bool): seq<Event> {
    if k == 0 then [] else [TimerGo(busy)] + TimerGoes(k - 1, busy)
  }

  /** The work item begins: it is off the work queue and has the lock. */
  lemma WorkBegins(s: State, k: nat, s': State)
    requires InRange(s) && s.pending && s.worker == KIdle && s.lock == Free
    requires Run(s.(pending := false, lock := ByWorker, worker := KCheck), WorkerGoes(k), s')
    ensures Run(s, WorkerGoes(k + 2), s')
  {
    OneStep(WorkerStep(s), WorkerGo, WorkerGoes(k), s');
    OneStep(s, WorkerGo, WorkerGoes(k + 1), s');
  }

  /** One byte less: the oldest is out, the timer is set, and a waiting writer is woken
      exactly if less than half, but not nothing, is left. */
  function OneLess(s: State): State
    requires InRange(s) && s.head != s.tail
  {
    var left := Queued(s.head, s.tail) - 1;
    s.(armed := true, tail := (s.tail + 1) % PAGE_SIZE,
       strobed := s.strobed + Contents(s.buf, s.tail, s.head)[..1],
       waiting := s.waiting && !(0 < left < PAGE_SIZE / 2))
  }

  /** One run of the work item over data takes it off the work queue and sends one byte. */
  lemma WorkStrobesOne(s: State)
    requires InRange(s) && s.pending && s.worker == KIdle && s.lock == Free && s.head != s.tail
    ensures Run(s, WorkerGoes(4), OneLess(s).(pending := false))
  {
    var a := s.(pending := false, lock := ByWorker, worker := KCheck);
    var b := WorkerStep(a);
    Strobed(a);
    assert OneLess(a).(lock := Free, worker := KIdle) == OneLess(s).(pending := false);
    OneStep(b, WorkerGo, WorkerGoes(0), WorkerStep(b));
    OneStep(a, WorkerGo, WorkerGoes(1), WorkerStep(b));
    WorkBegins(s, 2, WorkerStep(b));
  }

  lemma Strobed(s: State)
    requires InRange(s) && s.worker == KCheck && s.head != s.tail
    ensures WorkerStep(WorkerStep(s)) == OneLess(s).(lock := Free, worker := KIdle)
  {
    var s' := WorkerStep(s);
    WakeThreshold(s'.head, s'.tail);
    assert Contents(s.buf, s.tail, s.head)[..1] == [s.buf[s.tail]];
  }

  /** Over an empty ring it ends the output and takes the timer away; nobody is woken. */
  lemma WorkEndsOutput(s: State)
    requires InRange(s) && s.pending && s.worker == KIdle && s.lock == Free && s.head == s.tail
    ensures Run(s, WorkerGoes(5), s.(pending := false, active := false, armed := false))
  {
    var a := s.(pending := false, lock := ByWorker, worker := KCheck);
    var b := WorkerStep(a);
    var c := WorkerStep(b);
    WakeThreshold(c.head, c.tail);
    OneStep(c, WorkerGo, WorkerGoes(0), WorkerStep(c));
    OneStep(b, WorkerGo, WorkerGoes(1), WorkerStep(c));
    OneStep(a, WorkerGo, WorkerGoes(2), WorkerStep(c));
    WorkBegins(s, 3, WorkerStep(c));
  }

  /** The timer function begins: with output it has the lock. */
  lemma TimeoutBegins(s: State, busy: bool, k: nat, s': State)
    requires InRange(s) && s.armed && s.timer == TIdle && s.lock == Free && s.active
    requires Run(s.(armed := false, lock := ByTimer, timer := TLocked), TimerGoes(k, busy), s')
    ensures Run(s, [TimerFires] + TimerGoes(k + 2, busy), s')
  {
    var f := Step(s, TimerFires);
    OneStep(TimerStep(f, busy), TimerGo(busy), TimerGoes(k, busy), s');
    OneStep(f, TimerGo(busy), TimerGoes(k + 1, busy), s');
    OneStep(s, TimerFires, TimerGoes(k + 2, busy), s');
  }

  /** One run of the timer function: without output nothing, with a busy printer the timer is
      set again, otherwise the work is queued. */
  lemma TimeoutAlone(s: State, busy: bool)
    requires InRange(s) && s.armed && s.timer == TIdle && s.lock == Free
    ensures !s.active ==> Run(s, [TimerFires] + TimerGoes(1, busy), s.(armed := false))
    ensures s.active && busy ==> Run(s, [TimerFires] + TimerGoes(3, busy), s)
    ensures s.active && !busy ==> Run(s, [TimerFires] + TimerGoes(4, busy), s.(armed := false, pending := true))
  {
    if !s.active {
      var f := Step(s, TimerFires);
      OneStep(f, TimerGo(busy), TimerGoes(0, busy), TimerStep(f, busy));
      OneStep(s, TimerFires, TimerGoes(1, busy), TimerStep(f, busy));
    } else {
      var a := s.(armed := false, lock := ByTimer, timer := TLocked);
      var b := TimerStep(a, busy);
      if busy {
        OneStep(a, TimerGo(busy), TimerGoes(0, busy), b);
        TimeoutBegins(s, busy, 1, b);
      } else {
        OneStep(b, TimerGo(busy), TimerGoes(0, busy), TimerStep(b, busy));
        OneStep(a, TimerGo(busy), TimerGoes(1, busy), TimerStep(b, busy));
        TimeoutBegins(s, busy, 2, TimerStep(b, busy));
      }
    }
  }

  /** An interrupt queues the work exactly while there is output. */
  lemma InterruptAlone(s: State)
    requires InRange(s)
    ensures Run(s, [Irq], s.(pending := s.pending || s.active))
  {
    OneStep(s, Irq, [], Interrupt(s));
  }
}
