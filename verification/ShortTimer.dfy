/** The timer of shortprint: add_timer() must not meet a timer that is pending.
    shortp_timeout() and shortp_start_output() call it unseen. */
module ShortTimer {
  import opened ShortPrint

  /** A step that calls add_timer() while the timer is pending. */
  predicate AddsPending(s: State, e: Event) {
    s.armed && (
      || (e == TimerGo(true) && s.timer == TLocked)
      || (e == WriterGo && s.writer.WLocked? && !s.active))
  }

  /** From its firing to its own add_timer() the timer is not pending; past its test of
      shortp_output_active output is active; with output inactive it is not pending. */
  predicate Timed(s: State) {
    && (s.timer == TFired || s.timer == TLock || s.timer == TLocked ==> !s.armed)
    && (s.timer == TLock || s.timer == TLocked ==> s.active)
    && (!s.active ==> !s.armed)
  }

  /** The timer function has fired and has not got the lock yet. */
  predicate InFlight(timer: Timer) {
    timer == TFired || timer == TLock
  }

  /** The work item sends a byte, and resets the timer, while the timer function is on its
      way to the lock, or while output is inactive; it ends the output while the function
      is past its test; or the writer starts output while the function is before it. */
  predicate Overtakes(s: State, e: Event) {
    || (e == WorkerGo && s.worker == KCheck && s.head != s.tail && (!s.active || InFlight(s.timer)))
    || (e == WorkerGo && s.worker == KEmpty && s.timer == TLock)
    || (e == WriterGo && s.writer.WLocked? && !s.active && s.timer == TFired)
  }

  lemma TimedAddsNothingPending(s: State, e: Event)
    requires Timed(s)
    ensures !AddsPending(s, e)
  {
  }

  lemma WorkerKeepsTimed(s: State)
    requires InRange(s) && Locking(s) && Timed(s) && WorkerCanGo(s)
    ensures Timed(WorkerStep(s)) <==> !Overtakes(s, WorkerGo)
  {
  }

  lemma WriterKeepsTimed(s: State)
    requires InRange(s) && Locking(s) && Timed(s) && WriterCanGo(s)
    ensures Timed(WriterStep(s)) <==> !Overtakes(s, WriterGo)
  {
  }

  lemma TimerKeepsTimed(s: State, busy: bool)
    requires InRange(s) && Timed(s)
    ensures Timed(TimerStep(s, busy))
  {
  }

  /** One step ends the timer's order exactly if it overtakes the timer function. */
  lemma StepKeepsTimed(s: State, e: Event)
    requires Inv(s) && Timed(s) && Enabled(s, e)
    ensures Inv(Step(s, e)) && (Timed(Step(s, e)) <==> !Overtakes(s, e))
  {
    StepKeepsInv(s, e);
    match e
    case WorkerGo => WorkerKeepsTimed(s);
    case WriterGo => WriterKeepsTimed(s);
    case TimerGo(busy) => TimerKeepsTimed(s, busy);
    case _ =>
  }

  /** A run in which nobody overtakes the timer function. */
  ghost predicate TimelyRun(s: State, es: seq<Event>, s': State)
    decreases |es|
  {
    if es == [] then s' == s
    else
      InRange(s) && Enabled(s, es[0]) && !Overtakes(s, es[0]) && TimelyRun(Step(s, es[0]), es[1..], s')
  }

  lemma {:induction false} TimelyRunKeepsTimed(s: State, es: seq<Event>, s': State)
    requires Inv(s) && Timed(s) && TimelyRun(s, es, s')
    ensures Inv(s') && Timed(s')
    decreases |es|
  {
    if es != [] {
      StepKeepsTimed(s, es[0]);
      TimelyRunKeepsTimed(Step(s, es[0]), es[1..], s');
    }
  }

  /** In such a run add_timer() never meets a pending timer, and the timer is not pending
      while output is inactive. */
  lemma NoTimerIsAddedTwice(es: seq<Event>, s: State, e: Event)
    requires TimelyRun(Init(), es, s)
    ensures !AddsPending(s, e) && (!s.active ==> !s.armed)
  {
    TimelyRunKeepsTimed(Init(), es, s);
    TimedAddsNothingPending(s, e);
  }

  /** One byte is written and output has started. */
  lemma Started() returns (s: State)
    ensures Reachable(s) && Resting(s) && s.armed && s.pending && s.timer == TIdle && s.head == 1 && s.tail == 0
  {
    InitReachable();
    s := Play(Init(), Write([0]));
    s := FindsSpace(s);
    s := Play(s, WriterGo);
    s := Play(s, WriterGo);
    s := Play(s, WriterGo);
  }

  /** Otherwise it can: the timer fires, the work item sends a byte and resets the timer
      before the timer function has the lock, and the printer is still busy. */
  lemma TimerIsAddedTwice() returns (s: State)
    ensures Reachable(s) && Enabled(s, TimerGo(true)) && AddsPending(s, TimerGo(true))
  {
    s := Started();
    s := Play(s, TimerFires);
    s := SendsOne(s);
    s := Play(s, TimerGo(true));
    s := Play(s, TimerGo(true));
  }

  lemma SendsOne(s0: State) returns (s: State)
    requires Reachable(s0) && Resting(s0) && s0.pending && s0.head == 1 && s0.tail == 0
    ensures Reachable(s) && Resting(s) && s.armed && s.timer == s0.timer
  {
    s := Play(s0, WorkerGo);
    s := Play(s, WorkerGo);
    s := Play(s, WorkerGo);
    s := Play(s, WorkerGo);
  }
}
