/** What one call into the snull driver does when nothing comes in between: a transmission in
    either mode, a timeout, a poll. */
module SnullCalls {
  import opened SnullProtocol

  /** k steps of the transmitter of device d, and nothing else. */
  function TxGoes(d: Id, k: nat): seq<Event> {
    if k == 0 then [] else [On(d, TxGo(false))] + TxGoes(d, k - 1)
  }

  lemma ActKeepsId(s: State, act: Action)
    requires CanAct(s, act)
    ensures Act(s, act).id == s.id
  {
  }

  lemma OneStep(s: State, act: Action, rest: seq<Event>, s': State)
    requires CanAct(s, act) && Run(Act(s, act), rest, s')
    ensures Run(s, [On(s.id, act)] + rest, s')
  {
    ActKeepsId(s, act);
    assert ([On(s.id, act)] + rest)[1..] == rest;
  }

  /** The transmitter gets there by itself. */
  ghost predicate Gets(s: State, s': State) {
    exists k: nat :: Run(s, TxGoes(s.id, k), s')
  }

  lemma Stays(s: State)
    ensures Gets(s, s)
  {
    assert Run(s, TxGoes(s.id, 0), s);
  }

  lemma GoesOn(s: State, s': State)
    requires CanTx(s) && Gets(TxStep(s, false), s')
    ensures Gets(s, s')
  {
    ActKeepsId(s, TxGo(false));
    var k: nat :| Run(TxStep(s, false), TxGoes(s.id, k), s');
    OneStep(s, TxGo(false), TxGoes(s.id, k), s');
    assert TxGoes(s.id, k + 1) == [On(s.id, TxGo(false))] + TxGoes(s.id, k);
    assert Run(s, TxGoes(s.id, k + 1), s');
  }

  predicate NobodyLocks(s: State) {
    !Locked(s) && !PeerLocked(s)
  }

  // ---------- a transmission ----------

  /** The head of the pool goes to the peer; the last packet stops the queue. */
  function Sent(s: State): State
    requires s.own.pool != []
  {
    var p := s.own.pool[0];
    s.(own := s.own.(pool := s.own.pool[1..], stopped := s.own.stopped || |s.own.pool| == 1, tx := TxTest),
       peer := s.peer.(rxq := [p] + s.peer.rxq), nulls := SetNext(s.nulls, p, s.peer.rxq))
  }

  lemma Sends(s: State, s': State)
    requires NobodyLocks(s) && s.own.tx == TxIdle && !s.own.stopped && s.own.pool != [] && Gets(Sent(s), s')
    ensures Gets(s, s')
  {
    GoesOn(TxStep(s, false), s');
    GoesOn(s, s');
  }

  /** The peer's receive bit is set, and its handler has read it. */
  function Reported(s: State): State {
    var w := s.peer.status.(rx := true);
    s.(own := s.own.(tx := TxRead(w)), peer := s.peer.(status := w))
  }

  lemma Reports(s: State, s': State)
    requires NobodyLocks(s) && s.own.tx == TxTest && s.peer.rxInt && Gets(Reported(s), s')
    ensures Gets(s, s')
  {
    var a := TxStep(s, false);
    var b := TxStep(a, false);
    var c := TxStep(b, false);
    GoesOn(c, s');
    GoesOn(b, s');
    GoesOn(a, s');
    GoesOn(s, s');
  }

  /** The device's own handler has been called, and has read the transmit bit... */
  function Calling(s: State, late: bool): State {
    var w := s.own.status.(sent := true);
    s.(own := s.own.(status := w, tx := DoneRead(late, w)))
  }

  lemma Calls(s: State, late: bool, s': State)
    requires NobodyLocks(s) && s.own.tx == DoneLoad(late) && Gets(Calling(s, late), s')
    ensures Gets(s, s')
  {
    var a := TxStep(s, false);
    var b := TxStep(a, false);
    GoesOn(b, s');
    GoesOn(a, s');
    GoesOn(s, s');
  }

  /** ...and returns, having nothing to receive. */
  function Told(s: State, late: bool): State {
    s.(own := s.own.(status := NO_INTR, tx := After(late)))
  }

  lemma Tells(s: State, late: bool, s': State)
    requires NobodyLocks(s) && s.own.tx == DoneLoad(late) && !s.own.status.rx && Gets(Told(s, late), s')
    ensures Gets(s, s')
  {
    assert TxStep(Calling(s, late), false) == Told(s, late);
    GoesOn(Calling(s, late), s');
    Calls(s, late, s');
  }

  /** With NAPI and the peer's interrupts on, a transmission puts the head of the pool on the
      peer's queue, turns the peer's interrupts off and schedules its poll; the last packet
      stops the queue. */
  lemma TransmitSchedulesPoll(s: State)
    requires s.napi && NobodyLocks(s) && s.own.tx == TxIdle && !s.own.stopped && s.own.pool != []
    requires s.peer.rxInt && !s.own.status.rx
    ensures Gets(s,
      s.(own := s.own.(pool := s.own.pool[1..], stopped := |s.own.pool| == 1, status := NO_INTR),
         peer := s.peer.(rxq := [s.own.pool[0]] + s.peer.rxq, status := NO_INTR, rxInt := false, scheduled := true,
                         missed := s.peer.missed || s.peer.scheduled),
         nulls := SetNext(s.nulls, s.own.pool[0], s.peer.rxq)))
  {
    var a := Sent(s);
    var b := Reported(a);
    var c := TxStep(b, false);
    Stays(Told(c, false));
    Tells(c, false, Told(c, false));
    GoesOn(b, Told(c, false));
    Reports(a, Told(c, false));
    Sends(s, Told(c, false));
  }

  /** With its interrupts off nobody tells the peer. */
  lemma TransmitQuietly(s: State)
    requires NobodyLocks(s) && s.own.tx == TxIdle && !s.own.stopped && s.own.pool != []
    requires !s.peer.rxInt && !s.own.status.rx
    ensures Gets(s,
      s.(own := s.own.(pool := s.own.pool[1..], stopped := |s.own.pool| == 1, status := NO_INTR),
         peer := s.peer.(rxq := [s.own.pool[0]] + s.peer.rxq), nulls := SetNext(s.nulls, s.own.pool[0], s.peer.rxq)))
  {
    var a := Sent(s);
    var b := TxStep(a, false);
    Stays(Told(b, false));
    Tells(b, false, Told(b, false));
    GoesOn(a, Told(b, false));
    Sends(s, Told(b, false));
  }

  /** A handler that has received a packet returns it, and wakes the queue of the packet's
      device if that ends a shortage. */
  function Received(s: State): State
    requires s.own.tx.TxRead? && s.peer.rxq != []
  {
    var p := s.peer.rxq[0];
    s.(own := s.own.(pool := [p] + s.own.pool, stopped := s.own.stopped && s.own.pool != [], tx := DoneLoad(false)),
       peer := s.peer.(rxq := s.peer.rxq[1..], status := NO_INTR), nulls := SetNext(s.nulls, p, s.own.pool))
  }

  lemma Receives(s: State, s': State)
    requires !s.napi && s.own.tx.TxRead? && s.own.tx.w.rx && s.peer.rxq != [] && !Locked(s)
    requires s.peer.rxq[0].dev == s.id && s.peer.rxq[0] in s.own.live && Gets(Received(s), s')
    ensures Gets(s, s')
  {
    var a := TxStep(s, false);
    var b := TxStep(a, false);
    var c := TxStep(b, false);
    if s.own.stopped {
      assert TxStep(c, false) == Received(s);
      GoesOn(c, s');
    } else {
      assert c == Received(s);
    }
    GoesOn(b, s');
    GoesOn(a, s');
    GoesOn(s, s');
  }

  /** In regular mode the peer's handler takes the packet at once and returns it: the pool is
      as before, and the queue runs. */
  lemma TransmitAndReceive(s: State) returns (nulls: set<Pkt>)
    requires !s.napi && NobodyLocks(s) && s.own.tx == TxIdle && !s.own.stopped && s.own.pool != []
    requires s.own.pool[0].dev == s.id && s.own.pool[0] in s.own.live
    requires s.peer.rxInt && !s.own.status.rx
    ensures Gets(s, s.(own := s.own.(status := NO_INTR), peer := s.peer.(status := NO_INTR), nulls := nulls))
  {
    var a := Sent(s);
    var b := Reported(a);
    var c := Received(b);
    nulls := c.nulls;
    assert c.own.pool == s.own.pool && c.peer.rxq == s.peer.rxq;
    Stays(Told(c, false));
    Tells(c, false, Told(c, false));
    Receives(b, Told(c, false));
    Reports(a, Told(c, false));
    Sends(s, Told(c, false));
  }

  // ---------- a timeout ----------

  /** A timeout frees the pool, and the queue starts over a new one; what is in flight stays
      allocated. */
  lemma TimeoutResets(s: State) returns (s': State)
    requires NobodyLocks(s) && s.own.tx == TxIdle && s.own.stopped && !s.own.status.rx
    ensures CanAct(s, Timeout) && Gets(Act(s, Timeout), s')
    ensures !s'.own.stopped && |s'.own.pool| == s.poolSize && (forall p <- s'.own.pool :: p.serial >= s.serial)
    ensures s'.own.live == (s.own.live - SetOf(s.own.pool)) + SetOf(s'.own.pool)
    ensures s' == s.(own := s.own.(status := NO_INTR, pool := s'.own.pool, live := s'.own.live,
                                   atReset := s'.own.atReset, stopped := false),
                     serial := s'.serial, nulls := s'.nulls)
  {
    var a := Act(s, Timeout);
    s' := TxStep(Told(a, true), false);
    Stays(s');
    GoesOn(Told(a, true), s');
    Tells(a, true, s');
  }

  // ---------- a poll ----------

  /** The poll of the device gets there by itself. */
  ghost predicate Polled(s: State, s': State) {
    exists es: seq<Event> :: Run(s, es, s') && forall e <- es :: e.d == s.id && Polls(e.act)
  }

  lemma PollStays(s: State)
    ensures Polled(s, s)
  {
    assert Run(s, [], s);
  }

  lemma PollGoesOn(s: State, act: Action, s': State)
    requires Polls(act) && CanAct(s, act) && Polled(Act(s, act), s')
    ensures Polled(s, s')
  {
    ActKeepsId(s, act);
    var es: seq<Event> :| Run(Act(s, act), es, s') && forall e <- es :: e.d == s.id && Polls(e.act);
    OneStep(s, act, es, s');
    var all := [On(s.id, act)] + es;
    assert forall e <- all :: e.d == s.id && Polls(e.act);
  }

  /** The packets on the receive queue are the peer's. */
  ghost predicate FromPeer(s: State) {
    forall p <- s.own.rxq :: p.dev != s.id && p in s.peer.live
  }

  /** One packet more is handled: it heads its pool, and its queue is woken if that ends a
      shortage. */
  function RoundDone(s: State): State
    requires s.own.poll.PollLoop? && s.own.rxq != []
  {
    var p := s.own.rxq[0];
    s.(own := s.own.(rxq := s.own.rxq[1..], poll := PollLoop(s.own.poll.n + 1, s.own.poll.budget)),
       peer := s.peer.(pool := [p] + s.peer.pool, stopped := s.peer.stopped && s.peer.pool != []),
       nulls := SetNext(s.nulls, p, s.peer.pool))
  }

  /** The packet is back in its pool, and has not been tested. */
  function BackHome(s: State): State
    requires s.own.poll.PollLoop? && s.own.rxq != []
  {
    var p := s.own.rxq[0];
    s.(own := s.own.(rxq := s.own.rxq[1..], poll := PollPushed(p, s.own.poll.n, s.own.poll.budget, false)),
       peer := s.peer.(pool := [p] + s.peer.pool), nulls := SetNext(s.nulls, p, s.peer.pool))
  }

  lemma PollTests(s: State, s': State)
    requires FromPeer(s) && s.own.poll.PollLoop? && s.own.rxq != [] && Polled(RoundDone(s), s')
    ensures Polled(BackHome(s), s')
  {
    assert s.own.rxq[0] in s.own.rxq;
    var b := BackHome(s);
    var c := Act(b, PollWake(false));
    if s.peer.stopped {
      assert Act(c, PollWake(false)) == RoundDone(s);
      PollGoesOn(c, PollWake(false), s');
    } else {
      assert c == RoundDone(s);
    }
    PollGoesOn(b, PollWake(false), s');
  }

  lemma PollRound(s: State, s': State)
    requires NobodyLocks(s) && FromPeer(s) && s.own.poll.PollLoop? && s.own.rxq != []
    requires s.own.poll.n < s.own.poll.budget && Polled(RoundDone(s), s')
    ensures Polled(s, s')
  {
    assert s.own.rxq[0] in s.own.rxq;
    PollTests(s, s');
    var a := Act(s, PollTake);
    assert Act(a, PollRelease) == BackHome(s);
    PollGoesOn(a, PollRelease, s');
    PollGoesOn(s, PollTake, s');
  }

  lemma RoundAgain(s: State)
    requires NobodyLocks(s) && FromPeer(s) && s.own.poll.PollLoop? && s.own.rxq != []
    ensures NobodyLocks(RoundDone(s)) && FromPeer(RoundDone(s))
  {
    assert forall p <- s.own.rxq[1..] :: p in s.own.rxq;
  }

  function Reversed(s: seq<Pkt>): (r: seq<Pkt>)
    ensures |r| == |s| && forall i :: 0 <= i < |s| ==> r[i] == s[|s| - 1 - i]
  {
    seq(|s|, i requires 0 <= i < |s| => s[|s| - 1 - i])
  }

  /** m packets of the queue have gone home; the youngest of them heads its pool. */
  function GoneHome(s: State, m: nat, poll: Poll, nulls: set<Pkt>): State
    requires m <= |s.own.rxq|
  {
    s.(own := s.own.(rxq := s.own.rxq[m..], poll := poll),
       peer := s.peer.(pool := Reversed(s.own.rxq[..m]) + s.peer.pool,
                       stopped := s.peer.stopped && (m == 0 || s.peer.pool != [])),
       nulls := nulls)
  }

  lemma GoneHomeNext(s: State, m: nat, poll: Poll, nulls: set<Pkt>)
    requires s.own.poll.PollLoop? && m < |s.own.rxq|
    ensures GoneHome(RoundDone(s), m, poll, nulls) == GoneHome(s, m + 1, poll, nulls)
  {
    var q := s.own.rxq;
    assert Reversed(q[1..][..m]) + ([q[0]] + s.peer.pool) == Reversed(q[..m + 1]) + s.peer.pool;
  }

  /** What a poll may handle: as much as is queued, or as is left of its budget. */
  function Share(budget: nat, queued: nat): (m: nat)
    ensures m <= budget && m <= queued && (m == budget || m == queued)
  {
    if budget <= queued then budget else queued
  }

  lemma NothingGone(s: State)
    ensures GoneHome(s, 0, s.own.poll, s.nulls) == s
  {
  }

  function NullsAfter(s: State, m: nat): set<Pkt>
    requires s.own.poll.PollLoop? && m <= |s.own.rxq|
    decreases m
  {
    if m == 0 then s.nulls else NullsAfter(RoundDone(s), m - 1)
  }

  lemma {:induction false} PollRounds(s: State, m: nat, s': State)
    requires NobodyLocks(s) && FromPeer(s) && s.own.poll.PollLoop?
    requires m <= |s.own.rxq| && s.own.poll.n + m <= s.own.poll.budget
    requires Polled(GoneHome(s, m, PollLoop(s.own.poll.n + m, s.own.poll.budget), NullsAfter(s, m)), s')
    ensures Polled(s, s')
    decreases m
  {
    if m == 0 {
      NothingGone(s);
    } else {
      RoundAgain(s);
      GoneHomeNext(s, m - 1, PollLoop(s.own.poll.n + m, s.own.poll.budget), NullsAfter(s, m));
      PollRounds(RoundDone(s), m - 1, s');
      PollRound(s, s');
    }
  }

  /** A poll that nothing interrupts handles as many packets as the budget and the queue allow
      and sends them home, waking the peer's queue if that ends a shortage.  Interrupts come
      back exactly when the budget was not used up, unless the poll has been scheduled once
      more meanwhile. */
  lemma PollHandlesItsShare(s: State, budget: nat) returns (nulls: set<Pkt>)
    requires NobodyLocks(s) && FromPeer(s) && s.own.poll == PollIdle && s.own.scheduled
    ensures var m := Share(budget, |s.own.rxq|); var t := GoneHome(s, m, PollIdle, nulls);
      Polled(s, if m == budget then t
                else if s.own.missed then t.(own := t.own.(missed := false))
                else t.(own := t.own.(scheduled := false, rxInt := true)))
  {
    var a := Act(s, PollBegin(budget));
    var m := Share(budget, |s.own.rxq|);
    nulls := NullsAfter(a, m);
    var b := GoneHome(a, m, PollLoop(m, budget), nulls);
    var c := if m == budget then PollOver(b) else Reenabled(b);
    PollEnds(b);
    PollRounds(a, m, c);
    PollGoesOn(s, PollBegin(budget), c);
  }

  function PollOver(s: State): State {
    s.(own := s.own.(poll := PollIdle))
  }

  function Reenabled(s: State): State {
    s.(own := if s.own.missed then s.own.(poll := PollIdle, missed := false)
              else s.own.(poll := PollIdle, scheduled := false, rxInt := true))
  }

  /** The end of a poll. */
  lemma PollEnds(s: State)
    requires NobodyLocks(s) && s.own.poll.PollLoop? && (s.own.poll.n >= s.own.poll.budget || s.own.rxq == [])
    ensures Polled(s, if s.own.poll.n >= s.own.poll.budget then PollOver(s) else Reenabled(s))
  {
    var c := Act(s, PollExit);
    if s.own.poll.n >= s.own.poll.budget {
      PollStays(c);
    } else {
      PollStays(Act(c, PollReenable));
      PollGoesOn(c, PollReenable, Act(c, PollReenable));
    }
    PollGoesOn(s, PollExit, if s.own.poll.n >= s.own.poll.budget then PollOver(s) else Reenabled(s));
  }

  // ---------- the budget ----------

  predicate InBudget(poll: Poll) {
    match poll
    case PollLoop(n, budget) => n <= budget
    case PollHold(_, n, budget) => n < budget
    case PollPushed(_, n, budget, _) => n < budget
    case _ => true
  }

  lemma ActKeepsBudget(s: State, act: Action)
    requires CanAct(s, act) && InBudget(s.own.poll) && InBudget(s.peer.poll)
    ensures InBudget(Act(s, act).own.poll) && InBudget(Act(s, act).peer.poll)
  {
  }

  lemma {:induction false} RunKeepsBudget(s: State, es: seq<Event>, s': State)
    requires InBudget(s.own.poll) && InBudget(s.peer.poll) && Run(s, es, s')
    ensures InBudget(s'.own.poll) && InBudget(s'.peer.poll)
    decreases |es|
  {
    if es != [] {
      ActKeepsBudget(From(s, es[0].d), es[0].act);
      RunKeepsBudget(Step(s, es[0]), es[1..], s');
    }
  }

  /** In every run no poll handles more packets than its budget. */
  lemma PollsKeepToTheirBudget(poolSize: nat, napi: bool, es: seq<Event>, s: State)
    requires Run(Init(poolSize, napi), es, s)
    ensures InBudget(s.own.poll) && InBudget(s.peer.poll)
  {
    RunKeepsBudget(Init(poolSize, napi), es, s);
  }
}
