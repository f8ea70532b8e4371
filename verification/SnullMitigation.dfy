/** NAPI interrupt mitigation of snull: a packet on the receive queue is reported by an
    interrupt, or a poll is scheduled for it. */
module SnullMitigation {
  import opened SnullProtocol

  /** The peer has queued a packet and has still to set the receive bit. */
  predicate Announcing(tx: Tx) {
    tx.TxTest? || tx.TxLoad? || tx.TxStore?
  }

  /** Somebody will enter the handler of the device called own. */
  predicate Called(s: State) {
    s.peer.tx.TxCall? || s.own.tx.DoneLoad? || s.own.tx.DoneStore? || s.own.tx.DoneCall?
  }

  /** A report of what is on the queue is on its way: the bit is still to be set, or it
      is set and a handler will read it, or it is in a word about to be stored, or in the
      word that a handler has read. */
  predicate Reported(s: State) {
    || Announcing(s.peer.tx)
    || (s.own.status.rx && Called(s))
    || (s.own.tx.DoneStore? && s.own.tx.w.rx)
    || (s.own.tx.DoneRead? && s.own.tx.w.rx)
    || (s.peer.tx.TxRead? && s.peer.tx.w.rx)
  }

  /** Packets that no poll is scheduled for and no interrupt is about to report. */
  predicate Stranded(s: State) {
    s.own.rxq != [] && s.own.rxInt && !Reported(s)
  }

  predicate AnyStranded(s: State) {
    Stranded(s) || Stranded(s.Flip())
  }

  // ---------- the two causes ----------

  /** Receive interrupts go on again over packets that came after the poll's last
      look at the queue and were not reported because interrupts were off. */
  predicate BlindReenable(s: State, act: Action) {
    act == PollReenable && !s.own.missed && s.own.rxq != [] && !Reported(s)
  }

  /** The receive bit is set, interrupts are on, and there is something to report. */
  predicate Pending(x: Dev) {
    x.status.rx && x.rxInt && x.rxq != []
  }

  /** The device completes a transmission and stores a word that it loaded before the
      receive bit was set; nobody has read the bit or is yet to set it. */
  predicate StoreDrops(s: State) {
    && s.own.tx.DoneStore? && !s.own.tx.w.rx && Pending(s.own)
    && !Announcing(s.peer.tx) && !(s.peer.tx.TxRead? && s.peer.tx.w.rx)
  }

  /** Its own handler clears a word that it read before the bit was set... */
  predicate OwnClearDrops(s: State) {
    s.own.tx.DoneRead? && !s.own.tx.w.rx && Pending(s.own) && !Announcing(s.peer.tx)
  }

  /** ...or its handler, called by the peer, does, while nobody has the bit in a word
      about to be stored. */
  predicate PeerClearDrops(s: State) {
    s.own.tx.TxRead? && !s.own.tx.w.rx && Pending(s.peer) && !(s.peer.tx.DoneStore? && s.peer.tx.w.rx)
  }

  /** A report gets lost in the status word. */
  predicate DropsReport(s: State, act: Action) {
    act.TxGo? && (StoreDrops(s) || OwnClearDrops(s) || PeerClearDrops(s))
  }

  // ---------- what each step does to the reports ----------

  predicate SameReports(x: Dev, y: Dev) {
    x.rxq == y.rxq && x.rxInt == y.rxInt && x.status == y.status && x.tx == y.tx
  }

  /** Pools and wake tests have nothing to do with them. */
  lemma PushReportsNothing(s: State, p: Pkt)
    ensures SameReports(s.own, Push(s, p).own) && SameReports(s.peer, Push(s, p).peer)
  {
  }

  lemma WakeReportsNothing(s: State, p: Pkt, junk: bool)
    ensures SameReports(s.own, Wake(s, p, junk).own) && SameReports(s.peer, Wake(s, p, junk).peer)
  {
  }

  /** The first half of a transmission, up to the handler. */
  lemma SendStrandsNothing(s: State, junk: bool)
    requires s.own.tx.TxIdle? || s.own.tx.TxGot? || s.own.tx.TxTest? || s.own.tx.TxLoad? || s.own.tx.TxStore?
    requires !AnyStranded(s) && CanTx(s)
    ensures !AnyStranded(TxStep(s, junk))
  {
  }

  lemma CallStrandsNothing(s: State, junk: bool)
    requires s.own.tx.TxCall? && !AnyStranded(s) && CanTx(s)
    ensures !AnyStranded(TxStep(s, junk))
  {
  }

  lemma PeerClearStrands(s: State, junk: bool)
    requires s.napi && s.own.tx.TxRead? && !AnyStranded(s) && OneHandler(s.Flip()) && CanTx(s)
    ensures AnyStranded(TxStep(s, junk)) <==> PeerClearDrops(s)
  {
  }

  lemma LoadStrandsNothing(s: State, junk: bool)
    requires (s.own.tx.DoneLoad? || s.own.tx.DoneCall?) && !AnyStranded(s) && CanTx(s)
    ensures !AnyStranded(TxStep(s, junk))
  {
  }

  lemma StoreStrands(s: State, junk: bool)
    requires s.own.tx.DoneStore? && !AnyStranded(s) && CanTx(s)
    ensures AnyStranded(TxStep(s, junk)) <==> StoreDrops(s)
  {
  }

  lemma OwnClearStrands(s: State, junk: bool)
    requires s.napi && s.own.tx.DoneRead? && !AnyStranded(s) && OneHandler(s) && CanTx(s)
    ensures AnyStranded(TxStep(s, junk)) <==> OwnClearDrops(s)
  {
  }

  lemma ResetStrandsNothing(s: State, junk: bool)
    requires s.own.tx == TxReset && !AnyStranded(s)
    ensures !AnyStranded(TxStep(s, junk))
  {
  }

  lemma PollStrands(s: State, act: Action)
    requires Mode(s.own, s.napi) && !AnyStranded(s) && CanAct(s, act) && Polls(act)
    ensures AnyStranded(PollStep(s, act)) <==> BlindReenable(s, act)
  {
    if act.PollRelease? {
      PushReportsNothing(s, s.own.poll.p);
    } else if act.PollWake? {
      WakeReportsNothing(s, s.own.poll.p, act.junk);
    }
  }

  /** The transmitter is at a status word. */
  predicate AtWord(tx: Tx) {
    tx.TxLoad? || tx.TxStore? || tx.TxCall? || tx.TxRead? ||
    tx.DoneLoad? || tx.DoneStore? || tx.DoneCall? || tx.DoneRead?
  }

  /** With NAPI the transmitter is nowhere else. */
  lemma NapiPlaces(s: State)
    requires s.napi && Mode(s.own, true) && CanTx(s) && !AtWord(s.own.tx)
    ensures s.own.tx.TxIdle? || s.own.tx.TxGot? || s.own.tx.TxTest? || s.own.tx.TxReset?
  {
  }

  lemma TxStrands(s: State, junk: bool)
    requires Inv(s) && s.napi && !AnyStranded(s) && CanTx(s)
    ensures AnyStranded(TxStep(s, junk)) <==> DropsReport(s, TxGo(junk))
  {
    if s.own.tx.TxRead? {
      PeerClearStrands(s, junk);
    } else if s.own.tx.DoneStore? {
      StoreStrands(s, junk);
    } else if s.own.tx.DoneRead? {
      OwnClearStrands(s, junk);
    } else {
      OthersStrandNothing(s, junk);
    }
  }

  lemma OthersStrandNothing(s: State, junk: bool)
    requires s.napi && Mode(s.own, true) && !AnyStranded(s) && CanTx(s)
    requires !s.own.tx.TxRead? && !s.own.tx.DoneStore? && !s.own.tx.DoneRead?
    ensures !AnyStranded(TxStep(s, junk))
  {
    if !AtWord(s.own.tx) {
      NapiPlaces(s);
    }
    if s.own.tx.TxReset? {
      ResetStrandsNothing(s, junk);
    } else if s.own.tx.TxCall? {
      CallStrandsNothing(s, junk);
    } else if s.own.tx.DoneLoad? || s.own.tx.DoneCall? {
      LoadStrandsNothing(s, junk);
    } else {
      SendStrandsNothing(s, junk);
    }
  }

  /** With NAPI a step leaves packets with interrupts on and nobody to report them if and
      only if it re-enables interrupts blindly or loses a report in the status word. */
  lemma ActStrandsExactlyWhenBlindOrLost(s: State, act: Action)
    requires Inv(s) && s.napi && !AnyStranded(s) && CanAct(s, act)
    ensures AnyStranded(Act(s, act)) <==> BlindReenable(s, act) || DropsReport(s, act)
  {
    if act.TxGo? {
      TxStrands(s, act.junk);
    } else if Polls(act) {
      PollStrands(s, act);
    }
  }

  // ---------- runs ----------

  predicate Blind(s: State, e: Event) {
    BlindReenable(From(s, e.d), e.act)
  }

  predicate Drops(s: State, e: Event) {
    DropsReport(From(s, e.d), e.act)
  }

  /** A run in which no report gets lost... */
  ghost predicate KeptRun(s: State, es: seq<Event>, s': State)
    decreases |es|
  {
    if es == [] then s' == s
    else Enabled(s, es[0]) && !Drops(s, es[0]) && KeptRun(Step(s, es[0]), es[1..], s')
  }

  /** ...and nobody re-enables blindly. */
  ghost predicate SightedRun(s: State, es: seq<Event>, s': State)
    decreases |es|
  {
    if es == [] then s' == s
    else
      Enabled(s, es[0]) && !Drops(s, es[0]) && !Blind(s, es[0]) && SightedRun(Step(s, es[0]), es[1..], s')
  }

  lemma StrandedFrom(s: State, d: Id)
    ensures AnyStranded(From(s, d)) <==> AnyStranded(s)
  {
    FlipTwice(s);
  }

  lemma {:induction false} SightedRunStrandsNothing(s: State, es: seq<Event>, s': State)
    requires Inv(s) && s.napi && !AnyStranded(s) && SightedRun(s, es, s')
    ensures Inv(s') && s'.napi && !AnyStranded(s')
    decreases |es|
  {
    if es != [] {
      var e := es[0];
      InvFrom(s, e.d);
      StrandedFrom(s, e.d);
      ActStrandsExactlyWhenBlindOrLost(From(s, e.d), e.act);
      OtherFieldsStay(From(s, e.d), e.act);
      StrandedFrom(Act(From(s, e.d), e.act), s.id);
      StepKeepsInv(s, e);
      SightedRunStrandsNothing(Step(s, e), es[1..], s');
    }
  }

  /** NAPI mitigation.  As long as no report is lost and no re-enabling is blind, a
      non-empty receive queue with no report on its way has receive interrupts off and a
      poll scheduled. */
  lemma MitigationStrandsNoPacket(poolSize: nat, es: seq<Event>, s: State, d: Id)
    requires 0 < poolSize && SightedRun(Init(poolSize, true), es, s)
    ensures var t := From(s, d);
      t.own.rxq != [] && !Reported(t) ==> !t.own.rxInt && t.own.scheduled
  {
    InitInv(poolSize, true);
    SightedRunStrandsNothing(Init(poolSize, true), es, s);
    InvFrom(s, d);
    StrandedFrom(s, d);
  }

  // ---------- polls that end in one step ----------

  predicate LeavesLoop(s: State, e: Event)
    requires Enabled(s, e)
  {
    var own := From(s, e.d).own;
    e.act == PollExit && own.poll.n < own.poll.budget
  }

  /** A run in which nothing comes between a poll's last look at the queue and the
      end of that poll: its end is one step. */
  ghost predicate AtomicRun(s: State, es: seq<Event>, s': State)
    decreases |es|
  {
    if es == [] then s' == s
    else
      && Enabled(s, es[0])
      && if LeavesLoop(s, es[0]) then
           && 1 < |es| && es[1] == On(es[0].d, PollReenable)
           && Enabled(Step(s, es[0]), es[1]) && AtomicRun(Step(Step(s, es[0]), es[1]), es[2..], s')
         else
           AtomicRun(Step(s, es[0]), es[1..], s')
  }

  /** No poll is between its last look and re-enabling. */
  predicate NoPollEnding(s: State) {
    s.own.poll != PollDone && s.peer.poll != PollDone
  }

  lemma TxLeavesPolls(s: State, junk: bool)
    ensures TxStep(s, junk).own.poll == s.own.poll && TxStep(s, junk).peer.poll == s.peer.poll
  {
  }

  lemma PollMovesItself(s: State, act: Action)
    requires CanAct(s, act) && Polls(act)
    ensures PollStep(s, act).peer.poll == s.peer.poll
    ensures PollStep(s, act).own.poll == PollDone ==> act == PollExit && s.own.poll.n < s.own.poll.budget
  {
  }

  lemma OnlyLeavingEndsPolls(s: State, e: Event)
    requires NoPollEnding(s) && Enabled(s, e) && !LeavesLoop(s, e)
    ensures NoPollEnding(Step(s, e)) && !Blind(s, e)
  {
    var t := From(s, e.d);
    if e.act.TxGo? {
      TxLeavesPolls(t, e.act.junk);
    } else if Polls(e.act) {
      PollMovesItself(t, e.act);
    }
  }

  /** A poll that leaves its loop below budget and re-enables before the peer gets a
      packet in does so over an empty queue. */
  lemma PollEnds(s: State, e: Event, f: Event)
    requires NoPollEnding(s) && Enabled(s, e) && LeavesLoop(s, e)
    requires f == On(e.d, PollReenable) && Enabled(Step(s, e), f)
    ensures !Blind(s, e) && !Blind(Step(s, e), f) && NoPollEnding(Step(Step(s, e), f))
  {
    var t := From(s, e.d);
    FlipTwice(s);
    FlipTwice(Act(t, PollExit));
    assert From(Step(s, e), e.d) == Act(t, PollExit);
    UninterruptedPollIsSighted(t);
  }

  lemma UninterruptedPollIsSighted(s: State)
    requires CanAct(s, PollExit) && s.own.poll.n < s.own.poll.budget
    ensures var t := Act(s, PollExit);
      && t.own.rxq == [] && t.own.poll == PollDone && t.peer.poll == s.peer.poll
      && (CanAct(t, PollReenable) ==>
            Act(t, PollReenable).own.poll == PollIdle && Act(t, PollReenable).peer.poll == t.peer.poll)
  {
  }

  lemma {:induction false} AtomicRunsAreSighted(s: State, es: seq<Event>, s': State)
    requires NoPollEnding(s) && AtomicRun(s, es, s') && KeptRun(s, es, s')
    ensures SightedRun(s, es, s') && NoPollEnding(s')
    decreases |es|
  {
    if es != [] {
      var t := Step(s, es[0]);
      if LeavesLoop(s, es[0]) {
        PollEnds(s, es[0], es[1]);
        assert es[1..][1..] == es[2..];
        AtomicRunsAreSighted(Step(t, es[1]), es[2..], s');
        assert SightedRun(t, es[1..], s');
      } else {
        OnlyLeavingEndsPolls(s, es[0]);
        AtomicRunsAreSighted(t, es[1..], s');
      }
    }
  }

  /** With the end of each poll taken as one step, in every run that loses no report: a
      non-empty receive queue with no report on its way has receive interrupts off and a
      poll scheduled. */
  lemma AtomicPollsStrandNothing(poolSize: nat, es: seq<Event>, s: State, d: Id)
    requires 0 < poolSize && AtomicRun(Init(poolSize, true), es, s) && KeptRun(Init(poolSize, true), es, s)
    ensures var t := From(s, d);
      t.own.rxq != [] && !Reported(t) ==> !t.own.rxInt && t.own.scheduled
  {
    AtomicRunsAreSighted(Init(poolSize, true), es, s);
    MitigationStrandsNoPacket(poolSize, es, s, d);
  }

  // ---------- what the lock would do ----------

  /** Somebody has loaded the status word of own and is yet to store or clear it. */
  predicate Engaged(s: State) {
    s.own.tx.DoneStore? || s.own.tx.DoneRead? || s.peer.tx.TxStore? || s.peer.tx.TxRead?
  }

  /** A step that would have to wait if the bits were set under the lock of the handlers. */
  predicate Excluded(s: State, act: Action) {
    act.TxGo? && (
      || ((s.own.tx.DoneLoad? || s.own.tx.DoneCall?) && Engaged(s))
      || ((s.own.tx.TxLoad? || s.own.tx.TxCall?) && Engaged(s.Flip())))
  }

  ghost predicate ExclusiveRun(s: State, es: seq<Event>, s': State)
    decreases |es|
  {
    if es == [] then s' == s
    else
      && Enabled(s, es[0]) && !Excluded(From(s, es[0].d), es[0].act)
      && ExclusiveRun(Step(s, es[0]), es[1..], s')
  }

  /** One at a time has own's word, and it is still what has been loaded. */
  predicate Fresh(s: State) {
    && (s.own.tx.DoneStore? || s.own.tx.DoneRead? ==>
          s.own.tx.w == s.own.status && !s.peer.tx.TxStore? && !s.peer.tx.TxRead?)
    && (s.peer.tx.TxStore? || s.peer.tx.TxRead? ==> s.peer.tx.w == s.own.status)
  }

  predicate BothFresh(s: State) {
    Fresh(s) && Fresh(s.Flip())
  }

  lemma FreshDropsNothing(s: State, act: Action)
    requires BothFresh(s)
    ensures !DropsReport(s, act)
  {
  }

  lemma SendKeepsFresh(s: State, junk: bool)
    requires BothFresh(s) && CanTx(s) && !Excluded(s, TxGo(junk))
    requires s.own.tx.TxLoad? || s.own.tx.TxStore? || s.own.tx.TxCall? || s.own.tx.TxRead?
    ensures BothFresh(TxStep(s, junk))
  {
  }

  lemma DoneKeepsFresh(s: State, junk: bool)
    requires BothFresh(s) && CanTx(s) && !Excluded(s, TxGo(junk))
    requires s.own.tx.DoneLoad? || s.own.tx.DoneStore? || s.own.tx.DoneCall? || s.own.tx.DoneRead?
    ensures BothFresh(TxStep(s, junk))
  {
  }

  /** Elsewhere nobody touches a status word or gets hold of one. */
  lemma OthersLeaveStatus(s: State, junk: bool)
    requires !AtWord(s.own.tx)
    ensures TxEffect(s, junk).own.status == s.own.status && TxEffect(s, junk).peer.status == s.peer.status
    ensures !NextTx(s).TxStore? && !NextTx(s).TxRead? && !NextTx(s).DoneStore? && !NextTx(s).DoneRead?
  {
    match s.own.tx
    case TxHold(p) => PushReportsNothing(s, p);
    case DoneHold(_, p) => PushReportsNothing(s, p);
    case TxPushed(p, _) => WakeReportsNothing(s, p, junk);
    case DonePushed(_, p, _) => WakeReportsNothing(s, p, junk);
    case _ =>
  }

  lemma PollLeavesStatus(s: State, act: Action)
    requires CanAct(s, act) && Polls(act)
    ensures PollStep(s, act).own.status == s.own.status && PollStep(s, act).peer.status == s.peer.status
    ensures PollStep(s, act).own.tx == s.own.tx && PollStep(s, act).peer.tx == s.peer.tx
  {
    if act.PollRelease? {
      PushReportsNothing(s, s.own.poll.p);
    } else if act.PollWake? {
      WakeReportsNothing(s, s.own.poll.p, act.junk);
    }
  }

  lemma ActKeepsFresh(s: State, act: Action)
    requires BothFresh(s) && CanAct(s, act) && !Excluded(s, act)
    ensures BothFresh(Act(s, act))
  {
    if Polls(act) {
      PollLeavesStatus(s, act);
    } else if act.TxGo? {
      if !AtWord(s.own.tx) {
        OthersLeaveStatus(s, act.junk);
      } else if s.own.tx.TxLoad? || s.own.tx.TxStore? || s.own.tx.TxCall? || s.own.tx.TxRead? {
        SendKeepsFresh(s, act.junk);
      } else {
        DoneKeepsFresh(s, act.junk);
      }
    }
  }

  lemma FreshFrom(s: State, d: Id)
    ensures BothFresh(From(s, d)) <==> BothFresh(s)
  {
    FlipTwice(s);
  }

  /** So if the bits were set under the lock no report would get lost. */
  lemma {:induction false} ExclusiveRunsLoseNothing(s: State, es: seq<Event>, s': State)
    requires BothFresh(s) && ExclusiveRun(s, es, s')
    ensures KeptRun(s, es, s')
    decreases |es|
  {
    if es != [] {
      var e := es[0];
      var t := From(s, e.d);
      FreshFrom(s, e.d);
      FreshDropsNothing(t, e.act);
      ActKeepsFresh(t, e.act);
      FreshFrom(Act(t, e.act), s.id);
      ExclusiveRunsLoseNothing(Step(s, e), es[1..], s');
    }
  }

  /** With that and atomic polls no packet would be stranded. */
  lemma LockedStatusStrandsNothing(poolSize: nat, es: seq<Event>, s: State, d: Id)
    requires 0 < poolSize && AtomicRun(Init(poolSize, true), es, s) && ExclusiveRun(Init(poolSize, true), es, s)
    ensures var t := From(s, d);
      t.own.rxq != [] && !Reported(t) ==> !t.own.rxInt && t.own.scheduled
  {
    ExclusiveRunsLoseNothing(Init(poolSize, true), es, s);
    AtomicPollsStrandNothing(poolSize, es, s, d);
  }
}
