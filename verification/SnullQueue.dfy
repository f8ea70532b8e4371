/** The transmit queue of snull: stopped when the pool runs empty, woken by the unlocked
    test of snull_release_buffer(). */
module SnullQueue {
  import opened SnullProtocol

  function ByTransmitter(tx: Tx): set<Pkt> {
    if tx.TxPushed? then {tx.p} else {}
  }

  function ByOwnHandler(tx: Tx): set<Pkt> {
    if tx.DonePushed? then {tx.p} else {}
  }

  function ByPoll(poll: Poll): set<Pkt> {
    if poll.PollPushed? then {poll.p} else {}
  }

  /** Own packets that have been given back and still owe the wake test: by the peer's
      poll, or in regular mode by a handler inside either transmit call. */
  function Returned(s: State): set<Pkt> {
    ByTransmitter(s.own.tx) + ByOwnHandler(s.peer.tx) + ByPoll(s.peer.poll)
  }

  function Last(pool: seq<Pkt>): Pkt
    requires pool != []
  {
    pool[|pool| - 1]
  }

  /** If the queue is stopped over a non-empty pool, the packet that ended the shortage
      still owes its wake test, and will find what it looks for. */
  predicate Owed(pool: seq<Pkt>, stopped: bool, returned: set<Pkt>, nulls: set<Pkt>, napi: bool) {
    stopped && pool != [] ==> Last(pool) in returned && Last(pool) in nulls && (napi ==> |pool| == 1)
  }

  predicate WakeOwed(s: State) {
    Owed(s.own.pool, s.own.stopped, Returned(s), s.nulls, s.napi)
  }

  predicate BothOwed(s: State) {
    WakeOwed(s) && WakeOwed(s.Flip())
  }

  /** The queue runs only over a non-empty pool, and nobody has taken the empty-pool
      branch. */
  predicate Fed(x: Dev) {
    (!x.stopped ==> x.pool != []) && x.tx != TxWedged
  }

  predicate BothFed(s: State) {
    Fed(s.own) && Fed(s.peer)
  }

  /** The queue is stopped exactly when the pool is empty, except that the packet which
      ended a shortage may still owe its wake test. */
  predicate Disciplined(s: State) {
    BothOwed(s) && BothFed(s)
  }

  /** The second half of a wake test. */
  predicate Tests(s: State, act: Action) {
    || (act.TxGo? && (s.own.tx.TxPushed? || s.own.tx.DonePushed?) && s.own.tx.looked)
    || (act.PollWake? && s.own.poll.PollPushed? && s.own.poll.looked)
  }

  function Tested(s: State, act: Action): Pkt
    requires Tests(s, act)
  {
    if act.TxGo? then s.own.tx.p else s.own.poll.p
  }

  predicate WakesEmpty(s: State, p: Pkt, junk: bool) {
    var x := Home(s, p);
    x.stopped && SeesNull(x, s.nulls, p, junk) && x.pool == []
  }

  /** It wakes a queue whose pool is empty: the packet that was returned has left again,
      or been freed, meanwhile. */
  predicate SpuriousWake(s: State, act: Action) {
    Tests(s, act) && WakesEmpty(s, Tested(s, act), act.junk)
  }

  /** A packet in a pool is that device's, and allocated. */
  lemma PoolOwned(s: State, p: Pkt)
    requires Owned(s) && p in s.own.pool
    ensures p.dev == s.id && p in s.own.live
  {
    assert p in Places(s.own, s.peer);
  }

  lemma PoolsOwned(s: State)
    requires BothOwned(s)
    ensures forall p <- s.own.pool :: p.dev == s.id && p in s.own.live
    ensures forall p <- s.peer.pool :: p.dev == Other(s.id) && p in s.peer.live
  {
    forall p <- s.own.pool ensures p.dev == s.id && p in s.own.live { PoolOwned(s, p); }
    forall p <- s.peer.pool ensures p.dev == Other(s.id) && p in s.peer.live { PoolOwned(s.Flip(), p); }
  }

  // ---------- what a step does to one queue ----------

  lemma SameOwed(pool: seq<Pkt>, stopped: bool, returned: set<Pkt>, nulls: set<Pkt>, napi: bool,
                 returned': set<Pkt>, nulls': set<Pkt>)
    requires Owed(pool, stopped, returned, nulls, napi) && (stopped ==> returned <= returned')
    requires forall p <- pool :: p in nulls ==> p in nulls'
    ensures Owed(pool, stopped, returned', nulls', napi)
  {
    assert pool != [] ==> Last(pool) in pool;
  }

  /** A packet comes home. */
  lemma PushOwed(pool: seq<Pkt>, stopped: bool, returned: set<Pkt>, nulls: set<Pkt>, napi: bool,
                 p: Pkt, returned': set<Pkt>)
    requires Owed(pool, stopped, returned, nulls, napi) && p !in pool && returned + {p} <= returned'
    requires napi ==> returned == {}
    ensures Owed([p] + pool, stopped, returned', SetNext(nulls, p, pool), napi)
  {
    if pool != [] {
      assert Last([p] + pool) == Last(pool) && Last(pool) in pool;
    }
  }

  /** It is tested. */
  lemma TestOwed(x: Dev, returned: set<Pkt>, nulls: set<Pkt>, napi: bool, p: Pkt, junk: bool, returned': set<Pkt>)
    requires Owed(x.pool, x.stopped, returned, nulls, napi) && returned - {p} <= returned'
    requires forall q <- x.pool :: q in x.live
    ensures Owed(x.pool, WakeTest(x, nulls, p, junk).stopped, returned', nulls, napi)
  {
    if x.pool != [] {
      assert Last(x.pool) in x.pool;
    }
  }

  predicate SameQueue(x: Dev, y: Dev) {
    x.pool == y.pool && x.stopped == y.stopped
  }

  /** The transmitter goes on without a look at either pool. */
  predicate Quiet(tx: Tx) {
    tx.TxTest? || tx.TxLoad? || tx.TxStore? || tx.TxCall? || tx.TxRead? ||
    tx.DoneLoad? || tx.DoneStore? || tx.DoneCall? || tx.DoneRead?
  }

  lemma QuietEffect(s: State, junk: bool)
    requires Quiet(s.own.tx)
    ensures var t := TxEffect(s, junk);
      && SameQueue(s.own, t.own) && SameQueue(s.peer, t.peer) && t.nulls == s.nulls
      && t.own.poll == s.own.poll && t.peer.tx == s.peer.tx && t.peer.poll == s.peer.poll
      && t.own.live == s.own.live && t.peer.live == s.peer.live
    ensures !NextTx(s).TxPushed? && !NextTx(s).DonePushed? && !NextTx(s).TxWedged?
  {
    match s.own.tx
    case _ =>
  }

  // ---------- no wake is lost ----------

  lemma QuietKeepsOwed(s: State, junk: bool)
    requires BothOwed(s) && Quiet(s.own.tx)
    ensures BothOwed(TxStep(s, junk))
  {
    QuietEffect(s, junk);
    EffectKeepsFields(s, junk);
  }

  lemma GetKeepsOwed(s: State, junk: bool)
    requires BothOwed(s) && s.own.tx == TxIdle && !s.own.stopped
    ensures BothOwed(TxStep(s, junk))
  {
  }

  lemma EnqueueKeepsOwed(s: State, junk: bool)
    requires BothOwned(s) && BothOwed(s) && s.own.tx.TxGot?
    ensures BothOwed(TxStep(s, junk))
  {
    HandsOwned(s);
    PoolsOwned(s);
    var t := TxStep(s, junk);
    SameOwed(s.own.pool, s.own.stopped, Returned(s), s.nulls, s.napi, Returned(t), t.nulls);
    SameOwed(s.peer.pool, s.peer.stopped, Returned(s.Flip()), s.nulls, s.napi, Returned(t.Flip()), t.nulls);
  }

  lemma TxReleaseKeepsOwed(s: State, junk: bool)
    requires Inv(s) && BothOwed(s) && s.own.tx.TxHold?
    ensures BothOwed(TxStep(s, junk))
  {
    HandsOwned(s);
    PoolsOwned(s);
    var t := TxStep(s, junk);
    PushOwed(s.own.pool, s.own.stopped, Returned(s), s.nulls, s.napi, s.own.tx.p, Returned(t));
    SameOwed(s.peer.pool, s.peer.stopped, Returned(s.Flip()), s.nulls, s.napi, Returned(t.Flip()), t.nulls);
  }

  lemma DoneReleaseKeepsOwed(s: State, junk: bool)
    requires Inv(s) && BothOwed(s) && s.own.tx.DoneHold?
    ensures BothOwed(TxStep(s, junk))
  {
    HandsOwned(s);
    PoolsOwned(s);
    var t := TxStep(s, junk);
    PushOwed(s.peer.pool, s.peer.stopped, Returned(s.Flip()), s.nulls, s.napi, s.own.tx.p, Returned(t.Flip()));
    SameOwed(s.own.pool, s.own.stopped, Returned(s), s.nulls, s.napi, Returned(t), t.nulls);
  }

  lemma PollReleaseKeepsOwed(s: State)
    requires Inv(s) && BothOwed(s) && CanAct(s, PollRelease)
    ensures BothOwed(PollStep(s, PollRelease))
  {
    HandsOwned(s);
    PoolsOwned(s);
    var t := PollStep(s, PollRelease);
    PushOwed(s.peer.pool, s.peer.stopped, Returned(s.Flip()), s.nulls, s.napi, s.own.poll.p, Returned(t.Flip()));
    SameOwed(s.own.pool, s.own.stopped, Returned(s), s.nulls, s.napi, Returned(t), t.nulls);
  }

  /** The first half of a wake test ends it only if the queue runs. */
  lemma TxLookKeepsOwed(s: State, junk: bool)
    requires Inv(s) && BothOwed(s) && s.own.tx.TxPushed? && !s.own.tx.looked
    ensures BothOwed(TxStep(s, junk))
  {
    var t := TxStep(s, junk);
    SameOwed(s.own.pool, s.own.stopped, Returned(s), s.nulls, s.napi, Returned(t), t.nulls);
    SameOwed(s.peer.pool, s.peer.stopped, Returned(s.Flip()), s.nulls, s.napi, Returned(t.Flip()), t.nulls);
  }

  lemma DoneLookKeepsOwed(s: State, junk: bool)
    requires Inv(s) && BothOwed(s) && s.own.tx.DonePushed? && !s.own.tx.looked
    ensures BothOwed(TxStep(s, junk))
  {
    var t := TxStep(s, junk);
    SameOwed(s.own.pool, s.own.stopped, Returned(s), s.nulls, s.napi, Returned(t), t.nulls);
    SameOwed(s.peer.pool, s.peer.stopped, Returned(s.Flip()), s.nulls, s.napi, Returned(t.Flip()), t.nulls);
  }

  /** The second half, of a packet of the peer's or of the device's own. */
  lemma WakeKeepsOwed(s: State, p: Pkt, junk: bool, returned: set<Pkt>, returned': set<Pkt>)
    requires BothOwned(s) && Owed(s.own.pool, s.own.stopped, returned, s.nulls, s.napi)
    requires if p.dev == s.id then returned - {p} <= returned' else returned <= returned'
    ensures Owed(s.own.pool, Wake(s, p, junk).own.stopped, returned', s.nulls, s.napi)
    ensures Wake(s, p, junk).own.pool == s.own.pool && Wake(s, p, junk).nulls == s.nulls
    ensures Wake(s, p, junk).napi == s.napi
  {
    if p.dev == s.id {
      PoolsOwned(s);
      TestOwed(s.own, returned, s.nulls, s.napi, p, junk, returned');
    } else {
      SameOwed(s.own.pool, s.own.stopped, returned, s.nulls, s.napi, returned', s.nulls);
    }
  }

  lemma WakeFlips(s: State, p: Pkt, junk: bool)
    requires p.dev == s.id || p.dev == Other(s.id)
    ensures Wake(s.Flip(), p, junk) == Wake(s, p, junk).Flip()
  {
  }

  /** Then the transmitter goes on. */
  lemma GotoOwes(w: State, tx: Tx)
    requires Owed(w.own.pool, w.own.stopped, Returned(Goto(w, tx)), w.nulls, w.napi)
    requires Owed(w.peer.pool, w.peer.stopped, Returned(Goto(w, tx).Flip()), w.nulls, w.napi)
    ensures BothOwed(Goto(w, tx))
  {
  }

  /** What is returned depends on the places alone. */
  lemma SamePlaceReturned(s: State, t: State)
    requires SamePlace(s, t)
    ensures Returned(t) == Returned(s) && Returned(t.Flip()) == Returned(s.Flip())
  {
  }

  /** The packet tested is owed no more; the others still are. */
  lemma TxTestReturns(s: State, next: Tx)
    requires s.own.tx.TxPushed? && !next.TxPushed? && !next.DonePushed?
    ensures Returned(s) - {s.own.tx.p} <= Returned(Goto(s, next))
    ensures Returned(Goto(s, next).Flip()) == Returned(s.Flip())
  {
  }

  lemma DoneTestReturns(s: State, next: Tx)
    requires s.own.tx.DonePushed? && !next.TxPushed? && !next.DonePushed?
    ensures Returned(s.Flip()) - {s.own.tx.p} <= Returned(Goto(s, next).Flip())
    ensures Returned(Goto(s, next)) == Returned(s)
  {
  }

  lemma TestKeepsOwed(s: State, p: Pkt, junk: bool, next: Tx)
    requires BothOwed(s) && BothOwned(s) && (p.dev == s.id || p.dev == Other(s.id))
    requires
      if p.dev == s.id then Returned(s) - {p} <= Returned(Goto(s, next))
      else Returned(s) <= Returned(Goto(s, next))
    requires
      if p.dev == s.id then Returned(s.Flip()) <= Returned(Goto(s, next).Flip())
      else Returned(s.Flip()) - {p} <= Returned(Goto(s, next).Flip())
    ensures BothOwed(Goto(Wake(s, p, junk), next))
  {
    var w := Wake(s, p, junk);
    SamePlaceReturned(Goto(s, next), Goto(w, next));
    WakeFlips(s, p, junk);
    WakeKeepsOwed(s, p, junk, Returned(s), Returned(Goto(w, next)));
    WakeKeepsOwed(s.Flip(), p, junk, Returned(s.Flip()), Returned(Goto(w, next).Flip()));
    GotoOwes(w, next);
  }

  lemma TxTestKeepsOwed(s: State, junk: bool)
    requires Inv(s) && BothOwed(s) && s.own.tx.TxPushed? && s.own.tx.looked
    ensures BothOwed(TxStep(s, junk))
  {
    var p, next := s.own.tx.p, NextTx(s);
    TxTestReturns(s, next);
    TestKeepsOwed(s, p, junk, next);
  }

  lemma DoneTestKeepsOwed(s: State, junk: bool)
    requires Inv(s) && BothOwed(s) && s.own.tx.DonePushed? && s.own.tx.looked
    ensures BothOwed(TxStep(s, junk))
  {
    var p, next := s.own.tx.p, NextTx(s);
    DoneTestReturns(s, next);
    TestKeepsOwed(s, p, junk, next);
  }

  lemma PollWakeKeepsOwed(s: State, junk: bool)
    requires Inv(s) && BothOwed(s) && CanAct(s, PollWake(junk))
    ensures BothOwed(PollStep(s, PollWake(junk)))
  {
    PoolsOwned(s);
    var t := PollStep(s, PollWake(junk));
    if s.own.poll.looked {
      TestOwed(s.peer, Returned(s.Flip()), s.nulls, s.napi, s.own.poll.p, junk, Returned(t.Flip()));
    } else {
      SameOwed(s.peer.pool, s.peer.stopped, Returned(s.Flip()), s.nulls, s.napi, Returned(t.Flip()), t.nulls);
    }
    SameOwed(s.own.pool, s.own.stopped, Returned(s), s.nulls, s.napi, Returned(t), t.nulls);
  }

  lemma ResetKeepsOwed(s: State, junk: bool)
    requires BothOwed(s) && s.own.tx == TxReset
    ensures BothOwed(TxStep(s, junk))
  {
    var t := TxStep(s, junk);
    SameOwed(s.peer.pool, s.peer.stopped, Returned(s.Flip()), s.nulls, s.napi, Returned(t.Flip()), t.nulls);
  }

  lemma OtherPollsKeepOwed(s: State, act: Action)
    requires BothOwed(s) && CanAct(s, act) && Polls(act) && !act.PollRelease? && !act.PollWake?
    ensures BothOwed(PollStep(s, act))
  {
  }

  lemma TxKeepsOwed(s: State, junk: bool)
    requires Inv(s) && BothOwed(s) && CanTx(s)
    ensures BothOwed(TxStep(s, junk))
  {
    if Quiet(s.own.tx) {
      QuietKeepsOwed(s, junk);
    } else {
      match s.own.tx
      case TxIdle => GetKeepsOwed(s, junk);
      case TxGot(_) => EnqueueKeepsOwed(s, junk);
      case TxHold(_) => TxReleaseKeepsOwed(s, junk);
      case DoneHold(_, _) => DoneReleaseKeepsOwed(s, junk);
      case TxReset => ResetKeepsOwed(s, junk);
      case TxPushed(_, looked) => if looked { TxTestKeepsOwed(s, junk); } else { TxLookKeepsOwed(s, junk); }
      case DonePushed(_, _, looked) => if looked { DoneTestKeepsOwed(s, junk); } else { DoneLookKeepsOwed(s, junk); }
    }
  }

  /** No wake is lost, whether or not another one was spurious. */
  lemma ActKeepsOwed(s: State, act: Action)
    requires Inv(s) && BothOwed(s) && CanAct(s, act)
    ensures BothOwed(Act(s, act))
  {
    match act
    case TxGo(junk) => TxKeepsOwed(s, junk);
    case Timeout =>
    case PollRelease => PollReleaseKeepsOwed(s);
    case PollWake(junk) => PollWakeKeepsOwed(s, junk);
    case _ => OtherPollsKeepOwed(s, act);
  }

  // ---------- only a spurious wake leaves the discipline ----------

  lemma GotoKeepsFed(s: State, tx: Tx)
    requires tx != TxWedged && s.own.tx != TxWedged
    ensures BothFed(Goto(s, tx)) <==> BothFed(s)
  {
  }

  lemma PushKeepsFed(s: State, p: Pkt)
    requires BothFed(s)
    ensures BothFed(Push(s, p))
  {
  }

  lemma WakeKeepsFed(s: State, p: Pkt, junk: bool)
    requires BothFed(s)
    ensures BothFed(Wake(s, p, junk)) <==> !WakesEmpty(s, p, junk)
  {
  }

  lemma EffectKeepsFed(s: State, junk: bool)
    requires 0 < s.poolSize && BothFed(s) && s.own.tx != TxIdle
    ensures BothFed(TxEffect(s, junk)) <==> !SpuriousWake(s, TxGo(junk))
    ensures TxEffect(s, junk).own.tx == s.own.tx
  {
    if Quiet(s.own.tx) {
      QuietEffect(s, junk);
    } else {
      match s.own.tx
      case TxHold(p) => PushKeepsFed(s, p);
      case DoneHold(_, p) => PushKeepsFed(s, p);
      case TxPushed(p, _) => WakeKeepsFed(s, p, junk);
      case DonePushed(_, p, _) => WakeKeepsFed(s, p, junk);
      case _ =>
    }
  }

  lemma OnlyIdleWedges(s: State)
    requires s.own.tx != TxWedged && s.own.tx != TxIdle
    ensures NextTx(s) != TxWedged
  {
  }

  lemma GetKeepsFed(s: State, junk: bool)
    requires BothFed(s) && s.own.tx == TxIdle && !s.own.stopped
    ensures BothFed(TxStep(s, junk))
  {
  }

  lemma TxKeepsFed(s: State, junk: bool)
    requires 0 < s.poolSize && BothFed(s) && CanTx(s)
    ensures BothFed(TxStep(s, junk)) <==> !SpuriousWake(s, TxGo(junk))
  {
    if s.own.tx == TxIdle {
      GetKeepsFed(s, junk);
    } else {
      EffectKeepsFed(s, junk);
      OnlyIdleWedges(s);
      GotoKeepsFed(TxEffect(s, junk), NextTx(s));
    }
  }

  lemma PollKeepsFed(s: State, act: Action)
    requires BothFed(s) && CanAct(s, act) && Polls(act)
    ensures BothFed(PollStep(s, act)) <==> !SpuriousWake(s, act)
  {
    if act.PollRelease? {
      PushKeepsFed(s, s.own.poll.p);
    } else if act.PollWake? {
      WakeKeepsFed(s, s.own.poll.p, act.junk);
    }
  }

  lemma ActKeepsDiscipline(s: State, act: Action)
    requires Inv(s) && Disciplined(s) && CanAct(s, act)
    ensures Disciplined(Act(s, act)) <==> !SpuriousWake(s, act)
  {
    ActKeepsOwed(s, act);
    if act.TxGo? {
      TxKeepsFed(s, act.junk);
    } else if Polls(act) {
      PollKeepsFed(s, act);
    }
  }

  // ---------- runs ----------

  lemma DisciplineFrom(s: State, d: Id)
    ensures Disciplined(From(s, d)) <==> Disciplined(s)
    ensures BothOwed(From(s, d)) <==> BothOwed(s)
  {
    FlipTwice(s);
  }

  lemma InitIsDisciplined(poolSize: nat, napi: bool)
    requires 0 < poolSize
    ensures Inv(Init(poolSize, napi)) && Disciplined(Init(poolSize, napi))
  {
    InitInv(poolSize, napi);
  }

  predicate Spurious(s: State, e: Event) {
    SpuriousWake(From(s, e.d), e.act)
  }

  lemma StepKeepsOwed(s: State, e: Event)
    requires Inv(s) && BothOwed(s) && Enabled(s, e)
    ensures Inv(Step(s, e)) && BothOwed(Step(s, e))
  {
    InvFrom(s, e.d);
    DisciplineFrom(s, e.d);
    ActKeepsOwed(From(s, e.d), e.act);
    DisciplineFrom(Act(From(s, e.d), e.act), s.id);
    StepKeepsInv(s, e);
  }

  /** One step from a good state is good exactly when it is not a spurious wake. */
  lemma DisciplineFailsExactlyOnSpuriousWakes(s: State, e: Event)
    requires Inv(s) && Disciplined(s) && Enabled(s, e)
    ensures Inv(Step(s, e)) && (Disciplined(Step(s, e)) <==> !Spurious(s, e))
  {
    InvFrom(s, e.d);
    DisciplineFrom(s, e.d);
    ActKeepsDiscipline(From(s, e.d), e.act);
    DisciplineFrom(Act(From(s, e.d), e.act), s.id);
    StepKeepsInv(s, e);
  }

  /** A run in which no wake test is spurious. */
  ghost predicate PromptRun(s: State, es: seq<Event>, s': State)
    decreases |es|
  {
    if es == [] then s' == s
    else Enabled(s, es[0]) && !Spurious(s, es[0]) && PromptRun(Step(s, es[0]), es[1..], s')
  }

  lemma {:induction false} PromptRunKeepsDiscipline(s: State, es: seq<Event>, s': State)
    requires Inv(s) && Disciplined(s) && PromptRun(s, es, s')
    ensures Inv(s') && Disciplined(s')
    decreases |es|
  {
    if es != [] {
      DisciplineFailsExactlyOnSpuriousWakes(s, es[0]);
      PromptRunKeepsDiscipline(Step(s, es[0]), es[1..], s');
    }
  }

  lemma {:induction false} RunKeepsOwed(s: State, es: seq<Event>, s': State)
    requires Inv(s) && BothOwed(s) && Run(s, es, s')
    ensures Inv(s') && BothOwed(s') && s'.napi == s.napi
    decreases |es|
  {
    if es != [] {
      StepKeepsOwed(s, es[0]);
      OtherFieldsStay(From(s, es[0].d), es[0].act);
      RunKeepsOwed(Step(s, es[0]), es[1..], s');
    }
  }

  /** No wake is lost.  In every run of either mode, spurious wakes and timeouts
      included, if a transmit queue is stopped over a non-empty pool, the packet that
      came first into that pool owes a wake test and will pass it; with NAPI there is
      no other packet there; and when no test is owed the pool is empty. */
  lemma StoppedQueueIsOwedAWake(poolSize: nat, napi: bool, es: seq<Event>, s: State, d: Id)
    requires 0 < poolSize && Run(Init(poolSize, napi), es, s)
    ensures var t := From(s, d);
      && (t.own.stopped && t.own.pool != [] ==>
            Last(t.own.pool) in Returned(t) && Last(t.own.pool) in t.nulls && (napi ==> |t.own.pool| == 1))
      && (t.own.stopped && Returned(t) == {} ==> t.own.pool == [])
  {
    InitIsDisciplined(poolSize, napi);
    RunKeepsOwed(Init(poolSize, napi), es, s);
    DisciplineFrom(s, d);
  }

  /** The queue is stopped when the pool is empty, and up to a wake test still owed only
      then; a transmission finds a packet. */
  predicate StopsWithThePool(s: State) {
    && s.own.tx != TxWedged
    && (s.own.pool == [] ==> s.own.stopped)
    && (Returned(s) == {} ==> (s.own.stopped <==> s.own.pool == []))
    && (s.own.tx == TxIdle && CanTx(s) ==> s.own.pool != [])
  }

  /** Stop/wake discipline.  As long as no wake test is spurious, the transmit queue is
      stopped whenever the pool is empty, so exactly then up to a wake test still owed,
      and snull_get_tx_buffer() never meets an empty pool. */
  lemma QueueStopsWithThePool(poolSize: nat, napi: bool, es: seq<Event>, s: State, d: Id)
    requires 0 < poolSize && PromptRun(Init(poolSize, napi), es, s)
    ensures StopsWithThePool(From(s, d))
  {
    InitIsDisciplined(poolSize, napi);
    PromptRunKeepsDiscipline(Init(poolSize, napi), es, s);
    DisciplineFrom(s, d);
  }

  // ---------- regular mode ----------

  /** Does the transmitter have an own packet that it is sure to return, as long as the
      peer's transmitter leaves the peer's status and queue alone? */
  predicate ComesBack(s: State) {
    || s.own.tx.TxGot? || s.own.tx.TxHold?
    || (s.peer.rxq != [] && (
         || s.own.tx.TxTest? || s.own.tx.TxLoad? || s.own.tx.TxStore?
         || (s.own.tx.TxCall? && s.peer.status.rx) || (s.own.tx.TxRead? && s.own.tx.w.rx)))
  }

  predicate Late(tx: Tx) {
    || tx.TxReset? || ((tx.DoneLoad? || tx.DoneStore? || tx.DoneCall?) && tx.late)
    || ((tx.DoneRead? || tx.DoneHold? || tx.DonePushed?) && tx.late)
  }

  /** While the peer's own handler owes the wake test of a packet p that is still
      allocated, either p is in the pool, or the queue will not stop. */
  predicate SafeFor(s: State, p: Pkt) {
    if s.own.stopped || Late(s.own.tx) then
      p in s.own.pool && (s.own.stopped && s.own.tx.TxPushed? ==> s.own.tx.p != p)
    else
      |s.own.pool| + (if ComesBack(s) then 1 else 0) >= 2
  }

  predicate Safe(s: State) {
    s.peer.tx.DonePushed? ==>
      s.peer.tx.p.serial < s.serial && (s.peer.tx.p in s.own.live ==> SafeFor(s, s.peer.tx.p))
  }

  predicate BothSafe(s: State) {
    Safe(s) && Safe(s.Flip())
  }

  lemma TwoInPool(pool: seq<Pkt>, p: Pkt, q: Pkt)
    requires p in pool && q in pool && p != q
    ensures 2 <= |pool|
  {
  }

  /** The transmitter's first half with the peer at its test. */
  lemma SendKeepsSafe(s: State, junk: bool)
    requires !s.napi && s.peer.rxInt && CanTx(s) && s.peer.tx.DonePushed? && SafeFor(s, s.peer.tx.p)
    requires s.own.tx.TxIdle? || s.own.tx.TxGot? || s.own.tx.TxTest? || s.own.tx.TxLoad? || s.own.tx.TxStore? ||
             s.own.tx.TxCall?
    ensures SafeFor(TxStep(s, junk), s.peer.tx.p)
  {
  }

  lemma PeerHandlerKeepsSafe(s: State, junk: bool)
    requires !s.napi && s.peer.tx.DonePushed? && SafeFor(s, s.peer.tx.p) && s.own.tx.TxRead?
    ensures SafeFor(TxStep(s, junk), s.peer.tx.p)
  {
  }

  lemma ReleaseKeepsSafe(s: State, junk: bool)
    requires BothOwned(s) && s.peer.tx.DonePushed? && SafeFor(s, s.peer.tx.p) && s.own.tx.TxHold?
    ensures SafeFor(TxStep(s, junk), s.peer.tx.p)
  {
    HandsOwned(s);
  }

  lemma TestKeepsSafe(s: State, junk: bool)
    requires Inv(s) && s.peer.tx.DonePushed? && SafeFor(s, s.peer.tx.p) && s.own.tx.TxPushed?
    ensures SafeFor(TxStep(s, junk), s.peer.tx.p)
  {
    if s.own.stopped {
      TwoInPool(s.own.pool, s.own.tx.p, s.peer.tx.p);
    }
  }

  lemma DoneKeepsSafe(s: State, junk: bool)
    requires Inv(s) && s.peer.tx.DonePushed? && SafeFor(s, s.peer.tx.p) && Completing(s.own.tx) && !s.own.tx.TxReset?
    ensures SafeFor(TxStep(s, junk), s.peer.tx.p)
  {
    HandsOwned(s);
    DoneLeavesOwnQueue(s, junk);
    DoneStaysLate(s);
  }

  predicate Completing(tx: Tx) {
    tx.DoneLoad? || tx.DoneStore? || tx.DoneCall? || tx.DoneRead? || tx.DoneHold? || tx.DonePushed? || tx.TxReset?
  }

  /** The device's own handler returns packets of the peer's, and tests its queue. */
  lemma DoneLeavesOwnQueue(s: State, junk: bool)
    requires Completing(s.own.tx) && !s.own.tx.TxReset?
    requires s.own.tx.DoneHold? || s.own.tx.DonePushed? ==> s.own.tx.p.dev == Other(s.id)
    ensures SameQueue(s.own, TxEffect(s, junk).own)
  {
  }

  lemma DoneStaysLate(s: State)
    requires Completing(s.own.tx) && !s.own.tx.TxReset?
    ensures Late(s.own.tx) ==> Late(NextTx(s))
    ensures !Late(s.own.tx) ==> !Late(NextTx(s)) && !ComesBack(s)
    ensures !NextTx(s).TxPushed?
  {
  }

  lemma ResetFrees(s: State, junk: bool, p: Pkt)
    requires Owned(s) && s.own.tx == TxReset && p.serial < s.serial && (p in s.own.live ==> p in s.own.pool)
    ensures p !in TxStep(s, junk).own.live
  {
    NewPoolIsNew(s.id, s.serial, s.poolSize);
  }

  /** Live packets stay live, but for a reset. */
  lemma OnlyResetFrees(s: State, junk: bool)
    ensures s.own.tx != TxReset ==> TxEffect(s, junk).own.live == s.own.live
    ensures TxEffect(s, junk).peer.live == s.peer.live && TxEffect(s, junk).peer.tx == s.peer.tx
  {
    match s.own.tx
    case TxHold(p) => PushFreesNothing(s, p);
    case DoneHold(_, p) => PushFreesNothing(s, p);
    case TxPushed(p, _) => WakeMovesNothing(s, p, junk);
    case DonePushed(_, p, _) => WakeMovesNothing(s, p, junk);
    case _ =>
  }

  lemma PushFreesNothing(s: State, p: Pkt)
    ensures Push(s, p).own.live == s.own.live && Push(s, p).peer.live == s.peer.live
  {
  }

  lemma SerialGrows(s: State, junk: bool)
    ensures s.serial <= TxStep(s, junk).serial
  {
  }

  lemma TxKeepsOwnSafe(s: State, junk: bool)
    requires Inv(s) && !s.napi && Safe(s) && CanTx(s)
    ensures Safe(TxStep(s, junk))
  {
    OnlyResetFrees(s, junk);
    SerialGrows(s, junk);
    if s.peer.tx.DonePushed? && s.peer.tx.p in TxStep(s, junk).own.live {
      if s.own.tx == TxReset {
        ResetFrees(s, junk, s.peer.tx.p);
      } else if Completing(s.own.tx) {
        DoneKeepsSafe(s, junk);
      } else {
        match s.own.tx
        case TxRead(_) => PeerHandlerKeepsSafe(s, junk);
        case TxHold(_) => ReleaseKeepsSafe(s, junk);
        case TxPushed(_, _) => TestKeepsSafe(s, junk);
        case _ => SendKeepsSafe(s, junk);
      }
    }
  }

  /** The device's own handler has returned a packet of the peer's. */
  lemma DoneReleaseIsSafe(s: State, junk: bool)
    requires Inv(s) && Fed(s.peer) && s.own.tx.DoneHold?
    ensures Safe(TxStep(s, junk).Flip())
  {
    HandsOwned(s);
  }

  lemma TxKeepsPeerSafe(s: State, junk: bool)
    requires Inv(s) && Fed(s.peer) && Safe(s.Flip()) && CanTx(s)
    ensures Safe(TxStep(s, junk).Flip())
  {
    if s.own.tx.DoneHold? {
      DoneReleaseIsSafe(s, junk);
    } else {
      NextPushed(s);
    }
  }

  lemma ActKeepsSafe(s: State, act: Action)
    requires Inv(s) && !s.napi && BothFed(s) && BothSafe(s) && CanAct(s, act)
    ensures BothSafe(Act(s, act))
  {
    if act.TxGo? {
      TxKeepsOwnSafe(s, act.junk);
      TxKeepsPeerSafe(s, act.junk);
    }
  }

  /** A wake test that reads a freed packet. */
  predicate FreedTest(s: State, act: Action) {
    Tests(s, act) && Tested(s, act) !in Home(s, Tested(s, act)).live
  }

  /** In regular mode no other wake test is spurious. */
  lemma RegularModeIsSpuriousOnlyOnFreed(s: State, act: Action)
    requires Inv(s) && !s.napi && BothSafe(s) && CanAct(s, act) && !FreedTest(s, act)
    ensures !SpuriousWake(s, act)
  {
  }

  lemma SafeFrom(s: State, d: Id)
    ensures BothSafe(From(s, d)) <==> BothSafe(s)
  {
    FlipTwice(s);
  }

  /** A run in which no wake test reads a freed packet. */
  ghost predicate CleanRun(s: State, es: seq<Event>, s': State)
    decreases |es|
  {
    if es == [] then s' == s
    else
      && Enabled(s, es[0]) && !FreedTest(From(s, es[0].d), es[0].act)
      && CleanRun(Step(s, es[0]), es[1..], s')
  }

  lemma RegularStep(s: State, e: Event)
    requires Inv(s) && !s.napi && Disciplined(s) && BothSafe(s)
    requires Enabled(s, e) && !FreedTest(From(s, e.d), e.act)
    ensures !Spurious(s, e) && Inv(Step(s, e)) && !Step(s, e).napi && Disciplined(Step(s, e)) && BothSafe(Step(s, e))
  {
    var t := From(s, e.d);
    InvFrom(s, e.d);
    SafeFrom(s, e.d);
    DisciplineFrom(s, e.d);
    RegularModeIsSpuriousOnlyOnFreed(t, e.act);
    DisciplineFailsExactlyOnSpuriousWakes(s, e);
    ActKeepsSafe(t, e.act);
    OtherFieldsStay(t, e.act);
    SafeFrom(Act(t, e.act), s.id);
  }

  /** In regular mode such a run is prompt. */
  lemma {:induction false} CleanRegularRunsArePrompt(s: State, es: seq<Event>, s': State)
    requires Inv(s) && !s.napi && Disciplined(s) && BothSafe(s) && CleanRun(s, es, s')
    ensures PromptRun(s, es, s')
    decreases |es|
  {
    if es != [] {
      RegularStep(s, es[0]);
      CleanRegularRunsArePrompt(Step(s, es[0]), es[1..], s');
    }
  }

  /** So in regular mode, whoever handles whose packets, as long as no wake test reads a
      freed packet the transmit queue is stopped exactly when the pool is empty, up to a
      handler that is about to wake it, and the empty-pool branch of
      snull_get_tx_buffer() is never taken. */
  lemma RegularModeIsDisciplined(poolSize: nat, es: seq<Event>, s: State, d: Id)
    requires 0 < poolSize && CleanRun(Init(poolSize, false), es, s)
    ensures StopsWithThePool(From(s, d))
  {
    InitIsDisciplined(poolSize, false);
    CleanRegularRunsArePrompt(Init(poolSize, false), es, s);
    QueueStopsWithThePool(poolSize, false, es, s, d);
  }

  // ---------- only a timeout frees packets ----------

  /** No timeout is under way, and what has been returned is allocated. */
  predicate Untimed(s: State) {
    !Late(s.own.tx) && forall p <- Returned(s) :: p in s.own.live
  }

  predicate BothUntimed(s: State) {
    Untimed(s) && Untimed(s.Flip())
  }

  lemma TxKeepsUntimed(s: State, junk: bool)
    requires Inv(s) && BothUntimed(s) && CanTx(s)
    ensures BothUntimed(TxStep(s, junk))
  {
    HandsOwned(s);
    NextPushed(s);
    OnlyResetFrees(s, junk);
    NextIsNotLate(s);
  }

  lemma NextIsNotLate(s: State)
    requires !Late(s.own.tx)
    ensures !Late(NextTx(s))
  {
  }

  lemma PollKeepsUntimed(s: State, act: Action)
    requires Inv(s) && BothUntimed(s) && CanAct(s, act) && Polls(act)
    ensures BothUntimed(PollStep(s, act))
  {
    HandsOwned(s);
    PollLeavesTransmitter(s, act);
  }

  lemma UntimedIsClean(s: State, act: Action)
    requires Inv(s) && BothUntimed(s) && CanAct(s, act)
    ensures !FreedTest(s, act)
  {
  }

  lemma UntimedFrom(s: State, d: Id)
    ensures BothUntimed(From(s, d)) <==> BothUntimed(s)
  {
    FlipTwice(s);
  }

  /** So a run without timeouts is clean. */
  lemma {:induction false} UntimedRunsAreClean(s: State, es: seq<Event>, s': State)
    requires Inv(s) && BothUntimed(s) && Run(s, es, s') && forall e <- es :: e.act != Timeout
    ensures CleanRun(s, es, s')
    decreases |es|
  {
    if es != [] {
      var e := es[0];
      var t := From(s, e.d);
      InvFrom(s, e.d);
      UntimedFrom(s, e.d);
      UntimedIsClean(t, e.act);
      if e.act.TxGo? {
        TxKeepsUntimed(t, e.act.junk);
      } else {
        PollKeepsUntimed(t, e.act);
      }
      UntimedFrom(Act(t, e.act), s.id);
      StepKeepsInv(s, e);
      UntimedRunsAreClean(Step(s, e), es[1..], s');
    }
  }

  lemma RegularModeWithoutTimeouts(poolSize: nat, es: seq<Event>, s: State, d: Id)
    requires 0 < poolSize && Run(Init(poolSize, false), es, s) && forall e <- es :: e.act != Timeout
    ensures StopsWithThePool(From(s, d))
  {
    InitIsDisciplined(poolSize, false);
    UntimedRunsAreClean(Init(poolSize, false), es, s);
    RegularModeIsDisciplined(poolSize, es, s, d);
  }
}
