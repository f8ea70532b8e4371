/** Runs of snull that go wrong, step by step from the start. */
module SnullRuns {
  import opened SnullProtocol
  import opened SnullMitigation

  /** The state s, seen from either device, is reached by a run. */
  ghost predicate Reached(start: State, s: State) {
    exists es :: Run(start, es, From(s, A))
  }

  lemma {:induction false} RunSnoc(s: State, es: seq<Event>, t: State, e: Event)
    requires Run(s, es, t) && Enabled(t, e)
    ensures Run(s, es + [e], Step(t, e))
    decreases |es|
  {
    if es == [] {
      assert [e][1..] == [];
    } else {
      RunSnoc(Step(s, es[0]), es[1..], t, e);
      assert (es + [e])[1..] == es[1..] + [e];
    }
  }

  lemma Turn(start: State, s: State)
    requires Reached(start, s)
    ensures Reached(start, s.Flip())
  {
    FlipTwice(s);
    assert From(s.Flip(), A) == From(s, A);
  }

  lemma Begin(start: State)
    requires start.id == A
    ensures Reached(start, start)
  {
    assert Run(start, [], From(start, A));
  }

  /** One more step, of the device called own. */
  lemma Play(start: State, s: State, act: Action) returns (s': State)
    requires Reached(start, s) && CanAct(s, act)
    ensures s' == Act(s, act) && Reached(start, s')
  {
    s' := Act(s, act);
    var a, e := From(s, A), On(s.id, act);
    var es :| Run(start, es, a);
    FlipTwice(s);
    assert From(a, s.id) == s && a.id == A;
    OtherFieldsStay(s, act);
    RunSnoc(start, es, a, e);
    FlipTwice(s');
    assert Run(start, es + [e], From(s', A));
  }

  /** Of the other one. */
  lemma PlayPeer(start: State, s: State, act: Action) returns (s': State)
    requires Reached(start, s) && CanAct(s.Flip(), act)
    ensures s' == Act(s.Flip(), act).Flip() && Reached(start, s')
  {
    Turn(start, s);
    s' := Play(start, s.Flip(), act);
    Turn(start, s');
    s' := s'.Flip();
  }

  /** The next step of the transmitter. */
  lemma PlayTx(start: State, s: State) returns (s': State)
    requires Reached(start, s) && CanTx(s)
    ensures s' == TxStep(s, false) && Reached(start, s')
  {
    s' := Play(start, s, TxGo(false));
  }

  // ---------- parts of a transmission ----------

  /** A packet is taken from the pool and queued. */
  lemma PlayQueue(start: State, s: State) returns (s': State)
    requires Reached(start, s) && s.own.tx == TxIdle && CanTx(s) && !PeerLocked(s) && s.own.pool != []
    ensures Reached(start, s')
    ensures s' == s.(
      own := s.own.(pool := s.own.pool[1..], stopped := |s.own.pool| == 1, tx := TxTest),
      peer := s.peer.(rxq := [s.own.pool[0]] + s.peer.rxq),
      nulls := SetNext(s.nulls, s.own.pool[0], s.peer.rxq))
  {
    s' := PlayTx(start, s);
    s' := PlayTx(start, s');
  }

  /** The receive bit of the peer is set, from a word loaded just now. */
  lemma PlaySet(start: State, s: State) returns (s': State)
    requires Reached(start, s) && s.own.tx == TxLoad
    ensures Reached(start, s')
    ensures s' == s.(own := s.own.(tx := TxCall), peer := s.peer.(status := s.peer.status.(rx := true)))
  {
    s' := PlayTx(start, s);
    s' := PlayTx(start, s');
  }

  /** With NAPI, the peer's handler runs. */
  lemma PlayCall(start: State, s: State) returns (s': State)
    requires Reached(start, s) && s.napi && s.own.tx == TxCall && !PeerLocked(s)
    ensures Reached(start, s')
    ensures s' == s.(own := s.own.(tx := DoneLoad(false)), peer := Handled(s.peer, s.peer.status, true))
  {
    s' := PlayTx(start, s);
    s' := PlayTx(start, s');
  }

  /** The device's own bit is set... */
  lemma PlaySent(start: State, s: State) returns (s': State)
    requires Reached(start, s) && s.own.tx.DoneLoad?
    ensures Reached(start, s')
    ensures s' == s.(own := s.own.(tx := DoneCall(s.own.tx.late), status := s.own.status.(sent := true)))
  {
    s' := PlayTx(start, s);
    s' := PlayTx(start, s');
  }

  /** ...and its handler runs. */
  lemma PlayHandler(start: State, s: State) returns (s': State)
    requires Reached(start, s) && s.own.tx.DoneCall? && !s.own.status.rx && !Locked(s)
    ensures Reached(start, s')
    ensures s' == s.(own := s.own.(tx := After(s.own.tx.late), status := NO_INTR))
  {
    s' := PlayTx(start, s);
    s' := PlayTx(start, s');
  }

  lemma PlayDone(start: State, s: State) returns (s': State)
    requires Reached(start, s) && s.own.tx.DoneLoad? && !s.own.status.rx && !Locked(s)
    ensures Reached(start, s')
    ensures s' == s.(own := s.own.(tx := After(s.own.tx.late), status := NO_INTR))
  {
    s' := PlaySent(start, s);
    s' := PlayHandler(start, s');
  }

  /** With interrupts off at the peer. */
  lemma PlaySilent(start: State, s: State) returns (s': State)
    requires Reached(start, s) && s.own.tx == TxIdle && !s.own.stopped && s.own.pool != []
    requires !s.own.status.rx && !s.peer.rxInt && !Locked(s) && !PeerLocked(s)
    ensures Reached(start, s')
    ensures s' == s.(
      own := s.own.(pool := s.own.pool[1..], stopped := |s.own.pool| == 1, status := NO_INTR),
      peer := s.peer.(rxq := [s.own.pool[0]] + s.peer.rxq),
      nulls := SetNext(s.nulls, s.own.pool[0], s.peer.rxq))
  {
    s' := PlayQueue(start, s);
    s' := PlayTx(start, s');
    s' := PlayDone(start, s');
  }

  /** With NAPI and interrupts on. */
  lemma PlayAlone(start: State, s: State) returns (s': State)
    requires Reached(start, s) && s.napi && s.own.tx == TxIdle && !s.own.stopped && s.own.pool != []
    requires !s.own.status.rx && s.peer.rxInt && !s.peer.scheduled && !Locked(s) && !PeerLocked(s)
    ensures Reached(start, s')
    ensures s' == s.(
      own := s.own.(pool := s.own.pool[1..], stopped := |s.own.pool| == 1, tx := DoneLoad(false)),
      peer := s.peer.(rxq := [s.own.pool[0]] + s.peer.rxq, status := NO_INTR, rxInt := false, scheduled := true),
      nulls := SetNext(s.nulls, s.own.pool[0], s.peer.rxq))
  {
    s' := PlayQueue(start, s);
    s' := PlayTx(start, s');
    s' := PlaySet(start, s');
    s' := PlayCall(start, s');
  }

  // ---------- reports lost in the status word ----------

  function Napi(): State {
    Init(2, true)
  }

  lemma PoolsOfTwo()
    ensures Napi().own.pool == [Pkt(A, 1), Pkt(A, 0)] && Napi().peer.pool == [Pkt(B, 3), Pkt(B, 2)]
  {
  }

  function Announcer(): Dev {
    Napi().own.(pool := [Pkt(A, 0)], rxq := [Pkt(B, 3)], rxInt := false, scheduled := true, tx := TxLoad)
  }

  function Completer(): Dev {
    Napi().peer.(pool := [Pkt(B, 2)], rxq := [Pkt(A, 1)], tx := DoneLoad(false))
  }

  /** Each has queued a packet for the other.  B has raised A's interrupt and is about to
      complete; A is about to load B's status. */
  lemma BothSending() returns (s: State)
    ensures Reached(Napi(), s) && s == Napi().(own := Announcer(), peer := Completer(), nulls := s.nulls)
  {
    PoolsOfTwo();
    Begin(Napi());
    Turn(Napi(), Napi());
    s := Napi().Flip();
    s := PlayAlone(Napi(), s);
    Turn(Napi(), s);
    s := s.Flip();
    s := PlayQueue(Napi(), s);
    s := PlayTx(Napi(), s);
  }

  /** Both load B's status; A stores it with the receive bit, and B stores it without.
      A's call of B's handler finds nothing to receive, and neither does B's own.  All is
      quiet, no poll has run, B's interrupts are on, and its packet is on the queue. */
  lemma OverlappingStoresStrand() returns (s: State)
    ensures Reached(Napi(), s) && Stranded(s.Flip())
    ensures s.own.tx == s.peer.tx == TxIdle && s.own.poll == s.peer.poll == PollIdle && !s.peer.scheduled
  {
    s := BothStored();
    s := BothFindNothing(s);
  }

  lemma BothStored() returns (s: State)
    ensures Reached(Napi(), s)
    ensures s == Napi().(own := Announcer().(tx := TxCall),
                         peer := Completer().(tx := DoneCall(false), status := Status(false, true)), nulls := s.nulls)
  {
    s := BothSending();
    s := PlayTx(Napi(), s);
    s := StoreOver(s);
  }

  lemma BothFindNothing(s0: State) returns (s: State)
    requires Reached(Napi(), s0) && s0.id == A && s0.napi && s0.own.tx == TxCall && s0.own.status == NO_INTR
    requires s0.peer.tx == DoneCall(false) && s0.peer.status == Status(false, true)
    ensures Reached(Napi(), s)
    ensures s == s0.(own := s0.own.(tx := TxIdle), peer := s0.peer.(tx := TxIdle, status := NO_INTR))
  {
    s := NothingFound(s0);
    s := Completes(s);
  }

  /** A's call of B's handler finds nothing to receive. */
  lemma NothingFound(s0: State) returns (s: State)
    requires Reached(Napi(), s0) && s0.id == A && s0.napi && s0.own.tx == TxCall && s0.own.status == NO_INTR
    requires !s0.peer.status.rx && !PeerLocked(s0) && !Locked(s0)
    ensures Reached(Napi(), s)
    ensures s == s0.(own := s0.own.(tx := TxIdle), peer := s0.peer.(status := NO_INTR))
  {
    s := PlayCall(Napi(), s0);
    s := PlayDone(Napi(), s);
  }

  /** A has loaded B's empty status; B loads it too, A stores, B stores. */
  lemma StoreOver(s0: State) returns (s: State)
    requires Reached(Napi(), s0) && s0.id == A && s0.own.tx == TxStore(NO_INTR)
    requires s0.peer.tx == DoneLoad(false) && s0.peer.status == NO_INTR
    ensures Reached(Napi(), s)
    ensures s == s0.(own := s0.own.(tx := TxCall),
                     peer := s0.peer.(tx := DoneCall(false), status := Status(false, true)))
  {
    s := PlayPeer(Napi(), s0, TxGo(false));
    s := PlayTx(Napi(), s);
    s := PlayPeer(Napi(), s, TxGo(false));
  }

  /** B's handler runs with nothing to do. */
  lemma Completes(s0: State) returns (s: State)
    requires Reached(Napi(), s0) && s0.id == A && s0.own.tx == TxIdle
    requires s0.peer.tx == DoneCall(false) && s0.peer.status == NO_INTR
    ensures Reached(Napi(), s) && s == s0.(peer := s0.peer.(tx := TxIdle))
  {
    s := PlayPeer(Napi(), s0, TxGo(false));
    s := PlayPeer(Napi(), s, TxGo(false));
  }

  /** Or B's handler has read the word when A sets the bit in it, and then clears it. */
  lemma LateClearStrands() returns (s: State)
    ensures Reached(Napi(), s) && Stranded(s.Flip())
    ensures s.own.tx == s.peer.tx == TxIdle && !s.peer.scheduled
  {
    s := ReadBeforeSet();
    s := NothingFound(s);
  }

  lemma ReadBeforeSet() returns (s: State)
    ensures Reached(Napi(), s)
    ensures s == Napi().(own := Announcer().(tx := TxCall), peer := Completer().(tx := TxIdle), nulls := s.nulls)
  {
    s := BothSending();
    s := ReadEarly(s);
    s := SetAndCleared(s);
  }

  lemma SetAndCleared(s0: State) returns (s: State)
    requires Reached(Napi(), s0) && s0.id == A && s0.own.tx == TxLoad
    requires s0.peer.tx == DoneRead(false, Status(false, true))
    ensures Reached(Napi(), s)
    ensures s == s0.(own := s0.own.(tx := TxCall), peer := s0.peer.(tx := TxIdle, status := NO_INTR))
  {
    s := PlaySet(Napi(), s0);
    s := ClearLate(s);
  }

  lemma ReadEarly(s0: State) returns (s: State)
    requires Reached(Napi(), s0) && s0.id == A && s0.own.tx == TxLoad
    requires s0.peer.tx == DoneLoad(false) && s0.peer.status == NO_INTR
    ensures Reached(Napi(), s)
    ensures s == s0.(peer := s0.peer.(tx := DoneRead(false, Status(false, true)), status := Status(false, true)))
  {
    s := PlayPeer(Napi(), s0, TxGo(false));
    s := PlayPeer(Napi(), s, TxGo(false));
    s := PlayPeer(Napi(), s, TxGo(false));
  }

  lemma ClearLate(s0: State) returns (s: State)
    requires Reached(Napi(), s0) && s0.id == A && s0.peer.tx == DoneRead(false, Status(false, true))
    ensures Reached(Napi(), s) && s == s0.(peer := s0.peer.(tx := TxIdle, status := NO_INTR))
  {
    s := PlayPeer(Napi(), s0, TxGo(false));
  }

  // ---------- polls ----------

  /** A sends one packet... */
  lemma SentOne() returns (s: State)
    ensures Reached(Napi(), s)
    ensures s == Napi().(own := Napi().own.(pool := [Pkt(A, 0)]),
                         peer := Napi().peer.(rxq := [Pkt(A, 1)], rxInt := false, scheduled := true), nulls := s.nulls)
  {
    Begin(Napi());
    s := Napi();
    assert s.own.pool == [Pkt(A, 1), Pkt(A, 0)];
    s := PlayAlone(Napi(), s);
    s := PlayDone(Napi(), s);
    assert s.own.pool == [Pkt(A, 0)];
  }

  /** ...and B's poll takes it... */
  lemma SentAndTaken() returns (s: State)
    ensures Reached(Napi(), s)
    ensures s == Napi().(own := Napi().own.(pool := [Pkt(A, 0)]),
                         peer := Napi().peer.(rxInt := false, scheduled := true, poll := PollHold(Pkt(A, 1), 0, 2)),
                         nulls := s.nulls)
  {
    s := SentOne();
    s := PlayPeer(Napi(), s, PollBegin(2));
    s := PlayPeer(Napi(), s, PollTake);
  }

  /** ...and gives it back, up to the wake test. */
  lemma SentAndReturned() returns (s: State)
    ensures Reached(Napi(), s)
    ensures s == Napi().(peer := Napi().peer.(rxInt := false, scheduled := true,
                                              poll := PollPushed(Pkt(A, 1), 0, 2, false)), nulls := s.nulls)
  {
    PoolsOfTwo();
    s := SentAndTaken();
    s := PlayPeer(Napi(), s, PollRelease);
  }

  /** In NAPI mode the wake test can come too late: with two packets a pool, the
      peer gives one back, the transmitter sends both before the test is made,
      the test wakes a queue whose pool is empty, and the next transmission
      returns with the lock held. */
  lemma LateWakeWedges() returns (s: State)
    ensures Reached(Napi(), s) && s.own.tx == TxWedged
  {
    s := SentAndReturned();
    assert s.own.pool == [Pkt(A, 1), Pkt(A, 0)] && Pkt(A, 1) in SetOf(s.own.pool);
    s := PlaySilent(Napi(), s);
    assert s.own.pool == [Pkt(A, 0)] && Pkt(A, 1) in s.nulls;
    s := PlaySilent(Napi(), s);
    assert s.own.pool == [] && Pkt(A, 1) in s.nulls;
    s := WokenLate(s);
    s := PlayTx(Napi(), s);
  }

  lemma WokenLate(s0: State) returns (s: State)
    requires Reached(Napi(), s0) && s0.id == A && s0.own.stopped
    requires Pkt(A, 1) in s0.own.live && Pkt(A, 1) in s0.nulls && s0.peer.poll == PollPushed(Pkt(A, 1), 0, 2, false)
    ensures Reached(Napi(), s)
    ensures s == s0.(own := s0.own.(stopped := false), peer := s0.peer.(poll := PollLoop(1, 2)))
  {
    s := PlayPeer(Napi(), s0, PollWake(false));
    assert s == s0.(peer := s0.peer.(poll := PollPushed(Pkt(A, 1), 0, 2, true)));
    s := PlayPeer(Napi(), s, PollWake(false));
  }

  /** A poll that does not end in one step can strand a packet: the peer's packet arrives
      after the last look at the queue, finds interrupts off, and is left behind when
      they go on again. */
  lemma LateReenableStrands() returns (s: State)
    ensures Reached(Napi(), s) && Stranded(s.Flip())
  {
    s := SentAndReturned();
    s := LastLook(s);
    s := PlaySilent(Napi(), s);
    s := Reenabled(s);
  }

  lemma Reenabled(s0: State) returns (s: State)
    requires Reached(Napi(), s0) && s0.id == A && s0.own.tx == TxIdle && s0.peer.tx == TxIdle
    requires s0.peer.poll == PollDone && !s0.peer.missed && s0.peer.rxq != [] && !s0.peer.status.rx
    ensures Reached(Napi(), s) && Stranded(s.Flip())
  {
    s := PlayPeer(Napi(), s0, PollReenable);
  }

  lemma LastLook(s0: State) returns (s: State)
    requires Reached(Napi(), s0) && s0.id == A && !s0.own.stopped && s0.peer.rxq == []
    requires s0.peer.poll == PollPushed(Pkt(A, 1), 0, 2, false)
    ensures Reached(Napi(), s) && s == s0.(peer := s0.peer.(poll := PollDone))
  {
    s := PlayPeer(Napi(), s0, PollWake(false));
    s := PlayPeer(Napi(), s, PollExit);
  }

  // ---------- a packet freed before its wake test ----------

  function Regular(): State {
    Init(1, false)
  }

  lemma PoolsOfOne()
    ensures Regular().own.pool == [Pkt(A, 0)] && Regular().own.live == {Pkt(A, 0)}
    ensures Regular().peer.pool == [Pkt(B, 1)] && Regular().peer.live == {Pkt(B, 1)}
  {
  }

  /** A has sent its only packet and is about to enter B's handler. */
  function Caller(): Dev {
    Regular().own.(pool := [], stopped := true, tx := TxCall)
  }

  /** B has completed a transmission and has A's packet in hand. */
  function Taker(): Dev {
    Regular().peer.(tx := DoneHold(false, Pkt(A, 0)))
  }

  /** A has queued its only packet for B and set B's receive bit; it is about to enter B's
      handler. */
  lemma OneSent() returns (s: State)
    ensures Reached(Regular(), s)
    ensures s == Regular().(
      own := Caller(), nulls := s.nulls,
      peer := Regular().peer.(rxq := [Pkt(A, 0)], status := Status(true, false)))
  {
    Begin(Regular());
    PoolsOfOne();
    s := PlayQueue(Regular(), Regular());
    s := PlayTx(Regular(), s);
    s := PlaySet(Regular(), s);
  }

  /** B has started, too. */
  lemma BothSent() returns (s: State)
    ensures Reached(Regular(), s)
    ensures s == Regular().(
      own := Caller().(rxq := [Pkt(B, 1)]),
      peer := Regular().peer.(pool := [], stopped := true, rxq := [Pkt(A, 0)], status := Status(true, false),
                              tx := TxTest),
      nulls := s.nulls)
  {
    PoolsOfOne();
    s := OneSent();
    Turn(Regular(), s);
    s := PlayQueue(Regular(), s.Flip());
    Turn(Regular(), s);
    s := s.Flip();
  }

  /** A device gets its packet back by calling the peer's handler. */
  lemma PlayReturned(s0: State, p: Pkt) returns (s: State)
    requires Reached(Regular(), s0) && !s0.napi && s0.own.tx == TxTest
    requires s0.peer.rxInt && s0.peer.status == NO_INTR
    requires s0.peer.rxq == [p] && s0.own.pool == [] && p.dev == s0.id && s0.own.stopped
    requires !s0.peer.tx.DoneRead? && !s0.peer.tx.TxRead? && s0.peer.tx != TxWedged
    ensures Reached(Regular(), s)
    ensures s == s0.(own := s0.own.(tx := TxPushed(p, true), pool := [p]), peer := s0.peer.(rxq := []),
                     nulls := s0.nulls + {p})
  {
    s := PlayReported(s0);
    s := PlayTaken(s, p);
    s := PlayPushed(s, p);
  }

  lemma PlayReported(s0: State) returns (s: State)
    requires Reached(Regular(), s0) && s0.own.tx == TxTest && s0.peer.rxInt
    ensures Reached(Regular(), s)
    ensures s == s0.(own := s0.own.(tx := TxCall), peer := s0.peer.(status := s0.peer.status.(rx := true)))
  {
    s := PlayTx(Regular(), s0);
    s := PlaySet(Regular(), s);
  }

  lemma PlayPushed(s0: State, p: Pkt) returns (s: State)
    requires Reached(Regular(), s0) && s0.own.tx == TxHold(p) && p.dev == s0.id && s0.own.stopped && s0.own.pool == []
    requires !Locked(s0)
    ensures Reached(Regular(), s)
    ensures s == s0.(own := s0.own.(tx := TxPushed(p, true), pool := [p]), nulls := s0.nulls + {p})
  {
    s := PlayTx(Regular(), s0);
    s := PlayTx(Regular(), s);
  }

  lemma PlayTaken(s0: State, p: Pkt) returns (s: State)
    requires Reached(Regular(), s0) && !s0.napi && s0.own.tx == TxCall && !PeerLocked(s0)
    requires s0.peer.status == Status(true, false) && s0.peer.rxq == [p]
    ensures Reached(Regular(), s)
    ensures s == s0.(own := s0.own.(tx := TxHold(p)), peer := s0.peer.(rxq := [], status := NO_INTR))
  {
    s := PlayTx(Regular(), s0);
    s := PlayTx(Regular(), s);
  }

  /** B, completing its own transmission, takes A's packet off its queue. */
  lemma TakenByOwnHandler() returns (s: State)
    ensures Reached(Regular(), s) && s == Regular().(own := Caller(), peer := Taker(), nulls := s.nulls)
  {
    PoolsOfOne();
    s := BothSent();
    Turn(Regular(), s);
    s := s.Flip();
    s := PlayReturned(s, Pkt(B, 1));
    s := PlayTx(Regular(), s);
    assert s.own.tx == DoneLoad(false) && s.own.status == Status(true, false);
    s := PlayOwnHandler(s, Pkt(A, 0));
    Turn(Regular(), s);
    s := s.Flip();
  }

  /** A device's completion finds the receive bit set. */
  lemma PlayOwnHandler(s0: State, p: Pkt) returns (s: State)
    requires Reached(Regular(), s0) && !s0.napi && s0.own.tx == DoneLoad(false) && !Locked(s0)
    requires s0.own.status == Status(true, false) && s0.own.rxq == [p]
    ensures Reached(Regular(), s)
    ensures s == s0.(own := s0.own.(tx := DoneHold(false, p), rxq := [], status := NO_INTR))
  {
    s := PlaySent(Regular(), s0);
    s := PlayTx(Regular(), s);
    s := PlayTx(Regular(), s);
  }

  /** A's transmission ends; B gives the packet back and finds A's queue stopped. */
  lemma ReturnedByOwnHandler() returns (s: State)
    ensures Reached(Regular(), s)
    ensures s == Regular().(own := Caller().(tx := TxIdle, pool := [Pkt(A, 0)]),
                            peer := Taker().(tx := DonePushed(false, Pkt(A, 0), true)), nulls := s.nulls)
  {
    s := TakenByOwnHandler();
    s := EndsWithNothing(s);
    Turn(Regular(), s);
    s := s.Flip();
    s := PlayGivesBack(s, Pkt(A, 0));
    Turn(Regular(), s);
    s := s.Flip();
  }

  /** A device's call of the peer's handler, and its own, find nothing to receive. */
  lemma EndsWithNothing(s0: State) returns (s: State)
    requires Reached(Regular(), s0) && s0.own.tx == TxCall && s0.own.status == NO_INTR
    requires s0.peer.tx.DoneHold? && s0.peer.status == NO_INTR
    ensures Reached(Regular(), s) && s == s0.(own := s0.own.(tx := TxIdle))
  {
    s := PlayTx(Regular(), s0);
    s := PlayTx(Regular(), s);
    assert s == s0.(own := s0.own.(tx := DoneLoad(false)));
    s := PlayDone(Regular(), s);
  }

  /** A device gives the peer's packet back and finds the peer's queue stopped. */
  lemma PlayGivesBack(s0: State, p: Pkt) returns (s: State)
    requires Reached(Regular(), s0) && s0.own.tx == DoneHold(false, p) && p.dev == Other(s0.id)
    requires !PeerLocked(s0)
    requires s0.peer.stopped
    ensures Reached(Regular(), s)
    ensures s == s0.(own := s0.own.(tx := DonePushed(false, p, true)), peer := s0.peer.(pool := [p] + s0.peer.pool),
                     nulls := SetNext(s0.nulls, p, s0.peer.pool))
  {
    s := PlayTx(Regular(), s0);
    s := PlayTx(Regular(), s);
  }

  /** A timeout of A frees the packet and sets up a new pool of one... */
  lemma TimedOut(s0: State) returns (s: State)
    requires Reached(Regular(), s0) && s0.id == A && s0.poolSize == 1 && s0.serial == 2
    requires s0.own.tx == TxIdle && s0.own.status == NO_INTR && s0.own.pool == [Pkt(A, 0)] && s0.own.stopped
    requires s0.own.live == {Pkt(A, 0)} && s0.peer.tx == DonePushed(false, Pkt(A, 0), true)
    ensures Reached(Regular(), s)
    ensures s == s0.(own := s0.own.(pool := [Pkt(A, 2)], live := {Pkt(A, 2)}, stopped := false, atReset := 0),
                     serial := 3, nulls := s.nulls)
  {
    s := Play(Regular(), s0, Timeout);
    s := PlayDone(Regular(), s);
    assert s.own == s0.own.(tx := TxReset);
    s := PlayTx(Regular(), s);
    ResetOfOne(s0.own, s.own);
  }

  lemma ResetOfOne(x: Dev, y: Dev)
    requires x.pool == [Pkt(A, 0)] && x.live == {Pkt(A, 0)}
    requires y.pool == NewPool(A, 2, 1) && y.live == InFlight(x) + SetOf(y.pool)
    ensures y.pool == [Pkt(A, 2)] && y.live == {Pkt(A, 2)} && InFlight(x) == {}
  {
    assert y.pool[0] == Pkt(A, 2);
  }

  /** ...which the next transmission takes.  B's test then reads a freed packet, and may
      wake the queue over an empty pool: in regular mode, too, a timeout can end the
      discipline. */
  lemma FreedPacketWakes() returns (s: State)
    ensures Reached(Regular(), s) && !s.own.stopped && s.own.pool == []
  {
    PoolsOfOne();
    s := ReturnedByOwnHandler();
    s := TimedOut(s);
    s := TestedLate(s);
  }

  lemma TestedLate(s0: State) returns (s: State)
    requires Reached(Regular(), s0) && s0.id == A && s0.own.tx == TxIdle && !s0.own.stopped
    requires s0.own.pool == [Pkt(A, 2)] && s0.own.live == {Pkt(A, 2)}
    requires s0.peer.tx == DonePushed(false, Pkt(A, 0), true)
    ensures Reached(Regular(), s) && !s.own.stopped && s.own.pool == []
  {
    s := PlayTx(Regular(), s0);
    s := PlayPeer(Regular(), s, TxGo(true));
  }
}
