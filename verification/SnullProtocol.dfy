/** snull/snull.c: two interfaces that lend packets to each other, in NAPI and in
    interrupt-per-packet mode, from open to stop, without lockup simulation.  A step is
    a section under one lock, or one load or store outside: rx_int_enabled is tested,
    and the bits of the status word are set, without the lock that the interrupt
    handlers hold.  A handler reads the word in one step, and clears it and does the rest
    in another. */
module SnullProtocol {

  datatype Id = A | B

  function Other(d: Id): Id {
    if d == A then B else A
  }

  /** A packet never changes its pkt->dev. */
  datatype Pkt = Pkt(dev: Id, serial: nat)

  /** SNULL_RX_INTR, SNULL_TX_INTR */
  datatype Status = Status(rx: bool, sent: bool)

  const NO_INTR: Status := Status(false, false)

  /** snull_hw_tx(), first about the peer, then about the device itself.  A timeout goes
      through the second part (late) and then resets the pool.  A packet that a handler
      has taken off a queue, in regular mode, goes back to its pool and is then tested for
      the end of a shortage: first the queue's state (looked, if it was found stopped),
      then the packet's next field. */
  datatype Tx =
    | TxIdle
    | TxGot(p: Pkt)                       // taken from the pool
    | TxTest                              // on the peer's queue; about to test rx_int_enabled
    | TxLoad                              // about to load the peer's status
    | TxStore(w: Status)                  // about to store it, with the receive bit
    | TxCall                              // about to enter the peer's handler
    | TxRead(w: Status)                   // has its lock, and has read the word
    | TxHold(p: Pkt)                      // the handler has taken a packet
    | TxPushed(p: Pkt, looked: bool)      // it is back in its pool
    | DoneLoad(late: bool)                // the same with the device's own status
    | DoneStore(late: bool, w: Status)
    | DoneCall(late: bool)
    | DoneRead(late: bool, w: Status)
    | DoneHold(late: bool, p: Pkt)
    | DonePushed(late: bool, p: Pkt, looked: bool)
    | TxReset                             // a timeout, about to set up a new pool
    | TxWedged                            // "Out of Pool": returned with the lock held

  datatype Poll =
    | PollIdle
    | PollLoop(n: nat, budget: nat)
    | PollHold(p: Pkt, n: nat, budget: nat)
    | PollPushed(p: Pkt, n: nat, budget: nat, looked: bool)
    | PollDone                                 // npackets < budget: about to re-enable

  datatype Dev = Dev(
    pool: seq<Pkt>,       // ppool, head first
    rxq: seq<Pkt>,        // rx_queue, head first
    stopped: bool,        // the transmit queue
    rxInt: bool,
    status: Status,
    scheduled: bool,      // from napi_schedule() to napi_complete_done()
    missed: bool,         // scheduled once more meanwhile
    tx: Tx, poll: Poll,
    live: set<Pkt>,       // allocated and not freed
    atReset: nat)         // own packets in flight when the pool was last set up

  /** Both devices, seen from the one named id.  nulls holds the packets whose
      next field is NULL. */
  datatype State = State(id: Id, own: Dev, peer: Dev, nulls: set<Pkt>, serial: nat, poolSize: nat, napi: bool)
  {
    /** The same state seen from the other device. */
    function Flip(): State {
      this.(id := Other(id), own := peer, peer := own)
    }
  }

  /** What a test reads in the next field of a freed packet is junk. */
  datatype Action =
    | TxGo(junk: bool)    // the transmitter, or the timeout, takes its next step
    | Timeout             // snull_tx_timeout() begins
    | PollBegin(budget: nat)
    | PollTake
    | PollRelease
    | PollWake(junk: bool)
    | PollExit
    | PollReenable

  datatype Event = On(d: Id, act: Action)

  /** snull_setup_pool(): n new packets, the last one made at the head. */
  function NewPool(d: Id, first: nat, n: nat): (pool: seq<Pkt>)
    ensures |pool| == n
    ensures forall i :: 0 <= i < n ==> pool[i] == Pkt(d, first + n - 1 - i)
  {
    seq(n, i requires 0 <= i < n => Pkt(d, first + n - 1 - i))
  }

  function SetOf(s: seq<Pkt>): set<Pkt> {
    set p | p in s
  }

  function NewDev(d: Id, first: nat, n: nat): Dev {
    var pool := NewPool(d, first, n);
    Dev(pool, [], false, true, NO_INTR, false, false, TxIdle, PollIdle, SetOf(pool), 0)
  }

  /** Both interfaces initialised and opened. */
  function Init(poolSize: nat, napi: bool): State {
    State(A, NewDev(A, 0, poolSize), NewDev(B, poolSize, poolSize),
          {Pkt(A, 0), Pkt(B, poolSize)}, 2 * poolSize, poolSize, napi)
  }

  function SetNext(nulls: set<Pkt>, p: Pkt, onto: seq<Pkt>): set<Pkt> {
    if onto == [] then nulls + {p} else nulls - {p}
  }

  // ---------- steps ----------

  /** Somebody has the lock of the device called own: a handler, or whoever has run into
      an empty pool. */
  predicate Locked(s: State) {
    s.own.tx.DoneRead? || s.peer.tx.TxRead? || s.own.tx.TxWedged?
  }

  predicate PeerLocked(s: State) {
    Locked(s.Flip())
  }

  /** So is the device that a packet belongs to. */
  predicate HomeLocked(s: State, p: Pkt) {
    if p.dev == s.id then Locked(s) else PeerLocked(s)
  }

  function Home(s: State, p: Pkt): Dev {
    if p.dev == s.id then s.own else s.peer
  }

  predicate CanTx(s: State) {
    match s.own.tx
    case TxIdle => !s.own.stopped && !Locked(s)
    case TxGot(_) => !PeerLocked(s)
    case TxCall => !PeerLocked(s)
    case DoneCall(_) => !Locked(s)
    case TxHold(p) => !HomeLocked(s, p)
    case DoneHold(_, p) => !HomeLocked(s, p)
    case TxReset => !Locked(s)
    case TxWedged => false
    case _ => true
  }

  /** May the device called own take this step? */
  predicate CanAct(s: State, act: Action) {
    match act
    case TxGo(_) => CanTx(s)
    case Timeout => s.own.stopped && s.own.tx == TxIdle
    case PollBegin(_) => s.own.scheduled && s.own.poll == PollIdle
    case PollTake => s.own.poll.PollLoop? && s.own.poll.n < s.own.poll.budget && s.own.rxq != [] && !Locked(s)
    case PollRelease => s.own.poll.PollHold? && !HomeLocked(s, s.own.poll.p)
    case PollWake(_) => s.own.poll.PollPushed?
    case PollExit => s.own.poll.PollLoop? && (s.own.poll.n >= s.own.poll.budget || s.own.rxq == [])
    case PollReenable => s.own.poll == PollDone && !Locked(s)
  }

  /** Everybody is at the same place in his program. */
  predicate SamePlace(s: State, t: State) {
    s.own.tx == t.own.tx && s.own.poll == t.own.poll && s.peer.tx == t.peer.tx && s.peer.poll == t.peer.poll
  }

  /** snull_get_tx_buffer() on a pool that is not empty */
  function Get(x: Dev): Dev
    requires x.pool != []
  {
    x.(pool := x.pool[1..], stopped := x.stopped || |x.pool| == 1)
  }

  /** The locked part of a handler, from the clear of the status word on. */
  function Handled(x: Dev, w: Status, napi: bool): (y: Dev)
    ensures y.pool == x.pool && y.stopped == x.stopped && y.live == x.live && y.tx == x.tx && y.poll == x.poll
  {
    if !w.rx then x.(status := NO_INTR)
    else if napi then x.(status := NO_INTR, rxInt := false, scheduled := true, missed := x.missed || x.scheduled)
    else if x.rxq == [] then x.(status := NO_INTR)
    else x.(status := NO_INTR, rxq := x.rxq[1..])
  }

  /** In regular mode it takes a packet. */
  predicate Takes(x: Dev, w: Status, napi: bool) {
    !napi && w.rx && x.rxq != []
  }

  /** The locked part of snull_release_buffer(): p goes back to its own device. */
  function Push(s: State, p: Pkt): (t: State)
    ensures SamePlace(s, t)
  {
    if p.dev == s.id then
      s.(own := s.own.(pool := [p] + s.own.pool), nulls := SetNext(s.nulls, p, s.own.pool))
    else
      s.(peer := s.peer.(pool := [p] + s.peer.pool), nulls := SetNext(s.nulls, p, s.peer.pool))
  }

  /** What its unlocked test reads in pkt->next: anything once the packet is freed. */
  predicate SeesNull(x: Dev, nulls: set<Pkt>, p: Pkt, junk: bool) {
    if p in x.live then p in nulls else junk
  }

  function WakeTest(x: Dev, nulls: set<Pkt>, p: Pkt, junk: bool): Dev {
    x.(stopped := x.stopped && !SeesNull(x, nulls, p, junk))
  }

  /** The packet's own device is looked up through pkt->dev. */
  function Wake(s: State, p: Pkt, junk: bool): (t: State)
    ensures SamePlace(s, t)
  {
    if p.dev == s.id then s.(own := WakeTest(s.own, s.nulls, p, junk))
    else s.(peer := WakeTest(s.peer, s.nulls, p, junk))
  }

  function InFlight(x: Dev): set<Pkt> {
    x.live - SetOf(x.pool)
  }

  /** snull_teardown_pool(), snull_setup_pool(), netif_wake_queue() */
  function Reset(s: State): (t: State)
    ensures SamePlace(s, t)
  {
    var pool := NewPool(s.id, s.serial, s.poolSize);
    var flying := InFlight(s.own);
    s.(own := s.own.(pool := pool, live := flying + SetOf(pool), atReset := |flying|, stopped := false),
       serial := s.serial + s.poolSize, nulls := s.nulls + {Pkt(s.id, s.serial)})
  }

  /** What comes after the device's own handler. */
  function After(late: bool): Tx {
    if late then TxReset else TxIdle
  }

  /** Where the transmitter goes from here: first about the peer, then about the device
      itself. */
  function NextTx(s: State): Tx {
    match s.own.tx
    case TxIdle => if s.own.pool == [] then TxWedged else TxGot(s.own.pool[0])
    case TxGot(_) => TxTest
    case TxTest => if s.peer.rxInt then TxLoad else DoneLoad(false)
    case TxLoad => TxStore(s.peer.status)
    case TxStore(_) => TxCall
    case TxCall => TxRead(s.peer.status)
    case TxRead(w) => if Takes(s.peer, w, s.napi) then TxHold(s.peer.rxq[0]) else DoneLoad(false)
    case TxHold(p) => TxPushed(p, false)
    case TxPushed(p, looked) => if !looked && Home(s, p).stopped then TxPushed(p, true) else DoneLoad(false)
    case DoneLoad(late) => DoneStore(late, s.own.status)
    case DoneStore(late, _) => DoneCall(late)
    case DoneCall(late) => DoneRead(late, s.own.status)
    case DoneRead(late, w) => if Takes(s.own, w, s.napi) then DoneHold(late, s.own.rxq[0]) else After(late)
    case DoneHold(late, p) => DonePushed(late, p, false)
    case DonePushed(late, p, looked) =>
      if !looked && Home(s, p).stopped then DonePushed(late, p, true) else After(late)
    case TxReset => TxIdle
    case TxWedged => TxWedged
  }

  /** And what it does there: nobody else goes anywhere. */
  function TxEffect(s: State, junk: bool): (t: State)
    ensures SamePlace(s, t)
  {
    var x := s.own;
    match x.tx
    case TxIdle => if x.pool == [] then s else s.(own := Get(x))
    case TxGot(p) => s.(peer := s.peer.(rxq := [p] + s.peer.rxq), nulls := SetNext(s.nulls, p, s.peer.rxq))
    case TxStore(w) => s.(peer := s.peer.(status := w.(rx := true)))
    case TxRead(w) => s.(peer := Handled(s.peer, w, s.napi))
    case TxHold(p) => Push(s, p)
    case TxPushed(p, looked) => if looked then Wake(s, p, junk) else s
    case DoneStore(_, w) => s.(own := x.(status := w.(sent := true)))
    case DoneRead(_, w) => s.(own := Handled(x, w, s.napi))
    case DoneHold(_, p) => Push(s, p)
    case DonePushed(_, p, looked) => if looked then Wake(s, p, junk) else s
    case TxReset => Reset(s)
    case _ => s
  }

  function Goto(s: State, tx: Tx): State {
    s.(own := s.own.(tx := tx))
  }

  function TxStep(s: State, junk: bool): State {
    Goto(TxEffect(s, junk), NextTx(s))
  }

  /** A poll... */
  predicate Polls(act: Action) {
    !act.TxGo? && !act.Timeout?
  }

  function NextPoll(s: State, act: Action): Poll
    requires CanAct(s, act) && Polls(act)
  {
    var poll := s.own.poll;
    match act
    case PollBegin(budget) => PollLoop(0, budget)
    case PollTake => PollHold(s.own.rxq[0], poll.n, poll.budget)
    case PollRelease => PollPushed(poll.p, poll.n, poll.budget, false)
    case PollWake(_) =>
      if !poll.looked && Home(s, poll.p).stopped then poll.(looked := true) else PollLoop(poll.n + 1, poll.budget)
    case PollExit => if poll.n < poll.budget then PollDone else PollIdle
    case PollReenable => PollIdle
  }

  /** ...and what it does. */
  function PollEffect(s: State, act: Action): State
    requires CanAct(s, act) && Polls(act)
  {
    var x := s.own;
    match act
    case PollTake => s.(own := x.(rxq := x.rxq[1..]))
    case PollRelease => Push(s, x.poll.p)
    case PollWake(junk) => if x.poll.looked then Wake(s, x.poll.p, junk) else s
    case PollReenable =>
      s.(own := if x.missed then x.(missed := false) else x.(scheduled := false, rxInt := true))
    case _ => s
  }

  function PollStep(s: State, act: Action): State
    requires CanAct(s, act) && Polls(act)
  {
    var t := PollEffect(s, act);
    t.(own := t.own.(poll := NextPoll(s, act)))
  }

  /** A step of the device called own. */
  function Act(s: State, act: Action): State
    requires CanAct(s, act)
  {
    match act
    case TxGo(junk) => TxStep(s, junk)
    case Timeout => Goto(s, DoneLoad(true))
    case _ => PollStep(s, act)
  }

  /** The state seen from device d. */
  function From(s: State, d: Id): State {
    if s.id == d then s else s.Flip()
  }

  predicate Enabled(s: State, e: Event) {
    CanAct(From(s, e.d), e.act)
  }

  function Step(s: State, e: Event): State
    requires Enabled(s, e)
  {
    From(Act(From(s, e.d), e.act), s.id)
  }

  ghost predicate Run(s: State, es: seq<Event>, s': State)
    decreases |es|
  {
    if es == [] then s' == s
    else Enabled(s, es[0]) && Run(Step(s, es[0]), es[1..], s')
  }

  // ---------- packet ownership ----------

  datatype Hand = Empty | Has(p: Pkt)

  function Held(h: Hand): multiset<Pkt> {
    if h.Has? then multiset{h.p} else multiset{}
  }

  /** In a transmitter's hands: the device's own packets... */
  function Sending(tx: Tx): Hand {
    if tx.TxGot? || tx.TxHold? then Has(tx.p) else Empty
  }

  /** ...and the peer's, which its handler... */
  function Handling(tx: Tx): Hand {
    if tx.DoneHold? then Has(tx.p) else Empty
  }

  /** ...or its poll has received. */
  function Polling(poll: Poll): Hand {
    if poll.PollHold? then Has(poll.p) else Empty
  }

  /** The hands in which a packet of own may be. */
  datatype Hands = Hands(sending: Hand, handling: Hand, polling: Hand)

  function HandsOf(own: Dev, peer: Dev): Hands {
    Hands(Sending(own.tx), Handling(peer.tx), Polling(peer.poll))
  }

  function InHands(h: Hands): multiset<Pkt> {
    Held(h.sending) + Held(h.handling) + Held(h.polling)
  }

  /** An empty hand takes p. */
  predicate Takeover(h: Hands, h': Hands, p: Pkt) {
    || (h.sending == Empty && h' == h.(sending := Has(p)))
    || (h.handling == Empty && h' == h.(handling := Has(p)))
    || (h.polling == Empty && h' == h.(polling := Has(p)))
  }

  /** Where the packets of a device are, counted once per place: its pool, the hands of
      its transmitter, the peer's receive queue, the hands of the peer's poll and of the
      peer's transmitter in the peer's own handler. */
  function Places(own: Dev, peer: Dev): multiset<Pkt> {
    multiset(own.pool) + multiset(peer.rxq) + InHands(HandsOf(own, peer))
  }

  /** Each allocated packet of own is in exactly one of them, and there are poolSize
      packets plus those that were in flight when the pool was last set up. */
  ghost predicate Owned(s: State) {
    && Places(s.own, s.peer) == multiset(s.own.live)
    && (forall p <- s.own.live :: p.dev == s.id && p.serial < s.serial)
    && |s.own.live| == s.poolSize + s.own.atReset
  }

  ghost predicate BothOwned(s: State) {
    Owned(s) && Owned(s.Flip())
  }

  lemma {:induction false} DistinctSet(s: seq<Pkt>)
    requires forall i, j :: 0 <= i < j < |s| ==> s[i] != s[j]
    ensures multiset(s) == multiset(SetOf(s)) && |SetOf(s)| == |s|
  {
    if s != [] {
      var head, tail := s[0], s[1..];
      DistinctSet(tail);
      assert s == [head] + tail;
      assert head !in tail;
      assert SetOf(s) == {head} + SetOf(tail);
    }
  }

  lemma NewPoolIsNew(d: Id, first: nat, n: nat)
    ensures var pool := NewPool(d, first, n);
      && multiset(pool) == multiset(SetOf(pool)) && |SetOf(pool)| == n
      && forall p <- SetOf(pool) :: p.dev == d && first <= p.serial < first + n
  {
    DistinctSet(NewPool(d, first, n));
  }

  lemma NewDevOwned(s: State, first: nat)
    requires s.own == NewDev(s.id, first, s.poolSize) && first + s.poolSize <= s.serial
    requires s.peer.rxq == [] && s.peer.poll == PollIdle && s.peer.tx == TxIdle
    ensures Owned(s)
  {
    NewPoolIsNew(s.id, first, s.poolSize);
  }

  lemma InitOwned(poolSize: nat, napi: bool)
    ensures BothOwned(Init(poolSize, napi))
  {
    NewDevOwned(Init(poolSize, napi), 0);
    NewDevOwned(Init(poolSize, napi).Flip(), poolSize);
  }

  lemma HeadAndTail(s: seq<Pkt>)
    requires s != []
    ensures multiset(s) == multiset{s[0]} + multiset(s[1..])
  {
    assert s == [s[0]] + s[1..];
  }

  lemma FlyingIsTheRest(pool: multiset<Pkt>, rest: multiset<Pkt>, live: set<Pkt>, inPool: set<Pkt>)
    requires pool + rest == multiset(live)
    requires forall p :: p in inPool <==> p in pool
    ensures rest == multiset(live - inPool)
  {
    forall p
      ensures rest[p] == multiset(live - inPool)[p]
    {
      assert (pool + rest)[p] == multiset(live)[p];
    }
  }

  lemma SetOfBoth(a: set<Pkt>, b: set<Pkt>)
    requires a !! b
    ensures multiset(a + b) == multiset(a) + multiset(b) && |a + b| == |a| + |b|
  {
  }

  /** The new pool and what is in flight make up what is allocated. */
  lemma ResetKeepsPlaces(own: Dev, peer: Dev, pool: seq<Pkt>, own': Dev)
    requires Places(own, peer) == multiset(own.live) && HandsOf(own', peer) == HandsOf(own, peer)
    requires multiset(pool) == multiset(SetOf(pool)) && InFlight(own) !! SetOf(pool)
    requires own'.pool == pool && own'.live == InFlight(own) + SetOf(pool)
    ensures Places(own', peer) == multiset(own'.live)
  {
    var rest := multiset(peer.rxq) + InHands(HandsOf(own, peer));
    assert Places(own, peer) == multiset(own.pool) + rest;
    FlyingIsTheRest(multiset(own.pool), rest, own.live, SetOf(own.pool));
    SetOfBoth(InFlight(own), SetOf(pool));
    assert Places(own', peer) == multiset(pool) + rest;
  }

  lemma NewPoolIsFresh(s: State)
    requires Owned(s)
    ensures InFlight(s.own) !! SetOf(NewPool(s.id, s.serial, s.poolSize))
  {
    NewPoolIsNew(s.id, s.serial, s.poolSize);
  }

  lemma ResetOwned(s: State, junk: bool)
    requires BothOwned(s) && s.own.tx == TxReset
    ensures BothOwned(TxStep(s, junk))
  {
    var pool, t := NewPool(s.id, s.serial, s.poolSize), TxStep(s, junk);
    NewPoolIsNew(s.id, s.serial, s.poolSize);
    NewPoolIsFresh(s);
    ResetKeepsPlaces(s.own, s.peer, pool, t.own);
    SetOfBoth(InFlight(s.own), SetOf(pool));
    assert Owned(t);
    PlacesStay(s.peer, s.own, t.peer, t.own);
    assert Owned(t.Flip());
  }

  /** A packet in somebody's hands is allocated, and in no pool. */
  lemma InHandIsOwned(s: State, p: Pkt)
    requires Owned(s) && p in InHands(HandsOf(s.own, s.peer))
    ensures p.dev == s.id && p !in s.own.pool && p in s.own.live
  {
    assert Places(s.own, s.peer)[p] == 1;
  }

  /** A packet in the transmitter's hands is the device's own, or from its own handler
      the peer's; one in the poll's hands is the peer's. */
  lemma HandsOwned(s: State)
    requires BothOwned(s)
    ensures s.own.tx.TxGot? || s.own.tx.TxHold? ==>
      s.own.tx.p.dev == s.id && s.own.tx.p !in s.own.pool && s.own.tx.p in s.own.live
    ensures s.own.tx.DoneHold? ==>
      s.own.tx.p.dev == Other(s.id) && s.own.tx.p !in s.peer.pool && s.own.tx.p in s.peer.live
    ensures s.own.poll.PollHold? ==>
      s.own.poll.p.dev == Other(s.id) && s.own.poll.p !in s.peer.pool && s.own.poll.p in s.peer.live
  {
    if s.own.tx.TxGot? || s.own.tx.TxHold? {
      InHandIsOwned(s, s.own.tx.p);
    }
    if s.own.tx.DoneHold? {
      InHandIsOwned(s.Flip(), s.own.tx.p);
    }
    if s.own.poll.PollHold? {
      InHandIsOwned(s.Flip(), s.own.poll.p);
    }
  }

  /** Ownership depends on a device's packets and on where they are, not on which of
      the places each is in. */
  lemma SamePlacesSameOwner(s: State, t: State)
    requires Owned(s) && Places(t.own, t.peer) == Places(s.own, s.peer)
    requires t.id == s.id && t.serial == s.serial && t.poolSize == s.poolSize
    requires t.own.live == s.own.live && t.own.atReset == s.own.atReset
    ensures Owned(t)
  {
  }

  lemma PushOnto(p: Pkt, s: seq<Pkt>)
    ensures multiset([p] + s) == multiset{p} + multiset(s)
  {
  }

  lemma TakeoverAdds(h: Hands, h': Hands, p: Pkt)
    requires Takeover(h, h', p)
    ensures InHands(h') == InHands(h) + multiset{p}
  {
  }

  lemma Regrouped(a: multiset<Pkt>, q: multiset<Pkt>, h: multiset<Pkt>, x: multiset<Pkt>)
    ensures a + q + (h + x) == (x + a) + q + h == a + (x + q) + h
  {
  }

  /** From the pool into the transmitter's hands... */
  lemma GetKeepsPlaces(own: Dev, peer: Dev, own': Dev, peer': Dev)
    requires own.pool != [] && own'.pool == own.pool[1..] && peer'.rxq == peer.rxq
    requires Takeover(HandsOf(own, peer), HandsOf(own', peer'), own.pool[0])
    ensures Places(own', peer') == Places(own, peer)
  {
    HeadAndTail(own.pool);
    TakeoverAdds(HandsOf(own, peer), HandsOf(own', peer'), own.pool[0]);
    Regrouped(multiset(own'.pool), multiset(peer.rxq), InHands(HandsOf(own, peer)), multiset{own.pool[0]});
  }

  /** ...from there onto the peer's queue... */
  lemma EnqueueKeepsPlaces(own: Dev, peer: Dev, own': Dev, peer': Dev, p: Pkt)
    requires own'.pool == own.pool && peer'.rxq == [p] + peer.rxq
    requires Takeover(HandsOf(own', peer'), HandsOf(own, peer), p)
    ensures Places(own', peer') == Places(own, peer)
  {
    PushOnto(p, peer.rxq);
    TakeoverAdds(HandsOf(own', peer'), HandsOf(own, peer), p);
    Regrouped(multiset(own.pool), multiset(peer.rxq), InHands(HandsOf(own', peer')), multiset{p});
  }

  /** ...into some hands again... */
  lemma DequeueKeepsPlaces(own: Dev, peer: Dev, own': Dev, peer': Dev)
    requires peer.rxq != [] && own'.pool == own.pool && peer'.rxq == peer.rxq[1..]
    requires Takeover(HandsOf(own, peer), HandsOf(own', peer'), peer.rxq[0])
    ensures Places(own', peer') == Places(own, peer)
  {
    HeadAndTail(peer.rxq);
    TakeoverAdds(HandsOf(own, peer), HandsOf(own', peer'), peer.rxq[0]);
    Regrouped(multiset(own.pool), multiset(peer'.rxq), InHands(HandsOf(own, peer)), multiset{peer.rxq[0]});
  }

  /** ...and home to the pool. */
  lemma ReleaseKeepsPlaces(own: Dev, peer: Dev, own': Dev, peer': Dev, p: Pkt)
    requires own'.pool == [p] + own.pool && peer'.rxq == peer.rxq
    requires Takeover(HandsOf(own', peer'), HandsOf(own, peer), p)
    ensures Places(own', peer') == Places(own, peer)
  {
    PushOnto(p, own.pool);
    TakeoverAdds(HandsOf(own', peer'), HandsOf(own, peer), p);
    Regrouped(multiset(own.pool), multiset(peer.rxq), InHands(HandsOf(own', peer')), multiset{p});
  }

  /** Packets are where they were. */
  lemma PlacesStay(own: Dev, peer: Dev, own': Dev, peer': Dev)
    requires own'.pool == own.pool && peer'.rxq == peer.rxq && HandsOf(own', peer') == HandsOf(own, peer)
    ensures Places(own', peer') == Places(own, peer)
  {
  }

  lemma BothCarry(s: State, t: State)
    requires BothOwned(s) && Places(t.own, t.peer) == Places(s.own, s.peer)
    requires Places(t.peer, t.own) == Places(s.peer, s.own)
    requires t.id == s.id && t.serial == s.serial && t.poolSize == s.poolSize
    requires t.own.live == s.own.live && t.own.atReset == s.own.atReset
    requires t.peer.live == s.peer.live && t.peer.atReset == s.peer.atReset
    ensures BothOwned(t)
  {
    SamePlacesSameOwner(s, t);
    SamePlacesSameOwner(s.Flip(), t.Flip());
  }

  lemma GetKeepsOwned(s: State, junk: bool)
    requires BothOwned(s) && s.own.tx == TxIdle && s.own.pool != []
    ensures BothOwned(TxStep(s, junk))
  {
    var t := TxStep(s, junk);
    GetKeepsPlaces(s.own, s.peer, t.own, t.peer);
    PlacesStay(s.peer, s.own, t.peer, t.own);
    BothCarry(s, t);
  }

  lemma EnqueueKeepsOwned(s: State, junk: bool)
    requires BothOwned(s) && s.own.tx.TxGot?
    ensures BothOwned(TxStep(s, junk))
  {
    var t := TxStep(s, junk);
    EnqueueKeepsPlaces(s.own, s.peer, t.own, t.peer, s.own.tx.p);
    PlacesStay(s.peer, s.own, t.peer, t.own);
    BothCarry(s, t);
  }

  predicate SameLedger(s: State, t: State) {
    && t.id == s.id && t.serial == s.serial && t.poolSize == s.poolSize
    && t.own.live == s.own.live && t.own.atReset == s.own.atReset
    && t.peer.live == s.peer.live && t.peer.atReset == s.peer.atReset
  }

  /** A packet of own leaves the peer's queue for somebody's hands. */
  lemma DequeueKeepsOwned(s: State, t: State)
    requires BothOwned(s) && s.peer.rxq != [] && SameLedger(s, t)
    requires t.own.pool == s.own.pool && t.peer.rxq == s.peer.rxq[1..]
    requires Takeover(HandsOf(s.own, s.peer), HandsOf(t.own, t.peer), s.peer.rxq[0])
    requires t.peer.pool == s.peer.pool && t.own.rxq == s.own.rxq && HandsOf(t.peer, t.own) == HandsOf(s.peer, s.own)
    ensures BothOwned(t)
  {
    DequeueKeepsPlaces(s.own, s.peer, t.own, t.peer);
    PlacesStay(s.peer, s.own, t.peer, t.own);
    BothCarry(s, t);
  }

  /** A packet of own comes home. */
  lemma ReleaseKeepsOwned(s: State, t: State, p: Pkt)
    requires BothOwned(s) && SameLedger(s, t)
    requires t.own.pool == [p] + s.own.pool && t.peer.rxq == s.peer.rxq
    requires Takeover(HandsOf(t.own, t.peer), HandsOf(s.own, s.peer), p)
    requires t.peer.pool == s.peer.pool && t.own.rxq == s.own.rxq && HandsOf(t.peer, t.own) == HandsOf(s.peer, s.own)
    ensures BothOwned(t)
  {
    ReleaseKeepsPlaces(s.own, s.peer, t.own, t.peer, p);
    PlacesStay(s.peer, s.own, t.peer, t.own);
    BothCarry(s, t);
  }

  /** The peer's handler, called by this device, takes a packet... */
  lemma PeerHandlerKeepsOwned(s: State, junk: bool)
    requires BothOwned(s) && s.own.tx.TxRead? && Takes(s.peer, s.own.tx.w, s.napi)
    ensures BothOwned(TxStep(s, junk))
  {
    DequeueKeepsOwned(s, TxStep(s, junk));
  }

  /** ...or the device's own does. */
  lemma OwnHandlerTakes(s: State, junk: bool)
    requires s.own.tx.DoneRead? && Takes(s.own, s.own.tx.w, s.napi)
    ensures var t := TxStep(s, junk);
      && t.own.rxq == s.own.rxq[1..] && t.own.pool == s.own.pool && t.peer == s.peer && SameLedger(s, t)
      && t.own.tx == DoneHold(s.own.tx.late, s.own.rxq[0]) && t.own.poll == s.own.poll
  {
  }

  lemma OwnHandlerKeepsOwned(s: State, junk: bool)
    requires BothOwned(s) && s.own.tx.DoneRead? && Takes(s.own, s.own.tx.w, s.napi)
    ensures BothOwned(TxStep(s, junk))
  {
    OwnHandlerTakes(s, junk);
    HandlingKeepsOwned(s, TxStep(s, junk));
  }

  lemma HandlingKeepsOwned(s: State, t: State)
    requires BothOwned(s) && s.own.tx.DoneRead? && s.own.rxq != []
    requires t.own.rxq == s.own.rxq[1..] && t.own.pool == s.own.pool && t.peer == s.peer && SameLedger(s, t)
    requires t.own.tx == DoneHold(s.own.tx.late, s.own.rxq[0]) && t.own.poll == s.own.poll
    ensures BothOwned(t)
  {
    DequeueKeepsOwned(s.Flip(), t.Flip());
  }

  lemma TxReleaseKeepsOwned(s: State, junk: bool)
    requires BothOwned(s) && s.own.tx.TxHold?
    ensures BothOwned(TxStep(s, junk))
  {
    HandsOwned(s);
    ReleaseKeepsOwned(s, TxStep(s, junk), s.own.tx.p);
  }

  lemma OwnHandlerReturns(s: State, junk: bool)
    requires s.own.tx.DoneHold? && s.own.tx.p.dev == Other(s.id)
    ensures var t := TxStep(s, junk);
      && t.peer.pool == [s.own.tx.p] + s.peer.pool && t.own.rxq == s.own.rxq && SameLedger(s, t)
      && t.own.tx == DonePushed(s.own.tx.late, s.own.tx.p, false) && t.own.poll == s.own.poll
      && t.own.pool == s.own.pool && t.peer.rxq == s.peer.rxq && t.peer.tx == s.peer.tx && t.peer.poll == s.peer.poll
  {
  }

  lemma DoneReleaseKeepsOwned(s: State, junk: bool)
    requires BothOwned(s) && s.own.tx.DoneHold?
    ensures BothOwned(TxStep(s, junk))
  {
    HandsOwned(s);
    OwnHandlerReturns(s, junk);
    ReturnKeepsOwned(s, TxStep(s, junk));
  }

  lemma ReturnKeepsOwned(s: State, t: State)
    requires BothOwned(s) && s.own.tx.DoneHold? && SameLedger(s, t)
    requires t.peer.pool == [s.own.tx.p] + s.peer.pool && t.own.rxq == s.own.rxq
    requires t.own.tx == DonePushed(s.own.tx.late, s.own.tx.p, false) && t.own.poll == s.own.poll
    requires t.own.pool == s.own.pool && t.peer.rxq == s.peer.rxq
    requires t.peer.tx == s.peer.tx && t.peer.poll == s.peer.poll
    ensures BothOwned(t)
  {
    ReleaseKeepsOwned(s.Flip(), t.Flip(), s.own.tx.p);
  }

  lemma PollReleaseKeepsOwned(s: State)
    requires BothOwned(s) && CanAct(s, PollRelease)
    ensures BothOwned(PollStep(s, PollRelease))
  {
    HandsOwned(s);
    ReleaseKeepsOwned(s.Flip(), PollStep(s, PollRelease).Flip(), s.own.poll.p);
  }

  lemma TakeKeepsOwned(s: State)
    requires BothOwned(s) && CanAct(s, PollTake)
    ensures BothOwned(PollStep(s, PollTake))
  {
    DequeueKeepsOwned(s.Flip(), PollStep(s, PollTake).Flip());
  }

  /** The transmitter moves a packet, or sets up a new pool. */
  predicate MovesPacket(s: State) {
    var tx := s.own.tx;
    || (tx.TxIdle? && s.own.pool != []) || tx.TxGot? || tx.TxHold? || tx.DoneHold? || tx.TxReset?
    || (tx.TxRead? && Takes(s.peer, tx.w, s.napi)) || (tx.DoneRead? && Takes(s.own, tx.w, s.napi))
  }

  predicate SameStore(x: Dev, y: Dev) {
    x.pool == y.pool && x.rxq == y.rxq && x.live == y.live && x.atReset == y.atReset
  }

  /** Neither packets nor what is counted of them. */
  predicate SameStock(s: State, t: State) {
    && SameStore(s.own, t.own) && SameStore(s.peer, t.peer)
    && s.id == t.id && s.serial == t.serial && s.poolSize == t.poolSize && s.nulls == t.nulls && s.napi == t.napi
  }

  lemma SameStockSameOwner(s: State, t: State)
    requires BothOwned(s) && SameStock(s, t)
    requires HandsOf(t.own, t.peer) == HandsOf(s.own, s.peer) && HandsOf(t.peer, t.own) == HandsOf(s.peer, s.own)
    ensures BothOwned(t)
  {
    PlacesStay(s.own, s.peer, t.own, t.peer);
    PlacesStay(s.peer, s.own, t.peer, t.own);
    BothCarry(s, t);
  }

  /** The unlocked test of snull_release_buffer() moves no packet. */
  lemma WakeMovesNothing(s: State, p: Pkt, junk: bool)
    ensures SameStock(s, Wake(s, p, junk))
  {
  }

  lemma HandlerMovesNothing(x: Dev, w: Status, napi: bool)
    requires !Takes(x, w, napi)
    ensures SameStore(x, Handled(x, w, napi))
  {
  }

  lemma EffectMovesNothing(s: State, junk: bool)
    requires !MovesPacket(s)
    ensures SameStock(s, TxEffect(s, junk))
  {
    match s.own.tx
    case TxPushed(p, _) => WakeMovesNothing(s, p, junk);
    case DonePushed(_, p, _) => WakeMovesNothing(s, p, junk);
    case TxRead(w) => HandlerMovesNothing(s.peer, w, s.napi);
    case DoneRead(_, w) => HandlerMovesNothing(s.own, w, s.napi);
    case _ =>
  }

  lemma NextHoldsTheSame(s: State)
    requires !MovesPacket(s)
    ensures Sending(NextTx(s)) == Sending(s.own.tx) && Handling(NextTx(s)) == Handling(s.own.tx)
  {
  }

  lemma TxKeepsOwned(s: State, junk: bool)
    requires BothOwned(s) && CanTx(s)
    ensures BothOwned(TxStep(s, junk))
  {
    if MovesPacket(s) {
      match s.own.tx
      case TxIdle => GetKeepsOwned(s, junk);
      case TxGot(_) => EnqueueKeepsOwned(s, junk);
      case TxRead(_) => PeerHandlerKeepsOwned(s, junk);
      case TxHold(_) => TxReleaseKeepsOwned(s, junk);
      case DoneRead(_, _) => OwnHandlerKeepsOwned(s, junk);
      case DoneHold(_, _) => DoneReleaseKeepsOwned(s, junk);
      case TxReset => ResetOwned(s, junk);
    } else {
      EffectMovesNothing(s, junk);
      NextHoldsTheSame(s);
      SameStockSameOwner(s, TxStep(s, junk));
    }
  }

  lemma PollMovesNothing(s: State, act: Action)
    requires CanAct(s, act) && (act.PollBegin? || act.PollWake? || act.PollExit? || act.PollReenable?)
    ensures SameStock(s, PollEffect(s, act)) && SamePlace(s, PollEffect(s, act))
    ensures Polling(NextPoll(s, act)) == Polling(s.own.poll)
  {
    if act.PollWake? {
      WakeMovesNothing(s, s.own.poll.p, act.junk);
    }
  }

  lemma ActKeepsOwned(s: State, act: Action)
    requires BothOwned(s) && CanAct(s, act)
    ensures BothOwned(Act(s, act))
  {
    match act
    case TxGo(junk) => TxKeepsOwned(s, junk);
    case Timeout => SameStockSameOwner(s, Goto(s, DoneLoad(true)));
    case PollRelease => PollReleaseKeepsOwned(s);
    case PollTake => TakeKeepsOwned(s);
    case _ =>
      PollMovesNothing(s, act);
      SameStockSameOwner(s, PollStep(s, act));
  }

  lemma FlipTwice(s: State)
    ensures s.Flip().Flip() == s
  {
  }

  lemma StepKeepsOwned(s: State, e: Event)
    requires BothOwned(s) && Enabled(s, e)
    ensures BothOwned(Step(s, e))
  {
    FlipTwice(s);
    ActKeepsOwned(From(s, e.d), e.act);
    FlipTwice(Act(From(s, e.d), e.act));
  }

  lemma {:induction false} RunKeepsOwned(s: State, es: seq<Event>, s': State)
    requires BothOwned(s) && Run(s, es, s')
    ensures BothOwned(s')
    decreases |es|
  {
    if es != [] {
      StepKeepsOwned(s, es[0]);
      RunKeepsOwned(Step(s, es[0]), es[1..], s');
    }
  }

  /** Packet ownership.  In every reachable state of either mode each allocated
      packet of a device is in exactly one place, everything in those places is
      allocated and its own, and their number is the pool size plus the packets
      that were in flight when a timeout last reset the pool. */
  lemma PacketsAreConserved(poolSize: nat, napi: bool, es: seq<Event>, s: State, d: Id)
    requires Run(Init(poolSize, napi), es, s)
    ensures var own, peer := From(s, d).own, From(s, d).peer;
      && Places(own, peer) == multiset(own.live)
      && (forall p <- own.live :: p.dev == From(s, d).id && Places(own, peer)[p] == 1)
      && |Places(own, peer)| == s.poolSize + own.atReset
  {
    InitOwned(poolSize, napi);
    RunKeepsOwned(Init(poolSize, napi), es, s);
    assert Owned(From(s, d));
  }

  // ---------- the handlers ----------

  /** Each mode runs its own handlers... */
  predicate Mode(x: Dev, napi: bool) {
    && (napi ==> !x.tx.TxHold? && !x.tx.TxPushed? && !x.tx.DoneHold? && !x.tx.DonePushed?)
    && (!napi ==> x.rxInt && x.poll == PollIdle)
    && (x.rxInt <==> !x.scheduled)
    && (x.poll != PollIdle || x.missed ==> x.scheduled)
  }

  /** ...those of a device run one at a time... */
  predicate OneHandler(s: State) {
    !(s.own.tx.DoneRead? && s.peer.tx.TxRead?)
  }

  /** ...and they look up the right device.  What a transmitter returns to its own pool
      it cannot take again before it has made its wake test. */
  predicate Homing(id: Id, pool: seq<Pkt>, tx: Tx, poll: Poll) {
    && (tx.TxPushed? ==> tx.p.dev == id && tx.p in pool)
    && (tx.DonePushed? ==> tx.p.dev == Other(id))
    && (poll.PollPushed? ==> poll.p.dev == Other(id))
  }

  ghost predicate Handlers(s: State) {
    Mode(s.own, s.napi) && OneHandler(s) && Homing(s.id, s.own.pool, s.own.tx, s.own.poll)
  }

  ghost predicate Inv(s: State) {
    && 0 < s.poolSize && BothOwned(s) && Handlers(s) && Handlers(s.Flip())
  }

  /** What a step leaves of a device that does not take it: a longer pool at most, and
      interrupts off only with a poll scheduled. */
  predicate Leaves(x: Dev, x': Dev, napi: bool) {
    && x'.tx == x.tx && x'.poll == x.poll && (forall p <- x.pool :: p in x'.pool)
    && (x'.rxInt <==> !x'.scheduled) && (x'.missed ==> x'.scheduled) && (x.scheduled ==> x'.scheduled)
    && (!napi ==> x'.rxInt)
  }

  lemma LeftKeepsHandlers(s: State, t: State)
    requires Handlers(s.Flip()) && Leaves(s.peer, t.peer, s.napi) && t.id == s.id && t.napi == s.napi
    requires OneHandler(t.Flip())
    ensures Handlers(t.Flip())
  {
  }

  /** A handler, a packet that comes home, a wake test, a status word stored. */
  lemma HandledLeaves(x: Dev, w: Status, napi: bool)
    requires Mode(x, napi)
    ensures Leaves(x, Handled(x, w, napi), napi)
  {
  }

  lemma PushLeaves(s: State, p: Pkt)
    requires Mode(s.peer, s.napi)
    ensures Leaves(s.peer, Push(s, p).peer, s.napi)
  {
  }

  lemma WakeLeaves(s: State, p: Pkt, junk: bool)
    requires Mode(s.peer, s.napi)
    ensures Leaves(s.peer, Wake(s, p, junk).peer, s.napi)
  {
  }

  lemma TxLeaves(s: State, junk: bool)
    requires Mode(s.peer, s.napi)
    ensures Leaves(s.peer, TxEffect(s, junk).peer, s.napi)
  {
    match s.own.tx
    case TxRead(w) => HandledLeaves(s.peer, w, s.napi);
    case TxHold(p) => PushLeaves(s, p);
    case DoneHold(_, p) => PushLeaves(s, p);
    case TxPushed(p, _) => WakeLeaves(s, p, junk);
    case DonePushed(_, p, _) => WakeLeaves(s, p, junk);
    case _ =>
  }

  lemma PollLeaves(s: State, act: Action)
    requires Mode(s.peer, s.napi) && CanAct(s, act) && Polls(act)
    ensures Leaves(s.peer, PollEffect(s, act).peer, s.napi)
  {
    if act.PollRelease? {
      PushLeaves(s, s.own.poll.p);
    } else if act.PollWake? {
      WakeLeaves(s, s.own.poll.p, act.junk);
    }
  }

  /** The transmitter enters a handler only when nobody is in it. */
  lemma TxKeepsOneHandler(s: State)
    requires OneHandler(s) && OneHandler(s.Flip()) && CanTx(s)
    ensures !(NextTx(s).DoneRead? && s.peer.tx.TxRead?) && !(s.peer.tx.DoneRead? && NextTx(s).TxRead?)
  {
  }

  /** It goes into places of its own mode... */
  predicate PlaceFits(tx: Tx, napi: bool) {
    napi ==> !tx.TxHold? && !tx.TxPushed? && !tx.DoneHold? && !tx.DonePushed?
  }

  lemma NextFits(s: State)
    requires PlaceFits(s.own.tx, s.napi)
    ensures PlaceFits(NextTx(s), s.napi)
  {
  }

  /** ...and leaves its own interrupts and poll as anybody else does. */
  lemma TxKeepsOwnMode(s: State, junk: bool)
    requires Mode(s.own, s.napi)
    ensures var x := TxEffect(s, junk).own;
      && x.poll == s.own.poll && (!s.napi ==> x.rxInt)
      && (x.rxInt <==> !x.scheduled) && (x.poll != PollIdle || x.missed ==> x.scheduled)
  {
    match s.own.tx
    case DoneRead(_, w) => HandledLeaves(s.own, w, s.napi);
    case _ =>
  }

  lemma PollKeepsMode(s: State, act: Action)
    requires Mode(s.own, s.napi) && CanAct(s, act) && Polls(act)
    ensures Mode(PollStep(s, act).own, s.napi)
  {
  }

  /** The device's own pool loses packets only to a transmission and to a reset. */
  lemma PoolGrows(s: State, junk: bool)
    requires !s.own.tx.TxIdle? && !s.own.tx.TxReset?
    ensures forall p <- s.own.pool :: p in TxEffect(s, junk).own.pool
  {
    match s.own.tx
    case TxHold(p) => PushGrows(s, p);
    case DoneHold(_, p) => PushGrows(s, p);
    case TxPushed(p, _) => WakeMovesNothing(s, p, junk);
    case DonePushed(_, p, _) => WakeMovesNothing(s, p, junk);
    case _ =>
  }

  lemma PushGrows(s: State, p: Pkt)
    ensures forall q <- s.own.pool :: q in Push(s, p).own.pool
  {
  }

  lemma HoldGoesHome(s: State, junk: bool)
    requires s.own.tx.TxHold? && s.own.tx.p.dev == s.id
    ensures s.own.tx.p in TxEffect(s, junk).own.pool
  {
  }

  /** Only what was in hand has been returned. */
  lemma NextPushed(s: State)
    ensures NextTx(s).TxPushed? ==> (s.own.tx.TxHold? || s.own.tx.TxPushed?) && NextTx(s).p == s.own.tx.p
    ensures NextTx(s).DonePushed? ==> (s.own.tx.DoneHold? || s.own.tx.DonePushed?) && NextTx(s).p == s.own.tx.p
  {
  }

  lemma TxKeepsHoming(s: State, junk: bool)
    requires BothOwned(s) && Homing(s.id, s.own.pool, s.own.tx, s.own.poll)
    ensures Homing(s.id, TxEffect(s, junk).own.pool, NextTx(s), s.own.poll)
  {
    HandsOwned(s);
    NextPushed(s);
    if NextTx(s).TxPushed? {
      if s.own.tx.TxHold? {
        HoldGoesHome(s, junk);
      } else {
        PoolGrows(s, junk);
      }
    }
  }

  lemma NextPollPushed(s: State, act: Action)
    requires CanAct(s, act) && Polls(act)
    ensures NextPoll(s, act).PollPushed? ==>
      (s.own.poll.PollHold? || s.own.poll.PollPushed?) && NextPoll(s, act).p == s.own.poll.p
  {
  }

  lemma PoolGrowsByPolls(s: State, act: Action)
    requires CanAct(s, act) && Polls(act)
    ensures forall p <- s.own.pool :: p in PollEffect(s, act).own.pool
  {
    if act.PollRelease? {
      PushGrows(s, s.own.poll.p);
    } else if act.PollWake? {
      WakeMovesNothing(s, s.own.poll.p, act.junk);
    }
  }

  lemma PollKeepsHoming(s: State, act: Action)
    requires BothOwned(s) && Homing(s.id, s.own.pool, s.own.tx, s.own.poll) && CanAct(s, act) && Polls(act)
    ensures Homing(s.id, PollEffect(s, act).own.pool, s.own.tx, NextPoll(s, act))
  {
    HandsOwned(s);
    NextPollPushed(s, act);
    PoolGrowsByPolls(s, act);
  }

  lemma TxKeepsHandlers(s: State, junk: bool)
    requires Inv(s) && CanTx(s)
    ensures Handlers(TxStep(s, junk)) && Handlers(TxStep(s, junk).Flip())
  {
    TxKeepsOneHandler(s);
    NextFits(s);
    TxKeepsOwnMode(s, junk);
    TxKeepsHoming(s, junk);
    TxLeaves(s, junk);
    EffectKeepsFields(s, junk);
    LeftKeepsHandlers(s, TxStep(s, junk));
  }

  lemma PollKeepsHandlers(s: State, act: Action)
    requires Inv(s) && CanAct(s, act) && Polls(act)
    ensures Handlers(PollStep(s, act)) && Handlers(PollStep(s, act).Flip())
  {
    PollKeepsMode(s, act);
    PollKeepsHoming(s, act);
    PollLeaves(s, act);
    OtherFieldsStay(s, act);
    PollLeavesTransmitter(s, act);
    LeftKeepsHandlers(s, PollStep(s, act));
  }

  lemma PollLeavesTransmitter(s: State, act: Action)
    requires CanAct(s, act) && Polls(act)
    ensures PollStep(s, act).own.tx == s.own.tx
  {
  }

  lemma EffectKeepsFields(s: State, junk: bool)
    ensures var t := TxEffect(s, junk); t.id == s.id && t.poolSize == s.poolSize && t.napi == s.napi
  {
  }

  lemma ActKeepsHandlers(s: State, act: Action)
    requires Inv(s) && CanAct(s, act)
    ensures Handlers(Act(s, act)) && Handlers(Act(s, act).Flip())
  {
    if act.TxGo? {
      TxKeepsHandlers(s, act.junk);
    } else if act.Timeout? {
      TimeoutKeepsHandlers(s);
    } else {
      PollKeepsHandlers(s, act);
    }
  }

  lemma TimeoutKeepsHandlers(s: State)
    requires Inv(s) && CanAct(s, Timeout)
    ensures Handlers(Act(s, Timeout)) && Handlers(Act(s, Timeout).Flip())
  {
  }

  lemma OtherFieldsStay(s: State, act: Action)
    requires CanAct(s, act)
    ensures Act(s, act).id == s.id && Act(s, act).poolSize == s.poolSize && Act(s, act).napi == s.napi
  {
  }

  lemma ActKeepsInv(s: State, act: Action)
    requires Inv(s) && CanAct(s, act)
    ensures Inv(Act(s, act))
  {
    ActKeepsOwned(s, act);
    ActKeepsHandlers(s, act);
    OtherFieldsStay(s, act);
  }

  lemma InvFrom(s: State, d: Id)
    ensures Inv(From(s, d)) <==> Inv(s)
  {
    FlipTwice(s);
  }

  lemma StepKeepsInv(s: State, e: Event)
    requires Inv(s) && Enabled(s, e)
    ensures Inv(Step(s, e))
  {
    InvFrom(s, e.d);
    ActKeepsInv(From(s, e.d), e.act);
    InvFrom(Act(From(s, e.d), e.act), s.id);
  }

  lemma InitInv(poolSize: nat, napi: bool)
    requires 0 < poolSize
    ensures Inv(Init(poolSize, napi))
  {
    InitOwned(poolSize, napi);
  }
}
