/** The guard that keeps a mapped scullp device from being trimmed, with any number of
    threads that map, fork, unmap, fault, write, open for writing and set the geometry.
    scullp_trim() holds the mutex; scullp_mmap() and the counting of mappings do not,
    and dev->vmas++ is a load and a store. */
module ScullpGuard {
  type Tid = nat
  type Vma = nat
  type Key = (nat, nat)  // item and slot

  /** Where a new area comes from. */
  datatype Origin = Mapped | Forked(from: Vma)

  datatype Pc =
    | Idle
    // scullp_mmap, scullp_vma_open
    | MTest(v: Vma)                                // about to test the order
    | VLoad(v: Vma, origin: Origin)                // about to load vmas
    | VStore(v: Vma, origin: Origin, loaded: int)  // about to store it, one more
    // scullp_vma_close
    | CLoad(v: Vma)
    | CStore(v: Vma, loaded: int)
    // scullp_open for writing only, scullp_trim
    | TLock
    | TTest                                        // holds the mutex, about to test vmas
    | TFree                                        // past the test
    | TStore                                       // all given up, about to set the geometry

  datatype Lock = Free | HeldBy(t: Tid)

  datatype State<Page(==)> = State(
    vmas: int, order: nat, qset: nat, size: nat,
    pages: map<Key, Page>,
    mappings: set<Vma>,        // areas that map the device
    seen: set<(Vma, Page)>,    // pages that faults have put into areas
    dropped: set<Page>,        // given up by the device, with free_pages(); a mapping keeps its own reference
    newOrder: nat, newQset: nat,  // scullp_order and scullp_qset
    lock: Lock,
    pc: map<Tid, Pc>)

  datatype Event<Page> =
    | Mmap(t: Tid, v: Vma)
    | Fork(t: Tid, v: Vma, from: Vma)  // duplicates an area
    | Unmap(t: Tid, v: Vma)
    | OpenWriteOnly(t: Tid)
    | Go(t: Tid)                       // the thread takes its next step
    | Fault(v: Vma, key: Key)
    | Write(key: Key, end: nat, page: Page)  // one that has memory
    | Ioctl(order: nat, qset: nat)

  function Init<Page(==)>(order: nat, qset: nat, threads: set<Tid>): State<Page> {
    State(0, order, qset, 0, map[], {}, {}, {}, order, qset, Free, map t | t in threads :: Idle)
  }

  function Max(a: nat, b: nat): (r: nat)
    ensures r >= a && r >= b && (r == a || r == b)
  {
    if a < b then b else a
  }

  predicate Opening(pc: Pc) {
    pc.MTest? || pc.VLoad? || pc.VStore?
  }

  predicate Closing(pc: Pc) {
    pc.CLoad? || pc.CStore?
  }

  predicate ForksFrom(pc: Pc, v: Vma) {
    Forking(pc) && pc.origin.from == v
  }

  predicate Trimming(pc: Pc) {
    pc.TTest? || pc.TFree? || pc.TStore?
  }

  /** A new area has a new identity. */
  ghost predicate Unused<Page>(s: State<Page>, v: Vma) {
    v !in s.mappings && forall t <- s.pc :: Opening(s.pc[t]) ==> s.pc[t].v != v
  }

  /** An area that is there, and that nobody is about to unmap. */
  ghost predicate InUse<Page>(s: State<Page>, v: Vma) {
    v in s.mappings && forall t <- s.pc :: Closing(s.pc[t]) ==> s.pc[t].v != v
  }

  ghost predicate CanGo<Page>(s: State<Page>, t: Tid) {
    t in s.pc && s.pc[t] != Idle && (s.pc[t] == TLock ==> s.lock == Free)
  }

  /** The kernel forks only areas in use and holds on to them meanwhile.  A fault and a
      write are done under the mutex; a page that is allocated is in nobody's hands. */
  ghost predicate Enabled<Page>(s: State<Page>, e: Event<Page>) {
    match e
    case Mmap(t, v) => t in s.pc && s.pc[t] == Idle && Unused(s, v)
    case Fork(t, v, from) => t in s.pc && s.pc[t] == Idle && Unused(s, v) && InUse(s, from)
    case Unmap(t, v) =>
      t in s.pc && s.pc[t] == Idle && InUse(s, v) && forall u <- s.pc :: !ForksFrom(s.pc[u], v)
    case OpenWriteOnly(t) => t in s.pc && s.pc[t] == Idle
    case Go(t) => CanGo(s, t)
    case Fault(v, key) => s.lock == Free && InUse(s, v) && key in s.pages
    case Write(key, _, page) => s.lock == Free && (key in s.pages || (page !in s.dropped && page !in s.pages.Values))
    case Ioctl(_, _) => true
  }

  /** fork() copies the page tables. */
  function Copies<Page(==)>(seen: set<(Vma, Page)>, origin: Origin, v: Vma): set<(Vma, Page)> {
    if origin.Forked? then set e | e in seen && e.0 == origin.from :: (v, e.1) else {}
  }

  /** The child sees what its parent sees. */
  lemma ForkSeesTheSame<Page>(seen: set<(Vma, Page)>, from: Vma, v: Vma, page: Page)
    ensures (v, page) in Copies(seen, Forked(from), v) <==> (from, page) in seen
  {
    assert (from, page) in seen ==> (v, page) in Copies(seen, Forked(from), v);
  }

  /** One step of thread t. */
  function Advance<Page(==)>(s: State<Page>, t: Tid): State<Page>
    requires t in s.pc
  {
    match s.pc[t]
    case Idle => s
    case MTest(v) => s.(pc := s.pc[t := if s.order != 0 then Idle else VLoad(v, Mapped)])
    case VLoad(v, origin) => s.(pc := s.pc[t := VStore(v, origin, s.vmas)])
    case VStore(v, origin, loaded) =>
      s.(vmas := loaded + 1, mappings := s.mappings + {v}, seen := s.seen + Copies(s.seen, origin, v),
         pc := s.pc[t := Idle])
    case CLoad(v) => s.(pc := s.pc[t := CStore(v, s.vmas)])
    case CStore(v, loaded) => s.(vmas := loaded - 1, mappings := s.mappings - {v}, pc := s.pc[t := Idle])
    case TLock => s.(lock := HeldBy(t), pc := s.pc[t := TTest])
    case TTest =>
      if s.vmas != 0 then s.(lock := Free, pc := s.pc[t := Idle]) else s.(pc := s.pc[t := TFree])
    case TFree => s.(dropped := s.dropped + s.pages.Values, pages := map[], pc := s.pc[t := TStore])
    case TStore => s.(size := 0, qset := s.newQset, order := s.newOrder, lock := Free, pc := s.pc[t := Idle])
  }

  /** scullp_write(): a page that is missing is allocated. */
  function WriteTo<Page(==)>(s: State<Page>, key: Key, end: nat, page: Page): State<Page> {
    s.(pages := if key in s.pages then s.pages else s.pages[key := page], size := Max(s.size, end))
  }

  function Step<Page(==)>(s: State<Page>, e: Event<Page>): State<Page>
    requires e.Go? ==> e.t in s.pc
    requires e.Fault? ==> e.key in s.pages
  {
    match e
    case Mmap(t, v) => s.(pc := s.pc[t := MTest(v)])
    case Fork(t, v, from) => s.(pc := s.pc[t := VLoad(v, Forked(from))])
    case Unmap(t, v) => s.(pc := s.pc[t := CLoad(v)], seen := set e | e in s.seen && e.0 != v)
    case OpenWriteOnly(t) => s.(pc := s.pc[t := TLock])
    case Go(t) => Advance(s, t)
    case Fault(v, key) => s.(seen := s.seen + {(v, s.pages[key])})
    case Write(key, end, page) => WriteTo(s, key, end, page)
    case Ioctl(order, qset) => s.(newOrder := order, newQset := qset)
  }

  ghost predicate Run<Page>(s: State<Page>, es: seq<Event<Page>>, s': State<Page>)
    decreases |es|
  {
    if es == [] then s' == s
    else Enabled(s, es[0]) && Run(Step(s, es[0]), es[1..], s')
  }

  // ---------- the invariant ----------

  predicate Forking(pc: Pc) {
    (pc.VLoad? || pc.VStore?) && pc.origin.Forked?
  }

  /** An area is being mapped, in use or being unmapped by one thread at a time. */
  ghost predicate AreasOf(pcs: map<Tid, Pc>, mappings: set<Vma>) {
    && (forall t <- pcs :: Opening(pcs[t]) ==> pcs[t].v !in mappings)
    && (forall t <- pcs :: Closing(pcs[t]) ==> pcs[t].v in mappings)
    && (forall t <- pcs :: Forking(pcs[t]) ==> pcs[t].origin.from in mappings)
    && (forall t, u :: t in pcs && u in pcs && t != u && Opening(pcs[t]) && Opening(pcs[u]) ==> pcs[t].v != pcs[u].v)
    && (forall t, u :: t in pcs && u in pcs && t != u && Closing(pcs[t]) && Closing(pcs[u]) ==> pcs[t].v != pcs[u].v)
    && (forall t, u :: t in pcs && u in pcs && Forking(pcs[t]) && Closing(pcs[u]) ==> pcs[t].origin.from != pcs[u].v)
  }

  ghost predicate Areas<Page>(s: State<Page>) {
    AreasOf(s.pc, s.mappings)
  }

  ghost predicate Mutex<Page>(s: State<Page>) {
    && (s.lock.HeldBy? ==> s.lock.t in s.pc)
    && (forall t <- s.pc :: Trimming(s.pc[t]) <==> s.lock == HeldBy(t))
  }

  /** The pages of the device are distinct and its own. */
  ghost predicate Owned<Page>(s: State<Page>) {
    && (forall k <- s.pages :: s.pages[k] !in s.dropped)
    && (forall k, l :: k in s.pages && l in s.pages && k != l ==> s.pages[k] != s.pages[l])
  }

  ghost predicate Inv<Page>(s: State<Page>) {
    Areas(s) && Mutex(s) && Owned(s)
  }

  /** vmas is the number of mappings. */
  ghost predicate Counted<Page>(s: State<Page>) {
    s.vmas == |s.mappings|
  }

  /** Somebody trims, and has found no mapping. */
  ghost predicate PastTest<Page>(s: State<Page>) {
    s.lock.HeldBy? && s.lock.t in s.pc && (s.pc[s.lock.t].TFree? || s.pc[s.lock.t].TStore?)
  }

  /** What areas see are pages of the device; during a trim they see none. */
  ghost predicate SeenIsOwned<Page>(s: State<Page>) {
    && (forall e <- s.seen :: InUse(s, e.0) && e.1 in s.pages.Values)
    && (PastTest(s) ==> s.seen == {})
  }

  // ---------- every step keeps it ----------

  /** The thread that an event moves, and where to. */
  lemma StepMovesOne<Page>(s: State<Page>, e: Event<Page>)
    requires Enabled(s, e)
    ensures e.Fault? || e.Write? || e.Ioctl? ==>
      Step(s, e).pc == s.pc && Step(s, e).lock == s.lock && Step(s, e).mappings == s.mappings
    ensures !e.Fault? && !e.Write? && !e.Ioctl? ==>
      e.t in Step(s, e).pc && Step(s, e).pc == s.pc[e.t := Step(s, e).pc[e.t]]
  {
  }

  lemma StepMovesMutex<Page>(s: State<Page>, e: Event<Page>)
    requires Enabled(s, e) && !e.Fault? && !e.Write? && !e.Ioctl? && e.t in Step(s, e).pc
    ensures var s' := Step(s, e);
      && (Trimming(s'.pc[e.t]) ==> s'.lock == if Trimming(s.pc[e.t]) then s.lock else HeldBy(e.t))
      && (Trimming(s'.pc[e.t]) && !Trimming(s.pc[e.t]) ==> s.lock == Free)
      && (!Trimming(s'.pc[e.t]) ==> s'.lock == if Trimming(s.pc[e.t]) then Free else s.lock)
  {
  }

  lemma StepKeepsMutex<Page>(s: State<Page>, e: Event<Page>)
    requires Mutex(s) && Enabled(s, e)
    ensures Mutex(Step(s, e))
  {
    StepMovesOne(s, e);
    if !e.Fault? && !e.Write? && !e.Ioctl? {
      StepMovesMutex(s, e);
    }
  }

  lemma WriteKeepsOwned<Page>(s: State<Page>, key: Key, end: nat, page: Page)
    requires Owned(s) && (key in s.pages || (page !in s.dropped && page !in s.pages.Values))
    ensures Owned(WriteTo(s, key, end, page))
  {
  }

  lemma StepKeepsOwned<Page>(s: State<Page>, e: Event<Page>)
    requires Owned(s) && Enabled(s, e)
    ensures Owned(Step(s, e))
  {
    if e.Write? {
      WriteKeepsOwned(s, e.key, e.end, e.page);
    }
  }

  /** A thread goes on with the area it has, or lets go of it. */
  lemma GoingOnKeepsAreas(pcs: map<Tid, Pc>, mappings: set<Vma>, t: Tid, pc: Pc)
    requires AreasOf(pcs, mappings) && t in pcs
    requires Opening(pc) ==> Opening(pcs[t]) && pc.v == pcs[t].v
    requires Closing(pc) ==> Closing(pcs[t]) && pc.v == pcs[t].v
    requires Forking(pc) ==> Forking(pcs[t]) && pc.origin == pcs[t].origin
    ensures AreasOf(pcs[t := pc], mappings)
  {
  }

  /** It begins with a new one... */
  lemma BeginningKeepsAreas(pcs: map<Tid, Pc>, mappings: set<Vma>, t: Tid, pc: Pc)
    requires AreasOf(pcs, mappings) && t in pcs && Opening(pc) && pc.v !in mappings
    requires forall u <- pcs :: Opening(pcs[u]) ==> pcs[u].v != pc.v
    requires Forking(pc) ==> pc.origin.from in mappings
    requires Forking(pc) ==> forall u <- pcs :: Closing(pcs[u]) ==> pcs[u].v != pc.origin.from
    ensures AreasOf(pcs[t := pc], mappings)
  {
  }

  /** ...or with the end of one in use. */
  lemma EndingKeepsAreas(pcs: map<Tid, Pc>, mappings: set<Vma>, t: Tid, v: Vma)
    requires AreasOf(pcs, mappings) && t in pcs && v in mappings
    requires forall u <- pcs :: Closing(pcs[u]) ==> pcs[u].v != v
    requires forall u <- pcs :: !ForksFrom(pcs[u], v)
    ensures AreasOf(pcs[t := CLoad(v)], mappings)
  {
  }

  lemma OpenedKeepsAreas(pcs: map<Tid, Pc>, mappings: set<Vma>, t: Tid)
    requires AreasOf(pcs, mappings) && t in pcs && Opening(pcs[t])
    ensures AreasOf(pcs[t := Idle], mappings + {pcs[t].v})
  {
  }

  lemma ClosedKeepsAreas(pcs: map<Tid, Pc>, mappings: set<Vma>, t: Tid)
    requires AreasOf(pcs, mappings) && t in pcs && Closing(pcs[t])
    ensures AreasOf(pcs[t := Idle], mappings - {pcs[t].v})
  {
  }

  lemma StepKeepsAreas<Page>(s: State<Page>, e: Event<Page>)
    requires Areas(s) && Enabled(s, e)
    ensures Areas(Step(s, e))
  {
    match e
    case Mmap(t, v) => BeginningKeepsAreas(s.pc, s.mappings, t, MTest(v));
    case Fork(t, v, from) => BeginningKeepsAreas(s.pc, s.mappings, t, VLoad(v, Forked(from)));
    case Unmap(t, v) => EndingKeepsAreas(s.pc, s.mappings, t, v);
    case OpenWriteOnly(t) => GoingOnKeepsAreas(s.pc, s.mappings, t, TLock);
    case Go(t) =>
      if s.pc[t].VStore? {
        OpenedKeepsAreas(s.pc, s.mappings, t);
      } else if s.pc[t].CStore? {
        ClosedKeepsAreas(s.pc, s.mappings, t);
      } else {
        GoingOnKeepsAreas(s.pc, s.mappings, t, Step(s, e).pc[t]);
      }
    case _ =>
  }

  lemma StepKeepsInv<Page>(s: State<Page>, e: Event<Page>)
    requires Inv(s) && Enabled(s, e)
    ensures Inv(Step(s, e))
  {
    StepKeepsAreas(s, e);
    StepKeepsMutex(s, e);
    StepKeepsOwned(s, e);
  }

  // ---------- the count ----------

  /** The store of a count that somebody else has changed since it was loaded. */
  ghost predicate Stale<Page>(s: State<Page>, e: Event<Page>) {
    e.Go? && e.t in s.pc && (s.pc[e.t].VStore? || s.pc[e.t].CStore?) && s.pc[e.t].loaded != s.vmas
  }

  lemma StoresCount<Page>(s: State<Page>, t: Tid)
    requires Areas(s) && Counted(s) && CanGo(s, t) && (s.pc[t].VStore? || s.pc[t].CStore?)
    ensures Counted(Advance(s, t)) <==> s.pc[t].loaded == s.vmas
  {
    if s.pc[t].VStore? {
      assert s.pc[t].v !in s.mappings && |s.mappings + {s.pc[t].v}| == |s.mappings| + 1;
    } else {
      assert s.pc[t].v in s.mappings && |s.mappings - {s.pc[t].v}| == |s.mappings| - 1;
    }
  }

  lemma OtherStepsCountNothing<Page>(s: State<Page>, e: Event<Page>)
    requires Enabled(s, e) && !(e.Go? && (s.pc[e.t].VStore? || s.pc[e.t].CStore?))
    ensures Step(s, e).vmas == s.vmas && Step(s, e).mappings == s.mappings
  {
  }

  /** Such a store is the only step that loses count. */
  lemma StepKeepsCount<Page>(s: State<Page>, e: Event<Page>)
    requires Areas(s) && Counted(s) && Enabled(s, e)
    ensures Counted(Step(s, e)) <==> !Stale(s, e)
  {
    if e.Go? && (s.pc[e.t].VStore? || s.pc[e.t].CStore?) {
      StoresCount(s, e.t);
    } else {
      OtherStepsCountNothing(s, e);
    }
  }

  lemma NoneMappedNoneSeen<Page>(s: State<Page>)
    requires Counted(s) && SeenIsOwned(s) && s.vmas == 0
    ensures s.mappings == {} && s.seen == {}
  {
    assert forall e <- s.seen :: e.0 in s.mappings;
  }

  lemma InUseStays<Page>(s: State<Page>, e: Event<Page>, v: Vma)
    requires Areas(s) && Enabled(s, e) && InUse(s, v) && !(e.Unmap? && e.v == v)
    ensures InUse(Step(s, e), v)
  {
  }

  lemma SeesWhatItSaw<Page>(s: State<Page>, e: Event<Page>, x: (Vma, Page))
    requires Areas(s) && SeenIsOwned(s) && Enabled(s, e) && x in Step(s, e).seen
    ensures x in s.seen || (e.Fault? && x == (e.v, s.pages[e.key])) ||
      (e.Go? && s.pc[e.t].VStore? && s.pc[e.t].origin.Forked? && x.0 == s.pc[e.t].v &&
       (s.pc[e.t].origin.from, x.1) in s.seen)
    ensures e.Unmap? ==> x.0 != e.v
  {
  }

  lemma NewAreaInUse<Page>(s: State<Page>, t: Tid)
    requires Areas(s) && CanGo(s, t) && s.pc[t].VStore?
    ensures InUse(Advance(s, t), s.pc[t].v)
  {
  }

  lemma PagesStay<Page>(s: State<Page>, e: Event<Page>)
    requires Enabled(s, e) && !(e.Go? && s.pc[e.t].TFree?)
    ensures forall k <- s.pages :: k in Step(s, e).pages && Step(s, e).pages[k] == s.pages[k]
    ensures Step(s, e).dropped == s.dropped
  {
  }

  lemma StillOwned<Page>(s: State<Page>, e: Event<Page>, p: Page)
    requires Enabled(s, e) && !(e.Go? && s.pc[e.t].TFree?) && p in s.pages.Values
    ensures p in Step(s, e).pages.Values
  {
    PagesStay(s, e);
    var k :| k in s.pages && s.pages[k] == p;
    assert k in Step(s, e).pages;
  }

  lemma StepKeepsSight<Page>(s: State<Page>, e: Event<Page>, x: (Vma, Page))
    requires Inv(s) && SeenIsOwned(s) && Enabled(s, e) && !(e.Go? && s.pc[e.t].TFree?) && x in Step(s, e).seen
    ensures InUse(Step(s, e), x.0) && x.1 in Step(s, e).pages.Values
  {
    SeesWhatItSaw(s, e, x);
    if x in s.seen {
      InUseStays(s, e, x.0);
      StillOwned(s, e, x.1);
    } else if e.Fault? {
      InUseStays(s, e, x.0);
      StillOwned(s, e, s.pages[e.key]);
    } else {
      NewAreaInUse(s, e.t);
      assert (s.pc[e.t].origin.from, x.1) in s.seen;
      StillOwned(s, e, x.1);
    }
  }

  /** Only the trimmer moves past its test; while it is there, faults wait. */
  lemma PastTestSeesNothing<Page>(s: State<Page>, e: Event<Page>)
    requires Inv(s) && Counted(s) && SeenIsOwned(s) && Enabled(s, e) && PastTest(Step(s, e))
    ensures Step(s, e).seen == {}
  {
    StepMovesOne(s, e);
    if PastTest(s) {
      assert forall x <- Step(s, e).seen :: x in s.seen by {
        forall x <- Step(s, e).seen ensures x in s.seen { SeesWhatItSaw(s, e, x); }
      }
    } else {
      PassesTest(s, e);
      NoneMappedNoneSeen(s);
    }
  }

  lemma PassesTest<Page>(s: State<Page>, e: Event<Page>)
    requires Mutex(s) && Enabled(s, e) && !PastTest(s) && PastTest(Step(s, e))
    ensures e.Go? && s.pc[e.t].TTest? && s.vmas == 0 && Step(s, e).seen == s.seen && Step(s, e).mappings == s.mappings
  {
  }

  lemma StepKeepsSeen<Page>(s: State<Page>, e: Event<Page>)
    requires Inv(s) && Counted(s) && SeenIsOwned(s) && Enabled(s, e)
    ensures SeenIsOwned(Step(s, e))
  {
    if PastTest(Step(s, e)) {
      PastTestSeesNothing(s, e);
    } else if e.Go? && s.pc[e.t].TFree? {
      assert PastTest(s);
    } else {
      forall x <- Step(s, e).seen
        ensures InUse(Step(s, e), x.0) && x.1 in Step(s, e).pages.Values
      {
        StepKeepsSight(s, e, x);
      }
    }
  }

  /** A run in which no count is lost. */
  ghost predicate FreshRun<Page>(s: State<Page>, es: seq<Event<Page>>, s': State<Page>)
    decreases |es|
  {
    if es == [] then s' == s
    else Enabled(s, es[0]) && !Stale(s, es[0]) && FreshRun(Step(s, es[0]), es[1..], s')
  }

  ghost predicate Sound<Page>(s: State<Page>) {
    Inv(s) && Counted(s) && SeenIsOwned(s)
  }

  lemma StepKeepsSound<Page>(s: State<Page>, e: Event<Page>)
    requires Sound(s) && Enabled(s, e) && !Stale(s, e)
    ensures Sound(Step(s, e))
  {
    StepKeepsInv(s, e);
    StepKeepsCount(s, e);
    StepKeepsSeen(s, e);
  }

  lemma {:induction false} FreshRunKeepsSound<Page>(s: State<Page>, es: seq<Event<Page>>, s': State<Page>)
    requires Sound(s) && FreshRun(s, es, s')
    ensures Sound(s')
    decreases |es|
  {
    if es != [] {
      StepKeepsSound(s, es[0]);
      FreshRunKeepsSound(Step(s, es[0]), es[1..], s');
    }
  }

  /** As long as no count is lost, in every interleaving: vmas is the number of
      mappings, and a page that a mapping has in its page tables is a page of the
      device, which has not given it up. */
  lemma MappedPagesAreNotDropped<Page>(order: nat, qset: nat, threads: set<Tid>, es: seq<Event<Page>>, s: State<Page>)
    requires FreshRun(Init<Page>(order, qset, threads), es, s)
    ensures s.vmas == |s.mappings|
    ensures forall e <- s.seen :: e.0 in s.mappings && e.1 in s.pages.Values && e.1 !in s.dropped
  {
    FreshRunKeepsSound(Init<Page>(order, qset, threads), es, s);
    forall e <- s.seen
      ensures e.1 !in s.dropped
    {
      var k :| k in s.pages && s.pages[k] == e.1;
    }
  }

  // ---------- the guard ----------

  /** A mapped device has order 0, and nobody is about to give up its pages. */
  ghost predicate Guarded<Page>(s: State<Page>) {
    s.mappings != {} ==> s.order == 0 && !PastTest(s)
  }

  /** An mmap is counted after a trim has made its test, or after one has changed the
      order that the mmap had tested. */
  ghost predicate Race<Page>(s: State<Page>, e: Event<Page>) {
    e.Go? && e.t in s.pc && s.pc[e.t].VStore? && s.pc[e.t].origin == Mapped && (s.order != 0 || PastTest(s))
  }

  lemma CounterKeepsGuard<Page>(s: State<Page>, t: Tid)
    requires Inv(s) && Guarded(s) && CanGo(s, t) && s.pc[t].VStore?
    ensures Guarded(Advance(s, t)) <==> !Race(s, Go(t))
  {
    var s' := Advance(s, t);
    assert s.pc[t].v in s'.mappings && s'.order == s.order && s'.lock == s.lock;
    assert PastTest(s') <==> PastTest(s);
    assert s.pc[t].origin.Forked? ==> s.pc[t].origin.from in s.mappings;
  }

  lemma OtherStepsKeepGuard<Page>(s: State<Page>, e: Event<Page>)
    requires Inv(s) && Counted(s) && Guarded(s) && Enabled(s, e) && !(e.Go? && s.pc[e.t].VStore?)
    ensures Guarded(Step(s, e))
  {
    StepMovesOne(s, e);
    if PastTest(Step(s, e)) && !PastTest(s) {
      PassesTest(s, e);
    } else if e.Go? && s.pc[e.t].TStore? {
      assert PastTest(s);
    }
  }

  /** An mmap that overtakes a trim, or is overtaken by one, is the only step that
      breaks the guard. */
  lemma StepKeepsGuard<Page>(s: State<Page>, e: Event<Page>)
    requires Inv(s) && Counted(s) && Guarded(s) && Enabled(s, e)
    ensures Guarded(Step(s, e)) <==> !Race(s, e)
  {
    if e.Go? && s.pc[e.t].VStore? {
      CounterKeepsGuard(s, e.t);
    } else {
      OtherStepsKeepGuard(s, e);
    }
  }

  /** A run in which no count is lost and no mmap races with a trim. */
  ghost predicate OrderlyRun<Page>(s: State<Page>, es: seq<Event<Page>>, s': State<Page>)
    decreases |es|
  {
    if es == [] then s' == s
    else
      && Enabled(s, es[0]) && !Stale(s, es[0]) && !Race(s, es[0])
      && OrderlyRun(Step(s, es[0]), es[1..], s')
  }

  lemma {:induction false} OrderlyRunKeepsGuard<Page>(s: State<Page>, es: seq<Event<Page>>, s': State<Page>)
    requires Sound(s) && Guarded(s) && OrderlyRun(s, es, s')
    ensures Sound(s') && Guarded(s')
    decreases |es|
  {
    if es != [] {
      StepKeepsSound(s, es[0]);
      StepKeepsGuard(s, es[0]);
      OrderlyRunKeepsGuard(Step(s, es[0]), es[1..], s');
    }
  }

  /** Somebody has the device mapped at every point of the run. */
  ghost predicate MappedThroughout<Page>(s: State<Page>, es: seq<Event<Page>>)
    decreases |es|
  {
    s.mappings != {} && (es == [] || (Enabled(s, es[0]) && MappedThroughout(Step(s, es[0]), es[1..])))
  }

  lemma MappedStepKeepsPages<Page>(s: State<Page>, e: Event<Page>)
    requires Inv(s) && Guarded(s) && Enabled(s, e) && s.mappings != {}
    ensures Step(s, e).order == 0 == s.order && Step(s, e).qset == s.qset && Step(s, e).dropped == s.dropped
    ensures s.size <= Step(s, e).size
    ensures forall k <- s.pages :: k in Step(s, e).pages && Step(s, e).pages[k] == s.pages[k]
  {
    assert !(e.Go? && (s.pc[e.t].TFree? || s.pc[e.t].TStore?));
    PagesStay(s, e);
  }

  /** The mapping guard.  From any state of an orderly run, as long as there is a
      mapping, whatever is opened, written, faulted, mapped, unmapped or set by ioctl:
      the order is 0, the geometry stays, every page stays in its place, none is given up. */
  lemma {:induction false} MappedPagesStay<Page>(s: State<Page>, es: seq<Event<Page>>, s': State<Page>)
    requires Sound(s) && Guarded(s) && OrderlyRun(s, es, s') && MappedThroughout(s, es)
    ensures s'.order == 0 == s.order && s'.qset == s.qset && s'.dropped == s.dropped && s.size <= s'.size
    ensures forall k <- s.pages :: k in s'.pages && s'.pages[k] == s.pages[k]
    decreases |es|
  {
    if es != [] {
      MappedStepKeepsPages(s, es[0]);
      StepKeepsSound(s, es[0]);
      StepKeepsGuard(s, es[0]);
      MappedPagesStay(Step(s, es[0]), es[1..], s');
    }
  }

  // ---------- what the mutex would do ----------

  /** A thread in the middle of an mmap. */
  predicate Mapping(pc: Pc) {
    pc.MTest? || ((pc.VLoad? || pc.VStore?) && pc.origin == Mapped)
  }

  /** A step that would need the mutex if scullp_mmap() took it for its whole length:
      mmaps and trims come one after the other. */
  ghost predicate Excluded<Page>(s: State<Page>, e: Event<Page>) {
    e.Go? && e.t in s.pc && (
      || (Mapping(s.pc[e.t]) && s.lock != Free)
      || (s.pc[e.t] == TLock && exists u <- s.pc :: Mapping(s.pc[u])))
  }

  ghost predicate SerialRun<Page>(s: State<Page>, es: seq<Event<Page>>, s': State<Page>)
    decreases |es|
  {
    if es == [] then s' == s
    else Enabled(s, es[0]) && !Stale(s, es[0]) && !Excluded(s, es[0]) && SerialRun(Step(s, es[0]), es[1..], s')
  }

  /** An mmap past its test finds the order as it was, and no trim. */
  ghost predicate Serial<Page>(s: State<Page>) {
    forall t <- s.pc :: Mapping(s.pc[t]) && !s.pc[t].MTest? ==> s.order == 0 && s.lock == Free
  }

  lemma SerialHasNoRace<Page>(s: State<Page>, e: Event<Page>)
    requires Serial(s) && Enabled(s, e)
    ensures !Race(s, e)
  {
  }

  lemma StepKeepsSerial<Page>(s: State<Page>, e: Event<Page>)
    requires Mutex(s) && Serial(s) && Enabled(s, e) && !Excluded(s, e)
    ensures Serial(Step(s, e))
  {
    StepMovesOne(s, e);
    forall t <- Step(s, e).pc | Mapping(Step(s, e).pc[t]) && !Step(s, e).pc[t].MTest?
      ensures Step(s, e).order == 0 && Step(s, e).lock == Free
    {
      assert t in s.pc && Mapping(s.pc[t]);
    }
  }

  /** So a run in which each mmap held the mutex would be orderly, and the guard good. */
  lemma {:induction false} SerialRunsAreOrderly<Page>(s: State<Page>, es: seq<Event<Page>>, s': State<Page>)
    requires Inv(s) && Serial(s) && SerialRun(s, es, s')
    ensures OrderlyRun(s, es, s')
    decreases |es|
  {
    if es != [] {
      SerialHasNoRace(s, es[0]);
      StepKeepsInv(s, es[0]);
      StepKeepsSerial(s, es[0]);
      SerialRunsAreOrderly(Step(s, es[0]), es[1..], s');
    }
  }

  // ---------- a call by itself ----------

  function Rank(pc: Pc): nat {
    match pc
    case Idle => 0
    case VStore(_, _, _) => 1
    case CStore(_, _) => 1
    case TStore => 1
    case VLoad(_, _) => 2
    case CLoad(_) => 2
    case TFree => 2
    case MTest(_) => 3
    case TTest => 3
    case TLock => 4
  }

  /** Thread t runs its call to the end and nobody else takes a step. */
  function Alone<Page(==)>(s: State<Page>, t: Tid): State<Page>
    requires t in s.pc
    decreases Rank(s.pc[t])
  {
    if s.pc[t] == Idle then s else Alone(Advance(s, t), t)
  }

  /** It is a run, if the mutex is free. */
  lemma {:induction false} AloneIsRun<Page>(s: State<Page>, t: Tid) returns (es: seq<Event<Page>>)
    requires t in s.pc && (s.pc[t] == TLock ==> s.lock == Free)
    ensures Run(s, es, Alone(s, t))
    decreases Rank(s.pc[t])
  {
    es := [];
    if s.pc[t] != Idle {
      var rest := AloneIsRun(Advance(s, t), t);
      es := [Go(t)] + rest;
      assert es[1..] == rest;
    }
  }

  lemma MmapAlone<Page>(s: State<Page>, t: Tid, v: Vma)
    requires t in s.pc && s.pc[t] == Idle
    ensures Alone(Step(s, Mmap(t, v)), t) ==
      if s.order != 0 then s else s.(vmas := s.vmas + 1, mappings := s.mappings + {v})
  {
    var a := Step(s, Mmap(t, v));
    var b := Advance(a, t);
    if s.order == 0 {
      CountAlone(b, t, v, Mapped);
      assert b.pc[t := Idle] == s.pc;
    } else {
      assert b.pc == s.pc;
    }
  }

  lemma CountAlone<Page>(s: State<Page>, t: Tid, v: Vma, origin: Origin)
    requires t in s.pc && s.pc[t] == VLoad(v, origin)
    ensures Alone(s, t) ==
      s.(vmas := s.vmas + 1, mappings := s.mappings + {v}, seen := s.seen + Copies(s.seen, origin, v),
         pc := s.pc[t := Idle])
  {
    var b := Advance(s, t);
    assert b.pc[t := Idle] == s.pc[t := Idle];
    assert Alone(b, t) == Advance(b, t);
  }

  lemma ForkAlone<Page>(s: State<Page>, t: Tid, v: Vma, from: Vma)
    requires t in s.pc && s.pc[t] == Idle
    ensures Alone(Step(s, Fork(t, v, from)), t) ==
      s.(vmas := s.vmas + 1, mappings := s.mappings + {v}, seen := s.seen + Copies(s.seen, Forked(from), v))
  {
    var a := Step(s, Fork(t, v, from));
    CountAlone(a, t, v, Forked(from));
    assert a.pc[t := Idle] == s.pc;
  }

  lemma UnmapAlone<Page>(s: State<Page>, t: Tid, v: Vma)
    requires t in s.pc && s.pc[t] == Idle
    ensures Alone(Step(s, Unmap(t, v)), t) ==
      s.(vmas := s.vmas - 1, mappings := s.mappings - {v}, seen := set e | e in s.seen && e.0 != v)
  {
    var a := Step(s, Unmap(t, v));
    var b := Advance(a, t);
    assert Alone(b, t) == Advance(b, t);
    assert Advance(b, t).pc == s.pc;
  }

  lemma TrimAlone<Page>(s: State<Page>, t: Tid)
    requires t in s.pc && s.pc[t] == Idle && s.lock == Free
    ensures Alone(Step(s, OpenWriteOnly(t)), t) ==
      if s.vmas != 0 then s
      else s.(size := 0, pages := map[], dropped := s.dropped + s.pages.Values, order := s.newOrder, qset := s.newQset)
  {
    var a := Step(s, OpenWriteOnly(t));
    var b := Advance(a, t);
    assert Alone(a, t) == Alone(b, t);
    TestAlone(b, t);
    assert b.pc[t := Idle] == s.pc;
  }

  lemma TestAlone<Page>(s: State<Page>, t: Tid)
    requires t in s.pc && s.pc[t] == TTest
    ensures Alone(s, t) ==
      if s.vmas != 0 then s.(lock := Free, pc := s.pc[t := Idle])
      else s.(size := 0, pages := map[], dropped := s.dropped + s.pages.Values, order := s.newOrder, qset := s.newQset,
              lock := Free, pc := s.pc[t := Idle])
  {
    var c := Advance(s, t);
    if s.vmas == 0 {
      var d := Advance(c, t);
      assert Alone(d, t) == Advance(d, t);
      assert Advance(d, t).pc == s.pc[t := Idle];
    }
  }

  // ---------- two runs that go wrong ----------

  lemma {:induction false} RunSnoc<Page>(s: State<Page>, es: seq<Event<Page>>, t: State<Page>, e: Event<Page>)
    requires Run(s, es, t) && Enabled(t, e)
    ensures Run(s, es + [e], Step(t, e))
    decreases |es|
  {
    if es == [] {
      assert [e][1..] == [];
    } else {
      RunSnoc(Step(s, es[0]), es[1..], t, e);
      assert (es + [e])[1..] == es[1..] + [e];
    }
  }

  function Start(): State<nat> {
    Init<nat>(0, 1, {0, 1})
  }

  ghost predicate Reachable(s: State<nat>) {
    exists es :: Run(Start(), es, s)
  }

  lemma StartReachable()
    ensures Reachable(Start())
  {
    assert Run(Start(), [], Start());
  }

  lemma Play(s: State<nat>, e: Event<nat>) returns (s': State<nat>)
    requires Reachable(s) && Enabled(s, e)
    ensures s' == Step(s, e) && Reachable(s')
  {
    s' := Step(s, e);
    var es :| Run(Start(), es, s);
    RunSnoc(Start(), es, s, e);
    assert Run(Start(), es + [e], s');
  }

  /** Thread t maps the device and is about to store the count. */
  lemma PlayMmap(s: State<nat>, t: Tid, v: Vma) returns (s': State<nat>)
    requires Reachable(s) && t in s.pc && s.pc[t] == Idle && Unused(s, v) && s.order == 0
    ensures Reachable(s') && s' == s.(pc := s.pc[t := VStore(v, Mapped, s.vmas)])
  {
    s' := Play(s, Mmap(t, v));
    s' := Play(s', Go(t));
    s' := Play(s', Go(t));
    assert s'.pc == s.pc[t := VStore(v, Mapped, s.vmas)];
  }

  /** Thread t unmaps an area. */
  lemma PlayUnmap(s: State<nat>, t: Tid, v: Vma) returns (s': State<nat>)
    requires Reachable(s) && t in s.pc && s.pc[t] == Idle && v in s.mappings
    requires forall u <- s.pc :: s.pc[u] == Idle
    ensures Reachable(s') && s'.seen == set e | e in s.seen && e.0 != v
    ensures s' == s.(vmas := s.vmas - 1, mappings := s.mappings - {v}, seen := s'.seen)
  {
    s' := Play(s, Unmap(t, v));
    s' := Play(s', Go(t));
    s' := Play(s', Go(t));
    assert s'.pc == s.pc;
  }

  /** Thread t opens for writing and is past its test. */
  lemma PlayTrim(s: State<nat>, t: Tid) returns (s': State<nat>)
    requires Reachable(s) && t in s.pc && s.pc[t] == Idle && s.lock == Free && s.vmas == 0
    ensures Reachable(s') && s' == s.(lock := HeldBy(t), pc := s.pc[t := TFree])
  {
    s' := Play(s, OpenWriteOnly(t));
    s' := Play(s', Go(t));
    s' := Play(s', Go(t));
    assert s'.pc == s.pc[t := TFree];
  }

  /** The order has been set to 1 by ioctl.  A trim finds no mapping; another process
      maps the device, which still has order 0; the trim goes on.  The device is mapped,
      with order 1. */
  lemma TrimRace() returns (s: State<nat>)
    ensures Reachable(s) && Counted(s) && s.mappings != {} && s.order == 1
  {
    StartReachable();
    s := Play(Start(), Ioctl(1, 1));
    s := PlayTrim(s, 0);
    s := PlayMmap(s, 1, 7);
    s := Play(s, Go(1));
    s := TrimGoesOn(s);
  }

  lemma TrimGoesOn(s: State<nat>) returns (s': State<nat>)
    requires Reachable(s) && 0 in s.pc && s.pc[0] == TFree
    ensures Reachable(s') && s'.vmas == s.vmas && s'.mappings == s.mappings && s'.order == s.newOrder
  {
    s' := Play(s, Go(0));
    s' := Play(s', Go(0));
  }

  /** Two mmaps load the same count, so two mappings count as one. */
  lemma CountIsLost() returns (s: State<nat>)
    ensures Reachable(s) && s.vmas == 1 && s.mappings == {7, 8} && s.lock == Free
    ensures s.seen == {} && s.dropped == {}
    ensures s.pages == map[(0, 0) := 5] && s.pc == map[0 := Idle, 1 := Idle]
  {
    StartReachable();
    s := Play(Start(), Write((0, 0), 4096, 5));
    s := PlayMmap(s, 0, 7);
    s := PlayMmap(s, 1, 8);
    s := Play(s, Go(1));
    s := Play(s, Go(0));
    assert s.seen == {} && s.mappings == {7, 8};
  }

  /** When one of them goes, the count is zero, while the other has a page in its page
      tables... */
  lemma ZeroWhileMapped() returns (s: State<nat>)
    ensures Reachable(s) && s.vmas == 0 && 7 in s.mappings && (7, 5) in s.seen
    ensures s.pages == map[(0, 0) := 5] && s.lock == Free && s.pc == map[0 := Idle, 1 := Idle]
  {
    s := CountIsLost();
    s := Play(s, Fault(7, (0, 0)));
    s := PlayUnmap(s, 1, 8);
    assert s.pc == map[0 := Idle, 1 := Idle];
  }

  /** ...and a trim gives up that page, which nothing but the mapping then holds. */
  lemma LostCountDropsMappedPage() returns (s: State<nat>)
    ensures Reachable(s) && 7 in s.mappings && (7, 5) in s.seen && 5 in s.dropped
  {
    s := ZeroWhileMapped();
    s := PlayTrim(s, 0);
    assert s.pages[(0, 0)] in s.pages.Values;
    s := Play(s, Go(0));
  }
}
