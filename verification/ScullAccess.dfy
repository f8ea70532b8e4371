/** The blocking uid-based open of scull/access.c with any number of threads,
    interleaved at every lock, load, queue, count and wake step.  The condition
    of wait_event is evaluated without the lock, one load at a time. */
module ScullAccess {
  type Tid = nat
  type Fid = nat

  /** What the kernel knows of the opener: current_uid(), current_euid() and
      whether it has CAP_DAC_OVERRIDE. */
  datatype Cred = Cred(uid: nat, euid: nat, override: bool)

  /** The operand of scull_w_available() that is evaluated next. */
  datatype Operand = Count | Uid | Euid

  datatype Pc =
    | Idle
    // scull_w_open
    | OLock(cred: Cred)                                // about to take the spin lock
    | OCheck(cred: Cred)                               // holds it, evaluates the condition
    | OCond(cred: Cred, operand: Operand, queued: bool) // wait_event evaluates it, unlocked
    | OEnqueue(cred: Cred)
    | OAsleep(cred: Cred)
    | OGrab(cred: Cred)                                // holds it, admitted
    | OCount(cred: Cred)
    | OUnlock(cred: Cred)                              // counted
    // scull_w_release
    | CLock(cred: Cred)
    | CDecrement(cred: Cred)
    | CTemp | CUnlock(temp: int) | CWake               // counted out

  datatype Lock = Free | HeldBy(t: Tid)

  datatype State = State(
    count: int, owner: nat,
    lock: Lock,
    pc: map<Tid, Pc>,
    queue: set<Tid>,        // openers queued and not woken
    files: map<Fid, Cred>,  // open files, with who opened them
    nextFile: Fid)

  datatype Event =
    | Open(t: Tid, cred: Cred)  // an idle thread calls open()
    | Release(t: Tid, f: Fid)   // an idle thread drops the last reference to an open file
    | Go(t: Tid)                // the thread takes its next step
    | GiveUp(t: Tid)            // EAGAIN, or a signal, where the source returns

  function Init(threads: set<Tid>): State {
    State(0, 0, Free, map t | t in threads :: Idle, {}, map[], 0)
  }

  predicate Holds(pc: Pc) {
    pc.OCheck? || pc.OGrab? || pc.OCount? || pc.OUnlock? || pc.CDecrement? || pc.CTemp? || pc.CUnlock?
  }

  predicate Available(count: int, owner: nat, cred: Cred) {
    count == 0 || owner == cred.uid || owner == cred.euid || cred.override
  }

  predicate CanGo(s: State, t: Tid) {
    t in s.pc &&
    match s.pc[t]
    case Idle => false
    case OLock(_) => s.lock == Free
    case CLock(_) => s.lock == Free
    case OAsleep(_) => t !in s.queue
    case _ => true
  }

  /** Where an open returns without a file: EAGAIN just after unlocking, or a signal. */
  predicate MayReturn(pc: Pc) {
    pc.OAsleep? || (pc.OCond? && pc.operand == Count && !pc.queued)
  }

  predicate Enabled(s: State, e: Event) {
    match e
    case Open(t, _) => t in s.pc && s.pc[t] == Idle
    case Release(t, f) => t in s.pc && s.pc[t] == Idle && f in s.files
    case Go(t) => CanGo(s, t)
    case GiveUp(t) => t in s.pc && MayReturn(s.pc[t])
  }

  /** The condition of wait_event came out true: leave the queue, if on it. */
  function CondTrue(s: State, t: Tid): State
    requires t in s.pc && s.pc[t].OCond?
  {
    s.(queue := s.queue - {t}, pc := s.pc[t := OLock(s.pc[t].cred)])
  }

  /** One load of the unlocked condition. */
  function Evaluate(s: State, t: Tid): State
    requires t in s.pc && s.pc[t].OCond?
  {
    var OCond(cred, operand, queued) := s.pc[t];
    match operand
    case Count => if s.count == 0 then CondTrue(s, t) else s.(pc := s.pc[t := OCond(cred, Uid, queued)])
    case Uid => if s.owner == cred.uid then CondTrue(s, t) else s.(pc := s.pc[t := OCond(cred, Euid, queued)])
    case Euid =>
      if s.owner == cred.euid || cred.override then CondTrue(s, t)
      else s.(pc := s.pc[t := if queued then OAsleep(cred) else OEnqueue(cred)])
  }

  function Advance(s: State, t: Tid): State
    requires CanGo(s, t)
  {
    match s.pc[t]
    case Idle => s
    case OLock(c) => s.(lock := HeldBy(t), pc := s.pc[t := OCheck(c)])
    case OCheck(c) =>
      if Available(s.count, s.owner, c) then s.(pc := s.pc[t := OGrab(c)])
      else s.(lock := Free, pc := s.pc[t := OCond(c, Count, false)])
    case OCond(_, _, _) => Evaluate(s, t)
    case OEnqueue(c) => s.(queue := s.queue + {t}, pc := s.pc[t := OCond(c, Count, true)])
    case OAsleep(c) => s.(pc := s.pc[t := OEnqueue(c)])
    case OGrab(c) => s.(owner := if s.count == 0 then c.uid else s.owner, pc := s.pc[t := OCount(c)])
    case OCount(c) => s.(count := s.count + 1, pc := s.pc[t := OUnlock(c)])
    case OUnlock(c) =>
      s.(lock := Free, files := s.files[s.nextFile := c], nextFile := s.nextFile + 1, pc := s.pc[t := Idle])
    case CLock(c) => s.(lock := HeldBy(t), pc := s.pc[t := CDecrement(c)])
    case CDecrement(c) => s.(count := s.count - 1, pc := s.pc[t := CTemp])
    case CTemp => s.(pc := s.pc[t := CUnlock(s.count)])
    case CUnlock(temp) => s.(lock := Free, pc := s.pc[t := if temp == 0 then CWake else Idle])
    case CWake => s.(queue := {}, pc := s.pc[t := Idle])
  }

  function Step(s: State, e: Event): State
    requires Enabled(s, e)
  {
    match e
    case Open(t, c) => s.(pc := s.pc[t := OLock(c)])
    case Release(t, f) => s.(files := s.files - {f}, pc := s.pc[t := CLock(s.files[f])])
    case Go(t) => Advance(s, t)
    case GiveUp(t) => s.(pc := s.pc[t := Idle], queue := s.queue - {t})
  }

  /** s' is reached from s by the events es. */
  ghost predicate Run(s: State, es: seq<Event>, s': State)
    decreases |es|
  {
    if es == [] then s' == s
    else Enabled(s, es[0]) && Run(Step(s, es[0]), es[1..], s')
  }

  ghost predicate Reachable(threads: set<Tid>, s: State) {
    exists es :: Run(Init(threads), es, s)
  }

  // ---------- the invariant ----------

  ghost predicate Mutex(s: State) {
    && (s.lock.HeldBy? ==> s.lock.t in s.pc)
    && (forall t <- s.pc :: Holds(s.pc[t]) <==> s.lock == HeldBy(t))
  }

  /** Counted in, and its file not yet returned; or its file dropped, and not yet
      counted out. */
  predicate Halfway(pc: Pc) {
    pc.OUnlock? || pc.CLock? || pc.CDecrement?
  }

  function InTransit(pcs: map<Tid, Pc>): set<Tid> {
    set t | t in pcs && Halfway(pcs[t])
  }

  ghost predicate Counts(s: State) {
    && s.count == |s.files| + |InTransit(s.pc)|
    && (forall f <- s.files :: f < s.nextFile)
  }

  /** The device is the opener's own, or its su's, or it may override. */
  predicate Serves(owner: nat, cred: Cred) {
    owner == cred.uid || owner == cred.euid || cred.override
  }

  ghost predicate Admitted(s: State) {
    && (forall f <- s.files :: Serves(s.owner, s.files[f]))
    && (forall t <- s.pc :: Halfway(s.pc[t]) || s.pc[t].OCount? ==> Serves(s.owner, s.pc[t].cred))
    && (forall t <- s.pc :: s.pc[t].OGrab? ==> Available(s.count, s.owner, s.pc[t].cred))
  }

  ghost predicate Queue(s: State) {
    forall t <- s.queue :: t in s.pc && (s.pc[t].OAsleep? || (s.pc[t].OCond? && s.pc[t].queued))
  }

  /** What a queued opener has read so far is still so. */
  predicate StillRefused(s: State, pc: Pc) {
    match pc
    case OCond(c, Uid, _) => s.count != 0
    case OCond(c, Euid, _) => s.count != 0 && s.owner != c.uid
    case OAsleep(c) => !Available(s.count, s.owner, c)
    case _ => true
  }

  /** A thread has counted the last file out and will wake the queue. */
  predicate WillWake(s: State, pc: Pc) {
    pc.CWake? || (pc.CUnlock? && pc.temp == 0) || (pc.CTemp? && s.count == 0)
  }

  ghost predicate WakeDue(s: State) {
    exists t <- s.pc :: WillWake(s, s.pc[t])
  }

  ghost predicate NoLostWakeup(s: State)
    requires Queue(s)
  {
    forall t <- s.queue :: StillRefused(s, s.pc[t]) || WakeDue(s)
  }

  ghost predicate Inv(s: State) {
    Mutex(s) && Counts(s) && Admitted(s) && Queue(s) && NoLostWakeup(s)
  }

  // ---------- every step keeps it ----------

  lemma InitInv(threads: set<Tid>)
    ensures Inv(Init(threads))
  {
    assert InTransit(Init(threads).pc) == {};
  }

  /** A step changes the place of one thread... */
  lemma StepMovesOne(s: State, e: Event)
    requires Enabled(s, e)
    ensures e.t in Step(s, e).pc && Step(s, e).pc == s.pc[e.t := Step(s, e).pc[e.t]]
  {
  }

  /** ...and takes or frees the lock exactly as that place says. */
  lemma StepMovesLock(s: State, e: Event)
    requires Enabled(s, e) && e.t in Step(s, e).pc
    ensures var s' := Step(s, e);
      && (Holds(s'.pc[e.t]) ==> s'.lock == if Holds(s.pc[e.t]) then s.lock else HeldBy(e.t))
      && (Holds(s'.pc[e.t]) && !Holds(s.pc[e.t]) ==> s.lock == Free)
      && (!Holds(s'.pc[e.t]) ==> s'.lock == if Holds(s.pc[e.t]) then Free else s.lock)
  {
  }

  lemma StepKeepsMutex(s: State, e: Event)
    requires Mutex(s) && Enabled(s, e)
    ensures Mutex(Step(s, e))
  {
    StepMovesOne(s, e);
    StepMovesLock(s, e);
  }

  lemma StepKeepsQueue(s: State, e: Event)
    requires Queue(s) && Enabled(s, e)
    ensures Queue(Step(s, e))
  {
  }

  /** How one thread's move changes the number of those in transit. */
  lemma TransitChanges(pcs: map<Tid, Pc>, t: Tid, pc: Pc)
    requires t in pcs
    ensures |InTransit(pcs[t := pc])| ==
      |InTransit(pcs)| + (if Halfway(pc) then 1 else 0) - (if Halfway(pcs[t]) then 1 else 0)
  {
    var others := InTransit(pcs) - {t};
    assert InTransit(pcs) == if Halfway(pcs[t]) then others + {t} else others;
    assert InTransit(pcs[t := pc]) == if Halfway(pc) then others + {t} else others;
  }

  /** The open files change only as a file is returned or dropped, the count only where
      one is counted in or out. */
  ghost predicate Moves(s: State, e: Event, s': State)
    requires e.t in s.pc
  {
    && s'.count - s.count ==
      (if e.Go? && s.pc[e.t].OCount? then 1 else if e.Go? && s.pc[e.t].CDecrement? then -1 else 0)
    && s'.files == (
      if e.Release? then s.files - {e.f}
      else if e.Go? && s.pc[e.t].OUnlock? then s.files[s.nextFile := s.pc[e.t].cred]
      else s.files)
    && s'.nextFile == s.nextFile + (if e.Go? && s.pc[e.t].OUnlock? then 1 else 0)
  }

  lemma StepChanges(s: State, e: Event)
    requires Enabled(s, e)
    ensures Moves(s, e, Step(s, e))
  {
  }

  /** Who comes to be in transit. */
  lemma StepTransits(s: State, e: Event)
    requires Enabled(s, e) && e.t in Step(s, e).pc
    ensures Halfway(Step(s, e).pc[e.t]) == (e.Release? || (e.Go? && (s.pc[e.t].OCount? || s.pc[e.t].CLock?)))
  {
  }

  lemma FilesChange(files: map<Fid, Cred>, f: Fid, cred: Cred)
    ensures |files - {f}| == |files| - (if f in files then 1 else 0)
    ensures |files[f := cred]| == |files| + (if f in files then 0 else 1)
  {
    assert (files - {f}).Keys == files.Keys - {f};
    assert files[f := cred].Keys == files.Keys + {f};
  }

  /** The count moves by one exactly when a file, or a thread in transit, appears or goes. */
  lemma StepKeepsCounts(s: State, e: Event)
    requires Counts(s) && Enabled(s, e)
    ensures Counts(Step(s, e))
  {
    StepMovesOne(s, e);
    StepChanges(s, e);
    StepTransits(s, e);
    CountsFollow(s, e, Step(s, e));
  }

  lemma CountsFollow(s: State, e: Event, s': State)
    requires Counts(s) && e.t in s.pc && Moves(s, e, s')
    requires e.t in s'.pc && s'.pc == s.pc[e.t := s'.pc[e.t]]
    requires Halfway(s'.pc[e.t]) == (e.Release? || (e.Go? && (s.pc[e.t].OCount? || s.pc[e.t].CLock?)))
    requires e.Release? ==> e.f in s.files
    requires !e.Go? ==> !Halfway(s.pc[e.t])
    ensures Counts(s')
  {
    TransitChanges(s.pc, e.t, s'.pc[e.t]);
    if e.Release? {
      FilesChange(s.files, e.f, s.files[e.f]);
    } else if e.Go? && s.pc[e.t].OUnlock? {
      FilesChange(s.files, s.nextFile, s.pc[e.t].cred);
    }
  }

  /** With nothing counted, no file is open and none is in transit. */
  lemma UncountedIsUnused(s: State)
    requires Counts(s) && s.count == 0
    ensures s.files == map[]
    ensures forall t <- s.pc :: !Halfway(s.pc[t])
  {
    assert InTransit(s.pc) == {};
    forall t <- s.pc ensures !Halfway(s.pc[t]) {
      assert t !in InTransit(s.pc);
    }
  }

  /** The owner changes only where nobody is counted. */
  lemma GrabKeepsAdmitted(s: State, t: Tid)
    requires Mutex(s) && Counts(s) && Admitted(s) && CanGo(s, t) && s.pc[t].OGrab?
    ensures Admitted(Advance(s, t))
  {
    if s.count == 0 {
      UncountedIsUnused(s);
    }
  }

  /** Who may have a file, or be about to, under an owner and a count. */
  predicate MayBe(count: int, owner: nat, pc: Pc) {
    && (Halfway(pc) || pc.OCount? ==> Serves(owner, pc.cred))
    && (pc.OGrab? ==> Available(count, owner, pc.cred))
  }

  /** The owner changes only as the device is grabbed. */
  lemma StepMovesOwner(s: State, e: Event)
    requires Enabled(s, e)
    ensures Step(s, e).owner == s.owner || (e.Go? && s.pc[e.t].OGrab? && s.count == 0)
  {
  }

  lemma OwnStepKeepsAdmitted(s: State, e: Event)
    requires Enabled(s, e) && !(e.Go? && s.pc[e.t].OGrab?) && MayBe(s.count, s.owner, s.pc[e.t])
    requires e.Release? ==> Serves(s.owner, s.files[e.f])
    requires e.t in Step(s, e).pc
    ensures MayBe(Step(s, e).count, s.owner, Step(s, e).pc[e.t])
  {
  }

  lemma StepKeepsAdmitted(s: State, e: Event)
    requires Mutex(s) && Counts(s) && Admitted(s) && Enabled(s, e)
    ensures Admitted(Step(s, e))
  {
    if e.Go? && s.pc[e.t].OGrab? {
      GrabKeepsAdmitted(s, e.t);
    } else {
      StepMovesOne(s, e);
      StepMovesOwner(s, e);
      StepChanges(s, e);
      assert MayBe(s.count, s.owner, s.pc[e.t]);
      OwnStepKeepsAdmitted(s, e);
      AdmittedAfter(s, Step(s, e), e.t);
    }
  }

  /** Nobody else is between being admitted and being counted when the count moves. */
  lemma AdmittedAfter(s: State, s': State, t: Tid)
    requires Mutex(s) && Admitted(s) && t in s.pc && t in s'.pc && s'.pc == s.pc[t := s'.pc[t]]
    requires s'.owner == s.owner && MayBe(s'.count, s.owner, s'.pc[t])
    requires s'.count == s.count || s.pc[t].OCount? || s.pc[t].CDecrement?
    requires forall f <- s'.files :: Serves(s.owner, s'.files[f])
    ensures Admitted(s')
  {
    forall u <- s'.pc
      ensures MayBe(s'.count, s'.owner, s'.pc[u])
    {
      assert u == t || (s'.pc[u] == s.pc[u] && MayBe(s.count, s.owner, s.pc[u]));
      if s'.count != s.count {
        assert Holds(s.pc[t]);
      }
    }
  }

  /** A wake that is due stays due, or is done. */
  lemma WakeStaysDue(s: State, e: Event)
    requires Mutex(s) && Enabled(s, e) && WakeDue(s)
    ensures WakeDue(Step(s, e)) || Step(s, e).queue == {}
  {
    var d :| d in s.pc && WillWake(s, s.pc[d]);
    StepMovesOne(s, e);
    StepChanges(s, e);
    assert d in Step(s, e).pc;
    if d == e.t {
      OwnWakeStaysDue(s, e);
    } else if s.pc[d].CTemp? {
      assert Holds(s.pc[d]);
    }
  }

  lemma OwnWakeStaysDue(s: State, e: Event)
    requires Enabled(s, e) && WillWake(s, s.pc[e.t]) && e.t in Step(s, e).pc
    ensures WillWake(Step(s, e), Step(s, e).pc[e.t]) || Step(s, e).queue == {}
  {
  }

  /** Counting the last file out makes a wake due. */
  lemma CountingOutIsDue(s: State, e: Event)
    requires Enabled(s, e) && e.Go? && s.pc[e.t].CDecrement? && Step(s, e).count == 0
    ensures WakeDue(Step(s, e))
  {
    assert e.t in Step(s, e).pc && WillWake(Step(s, e), Step(s, e).pc[e.t]);
  }

  lemma OwnStepStillRefused(s: State, e: Event)
    requires Queue(s) && Enabled(s, e) && e.t in Step(s, e).queue && e.t in Step(s, e).pc
    requires e.t in s.queue ==> StillRefused(s, s.pc[e.t])
    ensures StillRefused(Step(s, e), Step(s, e).pc[e.t])
  {
  }

  /** While the count stays above zero, the owner stays, and a refusal with it. */
  lemma StillRefusedAfter(s: State, s': State, pc: Pc)
    requires 0 <= s.count && StillRefused(s, pc)
    requires s'.owner == s.owner || s.count == 0
    requires s'.count == s.count || s'.count != 0
    requires s'.count != s.count ==> s'.owner == s.owner
    ensures StillRefused(s', pc)
  {
  }

  lemma QueueMoves(s: State, e: Event)
    requires Enabled(s, e)
    ensures Step(s, e).queue <= s.queue + {e.t}
  {
  }

  lemma StepKeepsWakeup(s: State, e: Event, u: Tid)
    requires Mutex(s) && Counts(s) && Queue(s) && NoLostWakeup(s) && Enabled(s, e)
    requires Queue(Step(s, e)) && u in Step(s, e).queue
    ensures StillRefused(Step(s, e), Step(s, e).pc[u]) || WakeDue(Step(s, e))
  {
    StepMovesOne(s, e);
    QueueMoves(s, e);
    if WakeDue(s) {
      WakeStaysDue(s, e);
    } else if u == e.t {
      OwnStepStillRefused(s, e);
    } else {
      StepChanges(s, e);
      StepMovesOwner(s, e);
      if Step(s, e).count == 0 && s.count != 0 {
        CountingOutIsDue(s, e);
      } else {
        StillRefusedAfter(s, Step(s, e), s.pc[u]);
      }
    }
  }

  lemma StepKeepsInv(s: State, e: Event)
    requires Inv(s) && Enabled(s, e)
    ensures Inv(Step(s, e))
  {
    StepKeepsMutex(s, e);
    StepKeepsQueue(s, e);
    StepKeepsCounts(s, e);
    StepKeepsAdmitted(s, e);
    var s' := Step(s, e);
    forall u <- s'.queue ensures StillRefused(s', s'.pc[u]) || WakeDue(s') {
      StepKeepsWakeup(s, e, u);
    }
  }

  lemma {:induction false} RunKeepsInv(s: State, es: seq<Event>, s': State)
    requires Inv(s) && Run(s, es, s')
    ensures Inv(s')
    decreases |es|
  {
    if es != [] {
      StepKeepsInv(s, es[0]);
      RunKeepsInv(Step(s, es[0]), es[1..], s');
    }
  }

  lemma ReachableInv(threads: set<Tid>, s: State)
    requires Reachable(threads, s)
    ensures Inv(s)
  {
    InitInv(threads);
    var es :| Run(Init(threads), es, s);
    RunKeepsInv(Init(threads), es, s);
  }

  // ---------- what holds over every run ----------

  /** No lost wakeup.  In every interleaving, an opener asleep and not woken may
      not have the device, or the last file has been counted out and the wake is
      still to come; so also when its condition was put together from loads made
      at different moments. */
  lemma NoOpenerIsForgotten(threads: set<Tid>, s: State, t: Tid)
    requires Reachable(threads, s) && t in s.queue
    ensures t in s.pc
    ensures s.pc[t].OAsleep? ==> !Available(s.count, s.owner, s.pc[t].cred) || WakeDue(s)
  {
    ReachableInv(threads, s);
  }

  /** The count is the number of open files, up to the threads in the middle of an
      open or a release. */
  lemma CountIsOpenFiles(threads: set<Tid>, s: State)
    requires Reachable(threads, s)
    ensures s.count == |s.files| + |InTransit(s.pc)|
    ensures (forall t <- s.pc :: !Halfway(s.pc[t])) ==> s.count == |s.files|
  {
    ReachableInv(threads, s);
    if forall t <- s.pc :: !Halfway(s.pc[t]) {
      assert InTransit(s.pc) == {};
    }
  }

  /** Exclusion.  Every open file is the owner's, or its su's, or privileged; so two
      unprivileged ones have the owner as an id in common. */
  lemma OpenFilesShareTheOwner(threads: set<Tid>, s: State, f: Fid, g: Fid)
    requires Reachable(threads, s) && f in s.files && g in s.files
    ensures Serves(s.owner, s.files[f])
    ensures !s.files[f].override && !s.files[g].override ==>
      {s.files[f].uid, s.files[f].euid} * {s.files[g].uid, s.files[g].euid} != {}
  {
    ReachableInv(threads, s);
    if !s.files[f].override && !s.files[g].override {
      assert s.owner in {s.files[f].uid, s.files[f].euid} * {s.files[g].uid, s.files[g].euid};
    }
  }

  lemma StepKeepsOwner(s: State, e: Event, f: Fid)
    requires Inv(s) && Enabled(s, e) && f in s.files && (e.Release? ==> e.f != f)
    ensures f in Step(s, e).files && Step(s, e).owner == s.owner
  {
    assert s.count != 0 by {
      if s.count == 0 { UncountedIsUnused(s); }
    }
  }

  /** Somebody has the device counted at every point of the run. */
  ghost predicate CountedThroughout(s: State, es: seq<Event>)
    decreases |es|
  {
    s.count != 0 && (es == [] || (Enabled(s, es[0]) && CountedThroughout(Step(s, es[0]), es[1..])))
  }

  lemma CountedStepKeepsOwner(s: State, e: Event)
    requires Enabled(s, e) && s.count != 0
    ensures Step(s, e).owner == s.owner
  {
  }

  /** The owner never changes while the count is not zero, whoever opens and releases. */
  lemma {:induction false} OwnerStaysWhileCounted(s: State, es: seq<Event>, s': State)
    requires Run(s, es, s') && CountedThroughout(s, es)
    ensures s'.owner == s.owner
    decreases |es|
  {
    if es != [] {
      CountedStepKeepsOwner(s, es[0]);
      OwnerStaysWhileCounted(Step(s, es[0]), es[1..], s');
    }
  }

  /** The owner stays for as long as a file stays open, whoever opens and releases
      others meanwhile. */
  lemma {:induction false} OwnerStays(s: State, es: seq<Event>, s': State, f: Fid)
    requires Inv(s) && Run(s, es, s') && f in s.files
    requires forall e <- es :: e.Release? ==> e.f != f
    ensures f in s'.files && s'.owner == s.owner
    decreases |es|
  {
    if es != [] {
      StepKeepsInv(s, es[0]);
      StepKeepsOwner(s, es[0], f);
      OwnerStays(Step(s, es[0]), es[1..], s', f);
    }
  }

  /** No deadlock.  When no thread inside a call can move, all of them are openers
      asleep, files are open, and the owner of these is neither the sleeper nor its su. */
  lemma OnlyAnotherOwnerBlocks(threads: set<Tid>, s: State, t: Tid)
    requires Reachable(threads, s) && t in s.pc && s.pc[t] != Idle
    requires forall u <- s.pc :: s.pc[u] == Idle || !CanGo(s, u)
    ensures s.lock == Free && s.pc[t].OAsleep?
    ensures !Serves(s.owner, s.pc[t].cred)
    ensures s.files != map[]
  {
    ReachableInv(threads, s);
    if s.lock.HeldBy? {
      assert Holds(s.pc[s.lock.t]) && CanGo(s, s.lock.t);
    }
    assert t in s.queue && !WakeDue(s);
    assert InTransit(s.pc) == {};
  }
}
