/** What one call of scull_w_open() or scull_w_release() does, taken alone and among any
    other calls, and who comes to own the device. */
module AccessCalls {
  import opened ScullAccess

  // ---------- the owner ----------

  /** What an onlooker writes down: with which identity each thread last called open(), and
      the uid of the opener that last counted itself in on an idle device. */
  datatype Notes = Notes(openers: map<Tid, Cred>, grabber: nat)

  predicate Grabs(s: State, e: Event) {
    e.Go? && e.t in s.pc && s.pc[e.t].OCount? && s.count == 0
  }

  function Note(s: State, e: Event, notes: Notes): Notes {
    if e.Open? then notes.(openers := notes.openers[e.t := e.cred])
    else if Grabs(s, e) && e.t in notes.openers then notes.(grabber := notes.openers[e.t].uid)
    else notes
  }

  /** The notes at the end of a run. */
  ghost function Noted(s: State, es: seq<Event>, notes: Notes): Notes
    decreases |es|
  {
    if es == [] || !Enabled(s, es[0]) then notes
    else Noted(Step(s, es[0]), es[1..], Note(s, es[0], notes))
  }

  predicate Opening(pc: Pc) {
    pc.OLock? || pc.OCheck? || pc.OCond? || pc.OEnqueue? || pc.OAsleep? || pc.OGrab? || pc.OCount? || pc.OUnlock?
  }

  /** An opener is who it was when it called. */
  ghost predicate KnowsOpeners(s: State, openers: map<Tid, Cred>) {
    forall t <- s.pc :: Opening(s.pc[t]) ==> t in openers && openers[t] == s.pc[t].cred
  }

  /** The owner is the grabber while the device is counted; before that the thread that is
      about to count itself in. */
  ghost predicate KnowsOwner(s: State, grabber: nat) {
    && (s.count != 0 ==> s.owner == grabber)
    && (forall t <- s.pc :: s.pc[t].OCount? && s.count == 0 ==> s.owner == s.pc[t].cred.uid)
  }

  lemma OwnStepKeepsOpener(s: State, e: Event)
    requires Enabled(s, e) && e.t in Step(s, e).pc && Opening(Step(s, e).pc[e.t])
    ensures if e.Open? then Step(s, e).pc[e.t].cred == e.cred
            else Opening(s.pc[e.t]) && Step(s, e).pc[e.t].cred == s.pc[e.t].cred
  {
  }

  lemma StepKeepsOpeners(s: State, e: Event, notes: Notes)
    requires KnowsOpeners(s, notes.openers) && Enabled(s, e)
    ensures KnowsOpeners(Step(s, e), Note(s, e, notes).openers)
  {
    StepMovesOne(s, e);
    if Opening(Step(s, e).pc[e.t]) {
      OwnStepKeepsOpener(s, e);
    }
  }

  /** The count leaves zero only as the grabber counts itself in. */
  lemma OwnerAfter(s: State, e: Event)
    requires Enabled(s, e)
    ensures s.count != 0 || s.pc[e.t].OGrab? || Step(s, e).owner == s.owner
    ensures Step(s, e).count == s.count || (e.Go? && (s.pc[e.t].OCount? || s.pc[e.t].CDecrement?))
    ensures e.Go? && s.pc[e.t].OGrab? && s.count == 0 ==> Step(s, e).owner == s.pc[e.t].cred.uid
    ensures e.t in Step(s, e).pc && Step(s, e).pc[e.t].OCount? ==> e.Go? && s.pc[e.t] == OGrab(Step(s, e).pc[e.t].cred)
  {
  }

  lemma StepKeepsOwnerKnown(s: State, e: Event, notes: Notes)
    requires Mutex(s) && Counts(s) && KnowsOpeners(s, notes.openers) && KnowsOwner(s, notes.grabber) && Enabled(s, e)
    ensures KnowsOwner(Step(s, e), Note(s, e, notes).grabber)
  {
    StepMovesOne(s, e);
    StepMovesOwner(s, e);
    OwnerAfter(s, e);
    assert e.Go? && s.pc[e.t].CDecrement? ==> s.count != 0 by {
      if s.count == 0 { UncountedIsUnused(s); }
    }
    var s' := Step(s, e);
    forall t <- s'.pc | s'.pc[t].OCount? && s'.count == 0
      ensures s'.owner == s'.pc[t].cred.uid
    {
      assert t != e.t ==> s'.pc[t] == s.pc[t] && Holds(s.pc[t]);
    }
  }

  lemma {:induction false} RunKeepsNotes(s: State, es: seq<Event>, s': State, notes: Notes)
    requires Inv(s) && Run(s, es, s') && KnowsOpeners(s, notes.openers) && KnowsOwner(s, notes.grabber)
    ensures KnowsOpeners(s', Noted(s, es, notes).openers) && KnowsOwner(s', Noted(s, es, notes).grabber)
    decreases |es|
  {
    if es != [] {
      StepKeepsInv(s, es[0]);
      StepKeepsOpeners(s, es[0], notes);
      StepKeepsOwnerKnown(s, es[0], notes);
      RunKeepsNotes(Step(s, es[0]), es[1..], s', Note(s, es[0], notes));
    }
  }

  /** In every run: while anyone is counted, the owner is the real uid with which the opener
      called that last counted itself in on an idle device. */
  lemma OwnerIsTheGrabber(threads: set<Tid>, es: seq<Event>, s: State)
    requires Run(Init(threads), es, s) && s.count != 0
    ensures s.owner == Noted(Init(threads), es, Notes(map[], 0)).grabber
  {
    InitInv(threads);
    RunKeepsNotes(Init(threads), es, s, Notes(map[], 0));
  }

  // ---------- a call among others ----------

  /** A call of thread t, up to where it returns. */
  ghost predicate CallRun(s: State, es: seq<Event>, t: Tid, s': State)
    decreases |es|
  {
    t in s.pc &&
    if s.pc[t] == Idle then es == [] && s' == s
    else es != [] && Enabled(s, es[0]) && CallRun(Step(s, es[0]), es[1..], t, s')
  }

  /** m is one of the states of the run. */
  ghost predicate Passes(s: State, es: seq<Event>, m: State)
    decreases |es|
  {
    m == s || (es != [] && Enabled(s, es[0]) && Passes(Step(s, es[0]), es[1..], m))
  }

  /** How the steps of thread t move the count, and how many files they return. */
  ghost function CountedBy(s: State, es: seq<Event>, t: Tid): int
    decreases |es|
  {
    if es == [] || !Enabled(s, es[0]) then 0
    else (if es[0].t == t then Step(s, es[0]).count - s.count else 0) + CountedBy(Step(s, es[0]), es[1..], t)
  }

  ghost function FilesBy(s: State, es: seq<Event>, t: Tid): int
    decreases |es|
  {
    if es == [] || !Enabled(s, es[0]) then 0
    else (if es[0].t == t then Step(s, es[0]).nextFile - s.nextFile else 0) + FilesBy(Step(s, es[0]), es[1..], t)
  }

  /** The newest file is the opener's. */
  ghost predicate HasOpened(s: State, cred: Cred) {
    0 < s.nextFile && s.nextFile - 1 in s.files && s.files[s.nextFile - 1] == cred
  }

  predicate Admitting(pc: Pc, cred: Cred) {
    (pc.OGrab? || pc.OCount? || pc.OUnlock?) && pc.cred == cred
  }

  predicate Waiting(pc: Pc) {
    pc.OLock? || pc.OCheck? || pc.OCond? || pc.OEnqueue? || pc.OAsleep?
  }

  predicate Asking(pc: Pc, cred: Cred) {
    Waiting(pc) && pc.cred == cred
  }

  predicate Releasing(pc: Pc) {
    pc.CLock? || pc.CDecrement? || pc.CTemp? || pc.CUnlock? || pc.CWake?
  }

  lemma OthersLeaveCall(s: State, e: Event, t: Tid)
    requires Enabled(s, e) && e.t != t && t in s.pc
    ensures t in Step(s, e).pc && Step(s, e).pc[t] == s.pc[t]
  {
    StepMovesOne(s, e);
  }

  lemma AdmittedGoesOn(s: State, t: Tid, cred: Cred)
    requires CanGo(s, t) && Admitting(s.pc[t], cred)
    ensures var s' := Advance(s, t);
      && s'.count - s.count == (if s.pc[t].OCount? then 1 else 0)
      && s'.nextFile - s.nextFile == (if s.pc[t].OUnlock? then 1 else 0)
      && (s.pc[t].OGrab? ==> s'.pc[t] == OCount(cred)) && (s.pc[t].OCount? ==> s'.pc[t] == OUnlock(cred))
      && (s.pc[t].OUnlock? ==> s'.pc[t] == Idle && HasOpened(s', cred))
  {
  }

  lemma WaitingGoesOn(s: State, t: Tid, cred: Cred)
    requires CanGo(s, t) && Asking(s.pc[t], cred)
    ensures Advance(s, t).count == s.count && Advance(s, t).nextFile == s.nextFile
    ensures if s.pc[t].OCheck? && Available(s.count, s.owner, cred) then Advance(s, t).pc[t] == OGrab(cred)
            else Asking(Advance(s, t).pc[t], cred)
  {
  }

  lemma ReleasingGoesOn(s: State, t: Tid)
    requires CanGo(s, t) && Releasing(s.pc[t])
    ensures var s' := Advance(s, t);
      && s'.count - s.count == (if s.pc[t].CDecrement? then -1 else 0) && s'.nextFile == s.nextFile
      && (if s'.pc[t] == Idle then !s.pc[t].CLock? && !s.pc[t].CDecrement? else Releasing(s'.pc[t]))
      && ((s'.pc[t].CLock? || s'.pc[t].CDecrement?) == s.pc[t].CLock?)
  {
  }

  lemma {:induction false} AdmittedOpens(s: State, es: seq<Event>, t: Tid, s': State, cred: Cred)
    requires CallRun(s, es, t, s') && Admitting(s.pc[t], cred)
    ensures GiveUp(t) !in es && HasOpened(s', cred)
    ensures FilesBy(s, es, t) == 1 && CountedBy(s, es, t) == if s.pc[t].OUnlock? then 0 else 1
    decreases |es|
  {
    var s1 := Step(s, es[0]);
    if es[0].t != t {
      OthersLeaveCall(s, es[0], t);
      AdmittedOpens(s1, es[1..], t, s', cred);
    } else {
      AdmittedGoesOn(s, t, cred);
      if s.pc[t].OUnlock? {
        assert es[1..] == [];
      } else {
        AdmittedOpens(s1, es[1..], t, s', cred);
      }
    }
  }

  /** The opener has the lock and the device is available to it. */
  ghost predicate AtAdmission(m: State, t: Tid, cred: Cred) {
    t in m.pc && m.pc[t] == OCheck(cred) && Available(m.count, m.owner, cred)
  }

  /** An open among any other calls gives up, and then it has neither been counted nor got
      a file; or it has been counted in once and got a file of its own, and there was a
      moment at which it had the lock and the device was available to it. */
  lemma {:induction false} OpenCall(s: State, es: seq<Event>, t: Tid, s': State, cred: Cred) returns (m: State)
    requires CallRun(s, es, t, s') && Asking(s.pc[t], cred)
    ensures GiveUp(t) in es ==> FilesBy(s, es, t) == 0 && CountedBy(s, es, t) == 0
    ensures GiveUp(t) !in es ==> FilesBy(s, es, t) == 1 && CountedBy(s, es, t) == 1 && HasOpened(s', cred)
    ensures GiveUp(t) !in es ==> Passes(s, es, m) && AtAdmission(m, t, cred)
    decreases |es|
  {
    var e, s1, rest := es[0], Step(s, es[0]), es[1..];
    m := s;
    if e.t != t {
      OthersLeaveCall(s, e, t);
      m := OpenCall(s1, rest, t, s', cred);
    } else if e.GiveUp? {
      assert rest == [];
    } else {
      WaitingGoesOn(s, t, cred);
      if AtAdmission(s, t, cred) {
        AdmittedOpens(s1, rest, t, s', cred);
      } else {
        m := OpenCall(s1, rest, t, s', cred);
      }
    }
  }

  /** A release among any other calls is counted out once. */
  lemma {:induction false} ReleaseCall(s: State, es: seq<Event>, t: Tid, s': State)
    requires CallRun(s, es, t, s') && (Releasing(s.pc[t]) || s.pc[t] == Idle)
    ensures FilesBy(s, es, t) == 0 && GiveUp(t) !in es
    ensures CountedBy(s, es, t) == if s.pc[t].CLock? || s.pc[t].CDecrement? then -1 else 0
    decreases |es|
  {
    if es != [] {
      if es[0].t != t {
        OthersLeaveCall(s, es[0], t);
      } else {
        ReleasingGoesOn(s, t);
      }
      ReleaseCall(Step(s, es[0]), es[1..], t, s');
    }
  }

  // ---------- alone ----------

  predicate Alone(es: seq<Event>, t: Tid) {
    forall e <- es :: e == Go(t)
  }

  lemma NextAlone(s: State, es: seq<Event>, t: Tid, s': State)
    requires CallRun(s, es, t, s') && Alone(es, t) && s.pc[t] != Idle
    ensures CanGo(s, t) && es != [] && CallRun(Advance(s, t), es[1..], t, s') && Alone(es[1..], t)
  {
    assert es[0] in es;
    forall e <- es[1..] ensures e == Go(t) { assert e in es; }
  }

  lemma AdmittedAlone(s: State, es: seq<Event>, t: Tid, s': State, cred: Cred)
    requires CallRun(s, es, t, s') && Alone(es, t) && s.pc[t] == OGrab(cred)
    ensures s' == s.(owner := if s.count == 0 then cred.uid else s.owner, count := s.count + 1, lock := Free,
                     files := s.files[s.nextFile := cred], nextFile := s.nextFile + 1, pc := s.pc[t := Idle])
  {
    NextAlone(s, es, t, s');
    var b := Advance(s, t);
    NextAlone(b, es[1..], t, s');
    var c := Advance(b, t);
    NextAlone(c, es[1..][1..], t, s');
    assert s'.pc == s.pc[t := Idle];
  }

  /** Taken alone, with nobody at the lock, an open by someone the device is available to
      is counted, has its file and, of an idle device, becomes the owner by its real uid;
      nothing else has changed. */
  lemma OpenAlone(s: State, t: Tid, cred: Cred, es: seq<Event>, s': State)
    requires t in s.pc && s.pc[t] == Idle && s.lock == Free && (s.count == 0 || Serves(s.owner, cred))
    requires CallRun(Step(s, Open(t, cred)), es, t, s') && Alone(es, t)
    ensures s' == s.(owner := if s.count == 0 then cred.uid else s.owner, count := s.count + 1,
                     files := s.files[s.nextFile := cred], nextFile := s.nextFile + 1)
  {
    var a := Step(s, Open(t, cred));
    NextAlone(a, es, t, s');
    var b := Advance(a, t);
    NextAlone(b, es[1..], t, s');
    var c := Advance(b, t);
    AdmittedAlone(c, es[1..][1..], t, s', cred);
    assert s'.pc == s.pc;
  }

  /** A release alone: the file is gone, it is counted out, and after the last one nobody
      is left on the queue. */
  lemma ReleaseAlone(s: State, t: Tid, f: Fid, es: seq<Event>, s': State)
    requires t in s.pc && s.pc[t] == Idle && s.lock == Free && f in s.files
    requires CallRun(Step(s, Release(t, f)), es, t, s') && Alone(es, t)
    ensures s' == s.(count := s.count - 1, files := s.files - {f}, queue := if s.count == 1 then {} else s.queue)
  {
    var a := Step(s, Release(t, f));
    NextAlone(a, es, t, s');
    var b := Advance(a, t);
    NextAlone(b, es[1..], t, s');
    CountedOutAlone(Advance(b, t), es[1..][1..], t, s');
    assert s'.pc == s.pc;
  }

  lemma CountedOutAlone(s: State, es: seq<Event>, t: Tid, s': State)
    requires CallRun(s, es, t, s') && Alone(es, t) && s.pc[t] == CTemp
    ensures s' == s.(lock := Free, queue := if s.count == 0 then {} else s.queue, pc := s.pc[t := Idle])
  {
    NextAlone(s, es, t, s');
    var b := Advance(s, t);
    NextAlone(b, es[1..], t, s');
    var c := Advance(b, t);
    if s.count == 0 {
      NextAlone(c, es[1..][1..], t, s');
    }
    assert s'.pc == s.pc[t := Idle];
  }

  // ---------- there are such runs ----------

  /** k steps of one thread. */
  function Steps(t: Tid, k: nat): (es: seq<Event>)
    ensures |es| == k && Alone(es, t)
  {
    seq(k, _ => Go(t))
  }

  /** The device is available to the opener, and what it has read while on the queue tells
      it so. */
  predicate NeedNotWait(s: State, t: Tid) {
    && t in s.pc
    && (s.pc[t].OLock? || s.pc[t].CLock? ==> s.lock == Free)
    && (Waiting(s.pc[t]) ==>
          && Available(s.count, s.owner, s.pc[t].cred)
          && (s.lock == if s.pc[t].OCheck? then HeldBy(t) else Free)
          && (t in s.queue ==> StillRefused(s, s.pc[t])))
  }

  /** How many steps are left at most. */
  function StepsLeft(s: State, t: Tid): nat
    requires t in s.pc
  {
    match s.pc[t]
    case Idle => 0
    case OCond(_, operand, queued) =>
      (if !queued then 10 else if t in s.queue then 6 else 14) +
      (if operand == Count then 2 else if operand == Uid then 1 else 0)
    case OAsleep(_) => 13
    case OEnqueue(_) => 9
    case OLock(_) => 5
    case OCheck(_) => 4
    case OGrab(_) => 3
    case OCount(_) => 2
    case OUnlock(_) => 1
    case CLock(_) => 5
    case CDecrement(_) => 4
    case CTemp => 3
    case CUnlock(_) => 2
    case CWake => 1
  }

  lemma GoesOn(s: State, t: Tid)
    requires NeedNotWait(s, t) && s.pc[t] != Idle
    ensures CanGo(s, t) && NeedNotWait(Advance(s, t), t)
    ensures StepsLeft(Advance(s, t), t) < StepsLeft(s, t)
  {
  }

  lemma {:induction false} EndsAlone(s: State, t: Tid) returns (es: seq<Event>, s': State)
    requires NeedNotWait(s, t)
    ensures CallRun(s, es, t, s') && Alone(es, t)
    decreases StepsLeft(s, t)
  {
    es, s' := [], s;
    if s.pc[t] != Idle {
      GoesOn(s, t);
      var rest;
      rest, s' := EndsAlone(Advance(s, t), t);
      es := [Go(t)] + rest;
      assert es[1..] == rest;
    }
  }

  /** Alone, an open by someone the device is available to ends, and so does a release. */
  lemma CallsEndAlone(s: State, t: Tid, call: Event) returns (es: seq<Event>, s': State)
    requires t in s.pc && s.pc[t] == Idle && s.lock == Free && call.t == t
    requires (call.Open? && (s.count == 0 || Serves(s.owner, call.cred))) || (call.Release? && call.f in s.files)
    ensures CallRun(Step(s, call), es, t, s') && Alone(es, t)
  {
    es, s' := EndsAlone(Step(s, call), t);
  }

  /** An opener anywhere in its wait, with the device available to it, nobody at the lock and
      no wake to come, can go on alone and get its file: nobody sleeps on. */
  lemma WaitingOpenEndsAlone(threads: set<Tid>, s: State, t: Tid) returns (es: seq<Event>, s': State)
    requires Reachable(threads, s) && s.lock == Free && t in s.pc && Waiting(s.pc[t]) && !WakeDue(s)
    requires s.count == 0 || Serves(s.owner, s.pc[t].cred)
    ensures CallRun(s, es, t, s') && Alone(es, t) && HasOpened(s', s.pc[t].cred)
  {
    ReachableInv(threads, s);
    es, s' := EndsAlone(s, t);
    var m := OpenCall(s, es, t, s', s.pc[t].cred);
  }

  lemma OneMore(s: State, t: Tid, k: nat, s': State)
    requires CanGo(s, t) && Run(Advance(s, t), Steps(t, k), s')
    ensures Run(s, Steps(t, k + 1), s')
  {
    assert Steps(t, k + 1)[0] == Go(t) && Steps(t, k + 1)[1..] == Steps(t, k);
  }

  /** A refused opener looks at the count, the owner and its own privilege in vain. */
  lemma LooksInVain(s: State, t: Tid, cred: Cred, queued: bool, k: nat, s': State)
    requires t in s.pc && s.pc[t] == OCond(cred, Count, queued) && !Available(s.count, s.owner, cred)
    requires Run(s.(pc := s.pc[t := if queued then OAsleep(cred) else OEnqueue(cred)]), Steps(t, k), s')
    ensures Run(s, Steps(t, k + 3), s')
  {
    var b := Advance(s, t);
    var c := Advance(b, t);
    assert Advance(c, t).pc == s.pc[t := if queued then OAsleep(cred) else OEnqueue(cred)];
    OneMore(c, t, k, s');
    OneMore(b, t, k + 1, s');
    OneMore(s, t, k + 2, s');
  }

  /** Anyone else goes to sleep on the queue, and changes nothing else. */
  lemma RefusedSleeps(s: State, t: Tid, cred: Cred)
    requires t in s.pc && s.pc[t] == Idle && s.lock == Free && s.count != 0 && !Serves(s.owner, cred)
    ensures Run(Step(s, Open(t, cred)), Steps(t, 9), s.(queue := s.queue + {t}, pc := s.pc[t := OAsleep(cred)]))
  {
    var asleep := s.(queue := s.queue + {t}, pc := s.pc[t := OAsleep(cred)]);
    var a := Step(s, Open(t, cred));
    var b := Advance(a, t);
    var c := Advance(b, t);
    var d := s.(pc := s.pc[t := OEnqueue(cred)]);
    assert c.pc[t := OEnqueue(cred)] == d.pc && c.(pc := d.pc) == d;
    var e := Advance(d, t);
    assert e.(pc := e.pc[t := OAsleep(cred)]) == asleep by {
      assert e.pc[t := OAsleep(cred)] == asleep.pc;
    }
    LooksInVain(e, t, cred, true, 0, asleep);
    OneMore(d, t, 3, asleep);
    LooksInVain(c, t, cred, false, 4, asleep);
    OneMore(b, t, 7, asleep);
    OneMore(a, t, 8, asleep);
  }

  /** It may as well return with EAGAIN as soon as it has freed the lock, or on a signal
      from its sleep, and then nothing has changed. */
  lemma RefusedReturns(s: State, t: Tid, cred: Cred)
    requires t in s.pc && s.pc[t] == Idle && t !in s.queue && s.lock == Free
    requires s.count != 0 && !Serves(s.owner, cred)
    ensures Run(Step(s, Open(t, cred)), [Go(t), Go(t), GiveUp(t)], s)
    ensures Run(s.(queue := s.queue + {t}, pc := s.pc[t := OAsleep(cred)]), [GiveUp(t)], s)
  {
    var a := Step(s, Open(t, cred));
    var b := Advance(a, t);
    var c := Advance(b, t);
    assert c.pc[t := Idle] == s.pc && s.pc[t := OAsleep(cred)][t := Idle] == s.pc;
    assert s.queue + {t} - {t} == s.queue;
    assert [Go(t), Go(t), GiveUp(t)][1..] == [Go(t), GiveUp(t)];
    assert [Go(t), GiveUp(t)][1..] == [GiveUp(t)] && [GiveUp(t)][1..] == [];
    assert Step(c, GiveUp(t)) == s && Run(s, [], s);
    assert Run(c, [GiveUp(t)], s) && Run(b, [Go(t), GiveUp(t)], s);
  }
}
