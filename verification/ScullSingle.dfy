/** The single-open device of scull/access.c: atomic_dec_and_test() admits, and a
    refused opener puts its decrement back.  Any number of threads, whether or not they
    have the device open already, one atomic operation a step. */
module ScullSingle {
  type Tid = nat
  type Fid = nat

  datatype State = State(
    available: int,
    refused: set<Tid>, // saw a count other than zero, and still have to put it back
    files: set<Fid>,   // open
    nextFile: Fid)

  datatype Event = Open(t: Tid) | PutBack(t: Tid) | Release(f: Fid)

  const INIT := State(1, {}, {}, 0)

  predicate Enabled(s: State, e: Event) {
    match e
    case Open(t) => t !in s.refused
    case PutBack(t) => t in s.refused
    case Release(f) => f in s.files
  }

  function Step(s: State, e: Event): State
    requires Enabled(s, e)
  {
    match e
    case Open(t) =>
      if s.available - 1 == 0 then s.(available := 0, files := s.files + {s.nextFile}, nextFile := s.nextFile + 1)
      else s.(available := s.available - 1, refused := s.refused + {t})
    case PutBack(t) => s.(available := s.available + 1, refused := s.refused - {t})
    case Release(f) => s.(available := s.available + 1, files := s.files - {f})
  }

  ghost predicate Run(s: State, es: seq<Event>, s': State)
    decreases |es|
  {
    if es == [] then s' == s
    else Enabled(s, es[0]) && Run(Step(s, es[0]), es[1..], s')
  }

  ghost predicate Inv(s: State) {
    && s.available == 1 - |s.refused| - |s.files| && |s.files| <= 1
    && forall f <- s.files :: f < s.nextFile
  }

  lemma {:induction false} RunKeepsInv(s: State, es: seq<Event>, s': State)
    requires Inv(s) && Run(s, es, s')
    ensures Inv(s')
    decreases |es|
  {
    if es != [] {
      RunKeepsInv(Step(s, es[0]), es[1..], s');
    }
  }

  lemma TwoMembers(s: set<Fid>, f: Fid, g: Fid)
    requires f in s && g in s && f != g
    ensures 2 <= |s|
  {
    assert |s - {f}| == |s| - 1 && g in s - {f};
  }

  /** In every interleaving at most one file of the device is open. */
  lemma AtMostOneFile(es: seq<Event>, s: State, f: Fid, g: Fid)
    requires Run(INIT, es, s) && f in s.files && g in s.files
    ensures f == g
  {
    RunKeepsInv(INIT, es, s);
    if f != g {
      TwoMembers(s.files, f, g);
    }
  }

  /** An open succeeds exactly when the device is closed and no refused opener still
      owes its increment; so whoever has it open is refused as well, and an idle device
      can turn an opener away. */
  lemma OpenSucceedsExactlyWhenQuiet(es: seq<Event>, s: State, t: Tid)
    requires Run(INIT, es, s) && Enabled(s, Open(t))
    ensures Step(s, Open(t)).files != s.files <==> s.files == {} && s.refused == {}
    ensures t in Step(s, Open(t)).refused <==> s.files != {} || s.refused != {}
  {
    RunKeepsInv(INIT, es, s);
    assert s.nextFile !in s.files;
  }

  /** Two openers meet a file that is closed between their two operations: the second
      opener is refused although nobody has the device. */
  lemma IdleDeviceRefuses()
    ensures exists es, s :: Run(INIT, es, s) && s.files == {} && Enabled(s, Open(2)) && 2 in Step(s, Open(2)).refused
  {
    var held := Step(INIT, Open(0));
    var refused := Step(held, Open(1));
    var idle := Step(refused, Release(0));
    RunOfThree(INIT, Open(0), Open(1), Release(0));
    assert idle.files == {} && idle.refused == {1};
  }

  lemma RunOfThree(s: State, a: Event, b: Event, c: Event)
    requires Enabled(s, a) && Enabled(Step(s, a), b) && Enabled(Step(Step(s, a), b), c)
    ensures Run(s, [a, b, c], Step(Step(Step(s, a), b), c))
  {
    assert [a, b, c][1..] == [b, c] && [b, c][1..] == [c] && [c][1..] == [];
    assert Run(Step(Step(s, a), b), [c], Step(Step(Step(s, a), b), c));
    assert Run(Step(s, a), [b, c], Step(Step(Step(s, a), b), c));
  }
}
