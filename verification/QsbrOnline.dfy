/**
 What a thread that is online does by calling `thread_online` again: the call
 stores the current counter and wakes nobody. So a grace period can end without
 a quiescent state of the thread, or the writer can sleep for good, because
 later quiescent states find nothing to report.
 */
module QsbrOnline {
  import opened Qsbr

  /** Thread 0 alone: its fields, and those of the writer and the global ones that vary. */
  function With(gp: nat, futex: int, r: Reader, w: WriterPc, awaited: set<Tid>, began: map<Tid, nat>): State {
    State(gp, futex, map[0 := r], if r.registered then {0} else {}, {}, w, awaited, began)
  }

  // thread 0 before it registers, registered, loading, and online with the first counter
  const R0 := Reader(0, false, false, Running, 0, 0, 0, false)
  const R1 := Reader(0, false, true, Running, 0, 0, 0, false)
  const R2 := Reader(0, false, true, OnLoaded(ONLINE), 0, 0, 0, false)
  const R3 := Reader(ONLINE, false, true, Running, 0, 0, 0, true)
  // flagged by the writer, loading again, and online with the second counter
  const R4 := Reader(ONLINE, true, true, Running, 0, 0, 0, true)
  const R5 := Reader(ONLINE, true, true, OnLoaded(3), 0, 0, 0, true)
  const R6 := Reader(3, true, true, Running, 0, 1, 0, true)
  // the last two without the flag
  const R7 := Reader(ONLINE, false, true, OnLoaded(3), 0, 0, 0, true)
  const R8 := Reader(3, false, true, Running, 0, 1, 0, true)

  /** In the grace period, before the writer touches the futex. */
  function Spinning(r: Reader, w: WriterPc): State { With(3, 0, r, w, {}, map[0 := 0]) }

  /** After it stored -1. */
  function Waiting(r: Reader, w: WriterPc, awaited: set<Tid>): State { With(3, -1, r, w, awaited, map[0 := 0]) }

  function Last(r: seq<State>): State
    requires |r| > 0
  {
    r[|r| - 1]
  }

  ghost predicate Reachable(s: State) { exists r :: Run(r) && Last(r) == s }

  lemma Extend(s: State, s': State)
    requires Reachable(s) && Next(s, s')
    ensures Reachable(s')
  {
    var r :| Run(r) && Last(r) == s;
    assert Run(r + [s']) && Last(r + [s']) == s';
  }

  lemma ByReader(s: State, s': State)
    requires Reachable(s) && ReaderStep(s, s', 0)
    ensures Reachable(s')
  {
    hide ReaderStep;
    assert Next(s, s');
    Extend(s, s');
  }

  lemma ByWriter(s: State, s': State)
    requires Reachable(s) && (WriterStep(s, s') || Flag(s, s', 0) || Classify(s, s', 0))
    ensures Reachable(s')
  {
    hide WriterStep, Flag, Classify;
    assert Next(s, s');
    Extend(s, s');
  }

  /** Thread 0 comes online. */
  lemma ComesOnline()
    ensures Reachable(With(ONLINE, 0, R3, Off, {}, map[]))
  {
    hide Reachable;
    var s0, s1 := With(ONLINE, 0, R0, Off, {}, map[]), With(ONLINE, 0, R1, Off, {}, map[]);
    var s2, s3 := With(ONLINE, 0, R2, Off, {}, map[]), With(ONLINE, 0, R3, Off, {}, map[]);
    assert Reachable(s0) by { FirstReachable(s0); }
    ByReader(s0, s1) by { assert Register(s0, s1, 0); }
    ByReader(s1, s2) by { assert OnlineLoad(s1, s2, 0); }
    ByReader(s2, s3) by { assert OnlineStore(s2, s3, 0); }
  }

  lemma OneOnline(s: State, r: Reader)
    requires s.readers == map[0 := r] && r.online
    ensures OnlineSpans(s) == map[0 := Ends(r)]
  {
    hide Ends;
    var m := OnlineSpans(s);
    assert s.readers[0] == r;
    assert 0 in m && m[0] == Ends(r);
    assert m.Keys == {0};
  }

  lemma BeginsOne()
    ensures Begin(With(ONLINE, 0, R3, Off, {}, map[]), With(ONLINE, 0, R3, Bump, {}, map[0 := 0]))
  {
    OneOnline(With(ONLINE, 0, R3, Off, {}, map[]), R3);
    hide OnlineSpans;
  }

  /** A grace period begins. */
  lemma Begun()
    ensures Reachable(Spinning(R3, Top(0)))
  {
    ComesOnline();
    BeginsOne();
    hide Reachable, OnlineSpans, Begin;
    var s3, s4 := With(ONLINE, 0, R3, Off, {}, map[]), With(ONLINE, 0, R3, Bump, {}, map[0 := 0]);
    ByWriter(s3, s4);
    ByWriter(s4, Spinning(R3, Top(0))) by { assert Increment(s4, Spinning(R3, Top(0))); }
  }

  lemma Alone()
    ensures var all: set<Tid> := {0}; all - {0} == {}
  {
  }

  lemma FirstReachable(s: State)
    requires Init(s)
    ensures Reachable(s)
  {
    assert Run([s]) && Last([s]) == s;
  }

  /** The writer spins: thread 0 has not moved. */
  lemma {:induction false} Spins(j: nat)
    requires j < ATTEMPTS
    ensures Reachable(Spinning(R3, Top(j)))
  {
    if j == 0 {
      Begun();
    } else {
      Spins(j - 1);
      hide Reachable;
      var s0, s1, s2 := Spinning(R3, Top(j - 1)), Spinning(R3, Scan(j, {0})), Spinning(R3, Scan(j, {}));
      var s3, s4, s5 := Spinning(R3, Tested(j)), Spinning(R3, Relax(j)), Spinning(R3, Top(j));
      ByWriter(s0, s1) by { assert Iterate(s0, s1); }
      ByWriter(s1, s2) by { Alone(); assert Classify(s1, s2, 0); }
      ByWriter(s2, s3) by { assert ScanEnd(s2, s3); }
      ByWriter(s3, s4) by { assert Test(s3, s4); }
      ByWriter(s4, s5) by { assert Spin(s4, s5); }
    }
  }

  /** Its last attempt: flag the reader ... */
  lemma FlagsReader()
    ensures Reachable(Waiting(R4, Scan(ATTEMPTS, {0}), {}))
  {
    Spins(ATTEMPTS - 1);
    hide Reachable;
    var s0, s1, s2 := Spinning(R3, Top(ATTEMPTS - 1)), Waiting(R3, Flags({0}), {}), Waiting(R4, Flags({}), {});
    var s3 := Waiting(R4, Scan(ATTEMPTS, {0}), {});
    ByWriter(s0, s1) by { assert Iterate(s0, s1); }
    ByWriter(s1, s2) by { Alone(); assert Flag(s1, s2, 0); }
    ByWriter(s2, s3) by { assert FlagsEnd(s2, s3); }
  }

  /** ... and sleep. */
  lemma Sleeps()
    ensures Reachable(Waiting(R4, Asleep, {0}))
  {
    FlagsReader();
    hide Reachable;
    var s3, s4 := Waiting(R4, Scan(ATTEMPTS, {0}), {}), Waiting(R4, Scan(ATTEMPTS, {}), {});
    var s5 := Waiting(R4, Tested(ATTEMPTS), {});
    var s6, s7, s8 := Waiting(R4, FutexLoad, {0}), Waiting(R4, FutexWait, {0}), Waiting(R4, Asleep, {0});
    ByWriter(s3, s4) by { Alone(); assert Classify(s3, s4, 0); }
    ByWriter(s4, s5) by { assert ScanEnd(s4, s5); }
    ByWriter(s5, s6) by { assert Test(s5, s6); }
    ByWriter(s6, s7) by { assert WaitLoad(s6, s7); }
    ByWriter(s7, s8) by { assert WaitCall(s7, s8); }
  }

  /** The writer sleeps on -1, every reader is current or offline, and nobody is about to wake it. */
  predicate Lost(s: State) {
    && s.w.Asleep? && s.futex == -1
    && forall t :: t in s.readers ==> s.readers[t].pc == Running && StateOf(s.readers[t].ctr, s.gp) != ActiveOld
  }

  lemma WakeupCanBeLost()
    ensures exists s :: Reachable(s) && Lost(s)
  {
    Sleeps();
    hide Reachable;
    var s0, s1, s2 := Waiting(R4, Asleep, {0}), Waiting(R5, Asleep, {0}), Waiting(R6, Asleep, {0});
    ByReader(s0, s1) by { assert OnlineLoad(s0, s1, 0); }
    ByReader(s1, s2) by { assert OnlineStore(s1, s2, 0); }
    assert Lost(s2);
  }

  /** In such a state a quiescent state of an online thread changes nothing. */
  lemma QuiescenceDoesNotHelp(s: State, s': State, t: Tid)
    requires Lost(s) && QuiescentLoad(s, s', t) && s.readers[t].ctr != 0
    ensures s' == s
  {
    assert s.readers[t].ctr == s.gp;
    assert s.readers[t := s.readers[t]] == s.readers;
  }

  /** The writer is not left like that as long as one reader it awaits has not made such a call since it was flagged. */
  lemma NotLostOtherwise(r: seq<State>, i: nat, t: Tid)
    requires Run(r) && i < |r| && t in r[i].awaited && !Slipped(r[i], t)
    ensures !Lost(r[i])
  {
    NoLostWakeup(r, i);
  }

  /**
   A grace period that is done although thread 0, online when it began, has
   never reported a quiescent state or gone offline.
   */
  lemma CoversWithoutQuiescence()
    ensures exists s :: Reachable(s) && s.w.Done? && 0 in s.began && 0 in s.readers && s.readers[0].quiet == 0
  {
    Begun();
    hide Reachable;
    Alone();
    var s0, s1, s2 := Spinning(R3, Top(0)), Spinning(R7, Top(0)), Spinning(R8, Top(0));
    var s3, s4 := Spinning(R8, Scan(1, {0})), Spinning(R8, Scan(1, {})).(registry := {}, qs := {0});
    var s5, s6 := s4.(w := Tested(1)), s4.(w := Done);
    ByReader(s0, s1) by { assert OnlineLoad(s0, s1, 0); }
    ByReader(s1, s2) by { assert OnlineStore(s1, s2, 0); }
    ByWriter(s2, s3) by { assert Iterate(s2, s3); }
    ByWriter(s3, s4) by { assert Classify(s3, s4, 0); }
    ByWriter(s4, s5) by { assert ScanEnd(s4, s5); }
    ByWriter(s5, s6) by { assert Test(s5, s6); }
    assert Reachable(s6) && s6.w.Done?;
  }
}
