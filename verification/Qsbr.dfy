/**
 Grace-period detection of the QSBR flavour with a 64-bit counter, taken as
 unbounded: readers copy the global counter when they report a quiescent
 state, store 0 when they go offline, and have a flag that tells them to wake
 the writer. Every shared load and store is one step.
 */
module Qsbr {

  type Tid = nat

  // URCU_QSBR_GP_ONLINE, the initial value, and URCU_QSBR_GP_CTR, the increment
  const ONLINE: nat := 1
  const INCREMENT: nat := 2

  // enum urcu_state
  datatype ReaderState = ActiveCurrent | ActiveOld | Inactive

  /** `urcu_qsbr_reader_state` */
  function StateOf(v: nat, gp: nat): (st: ReaderState) {
    if v == 0 then Inactive else if v == gp then ActiveCurrent else ActiveOld
  }

  /**
   `OnLoaded`, `QsLoaded`: `thread_online` or `quiescent_state` has loaded the
   global counter. `WakeLoad` to `WakeCall`: in `urcu_qsbr_wake_up_gp`.
   */
  datatype ReaderPc =
    | Running | OnLoaded(word: nat) | QsLoaded(word: nat)
    | WakeLoad | WakeClear | WakeFutex | WakeStore | WakeCall

  /**
   `quiet` counts the quiescent states the thread reported and the times it
   went offline, `slips` the stores of `thread_online` it made while online, and
   `mark` is what `slips` was when the writer last flagged the thread. `online`
   is what the thread last asked for. All four are records.
   */
  datatype Reader = Reader(
    ctr: nat, waiting: bool, registered: bool, pc: ReaderPc,
    quiet: nat, slips: nat, mark: nat, online: bool)

  /** How often an online counter was overwritten. */
  function Ends(r: Reader): nat { r.quiet + r.slips }

  // RCU_QS_ACTIVE_ATTEMPTS
  const ATTEMPTS: nat := 100

  /**
   `Bump`: about to increment the counter. `Top` to `Tested`: in an iteration
   of `wait_for_readers`, registry lock held; `Flags` is storing the waiting
   flags. `Relax` to `Relock`: registry lock released.
   */
  datatype WriterPc =
    | Off | Bump
    | Top(loops: nat)
    | Flags(todo: set<Tid>)
    | Scan(loops: nat, todo: set<Tid>)
    | Tested(loops: nat)
    | Relax(loops: nat)
    | FutexLoad | FutexWait | Asleep | Relock
    | Done

  /**
   `awaited` records the input readers left when the writer decided to wait,
   and `began` the threads online when it began, with their `Ends`.
   */
  datatype State = State(
    gp: nat, futex: int, readers: map<Tid, Reader>, registry: set<Tid>, qs: set<Tid>,
    w: WriterPc, awaited: set<Tid>, began: map<Tid, nat>)

  function OnlineSpans(s: State): map<Tid, nat> {
    map t | t in s.readers && s.readers[t].online :: Ends(s.readers[t])
  }

  predicate LockFree(w: WriterPc) {
    w.Off? || w.Relax? || w.FutexLoad? || w.FutexWait? || w.Asleep? || w.Relock?
  }

  predicate Init(s: State) {
    && s.gp == ONLINE && s.futex == 0 && s.w == Off && s.registry == {} && s.qs == {} && s.began == map[]
    && forall t :: t in s.readers ==> s.readers[t] == Reader(0, false, false, Running, 0, 0, 0, false)
  }

  // ---------- reader steps ----------

  function Set(s: State, t: Tid, r: Reader): State { s.(readers := s.readers[t := r]) }

  predicate At(s: State, t: Tid, pc: ReaderPc) { t in s.readers && s.readers[t].registered && s.readers[t].pc == pc }

  predicate Register(s: State, s': State, t: Tid) {
    && t in s.readers && !s.readers[t].registered && LockFree(s.w)
    && s' == Set(s, t, s.readers[t].(registered := true)).(registry := s.registry + {t})
  }

  /** A thread goes offline before it unregisters. The node leaves whichever list holds it. */
  predicate Unregister(s: State, s': State, t: Tid) {
    && At(s, t, Running) && s.readers[t].ctr == 0 && LockFree(s.w)
    && s' == Set(s, t, s.readers[t].(registered := false)).(registry := s.registry - {t}, qs := s.qs - {t})
  }

  /** `thread_online` loads the counter ... */
  predicate OnlineLoad(s: State, s': State, t: Tid) {
    && At(s, t, Running)
    && s' == Set(s, t, s.readers[t].(pc := OnLoaded(s.gp)))
  }

  /** ... and stores what it loaded, however late. It wakes nobody. */
  predicate OnlineStore(s: State, s': State, t: Tid) {
    && t in s.readers && s.readers[t].registered && s.readers[t].pc.OnLoaded?
    && var r := s.readers[t];
    && s' == Set(s, t, r.(ctr := r.pc.word, pc := Running, online := true,
                             slips := if r.online then r.slips + 1 else r.slips))
  }

  /** `quiescent_state` has nothing to report if the counter is its own. Called offline, it brings the thread online. */
  predicate QuiescentLoad(s: State, s': State, t: Tid) {
    && At(s, t, Running)
    && s' == Set(s, t, s.readers[t].(pc := if s.gp == s.readers[t].ctr then Running else QsLoaded(s.gp)))
  }

  predicate QuiescentStore(s: State, s': State, t: Tid) {
    && t in s.readers && s.readers[t].registered && s.readers[t].pc.QsLoaded?
    && var r := s.readers[t];
    && s' == Set(s, t, r.(ctr := r.pc.word, pc := WakeLoad, quiet := r.quiet + 1, online := true))
  }

  /** `thread_offline` */
  predicate OfflineStore(s: State, s': State, t: Tid) {
    && At(s, t, Running)
    && s' == Set(s, t, s.readers[t].(ctr := 0, pc := WakeLoad, quiet := s.readers[t].quiet + 1, online := false))
  }

  predicate LoadWaiting(s: State, s': State, t: Tid) {
    && At(s, t, WakeLoad)
    && s' == Set(s, t, s.readers[t].(pc := if s.readers[t].waiting then WakeClear else Running))
  }

  predicate ClearWaiting(s: State, s': State, t: Tid) {
    && At(s, t, WakeClear)
    && s' == Set(s, t, s.readers[t].(waiting := false, pc := WakeFutex))
  }

  predicate LoadFutex(s: State, s': State, t: Tid) {
    && At(s, t, WakeFutex)
    && s' == Set(s, t, s.readers[t].(pc := if s.futex == -1 then WakeStore else Running))
  }

  predicate StoreFutex(s: State, s': State, t: Tid) {
    && At(s, t, WakeStore)
    && s' == Set(s, t, s.readers[t].(pc := WakeCall)).(futex := 0)
  }

  /** FUTEX_WAKE */
  predicate CallWake(s: State, s': State, t: Tid) {
    && At(s, t, WakeCall)
    && s' == Set(s, t, s.readers[t].(pc := Running)).(w := if s.w.Asleep? then FutexLoad else s.w)
  }

  /** Steps that change nothing but the fields of the reader. */
  predicate OwnStep(s: State, s': State, t: Tid) {
    || OnlineLoad(s, s', t) || OnlineStore(s, s', t) || QuiescentLoad(s, s', t) || QuiescentStore(s, s', t)
    || OfflineStore(s, s', t) || LoadWaiting(s, s', t) || ClearWaiting(s, s', t) || LoadFutex(s, s', t)
  }

  predicate ReaderStep(s: State, s': State, t: Tid) {
    || OwnStep(s, s', t) || Register(s, s', t) || Unregister(s, s', t) || StoreFutex(s, s', t) || CallWake(s, s', t)
  }

  // ---------- writer steps ----------

  /** `synchronize_rcu` takes the registry lock. With no reader registered it is done. */
  predicate Begin(s: State, s': State) {
    s.w.Off? && s' == s.(w := if s.registry == {} then Done else Bump, began := OnlineSpans(s))
  }

  predicate Increment(s: State, s': State) {
    s.w.Bump? && s' == s.(w := Top(0), gp := s.gp + INCREMENT)
  }

  /** The head of the loop; from the last attempt on, store -1 in the futex and then flag each reader. */
  predicate Iterate(s: State, s': State) {
    && s.w.Top?
    && var loops := if s.w.loops < ATTEMPTS then s.w.loops + 1 else s.w.loops;
    && s' == if loops >= ATTEMPTS then s.(w := Flags(s.registry), futex := -1) else s.(w := Scan(loops, s.registry))
  }

  predicate Flag(s: State, s': State, t: Tid) {
    && s.w.Flags? && t in s.w.todo && t in s.readers
    && s' == Set(s, t, s.readers[t].(waiting := true, mark := s.readers[t].slips)).(w := Flags(s.w.todo - {t}))
  }

  predicate FlagsEnd(s: State, s': State) {
    s.w.Flags? && s.w.todo == {} && s' == s.(w := Scan(ATTEMPTS, s.registry))
  }

  /** One reader of the registry: it stays there only if its counter is old. */
  predicate Classify(s: State, s': State, t: Tid) {
    && s.w.Scan? && t in s.w.todo && t in s.readers
    && var w := s.w.(todo := s.w.todo - {t});
    && s' == if StateOf(s.readers[t].ctr, s.gp) == ActiveOld then s.(w := w)
             else s.(w := w, registry := s.registry - {t}, qs := s.qs + {t})
  }

  predicate ScanEnd(s: State, s': State) {
    s.w.Scan? && s.w.todo == {} && s' == s.(w := Tested(s.w.loops))
  }

  predicate Test(s: State, s': State) {
    && s.w.Tested?
    && s' == if s.registry == {} then s.(w := Done, futex := if s.w.loops >= ATTEMPTS then 0 else s.futex)
             else if s.w.loops >= ATTEMPTS then s.(w := FutexLoad, awaited := s.registry)
             else s.(w := Relax(s.w.loops))
  }

  predicate Spin(s: State, s': State) { s.w.Relax? && s' == s.(w := Top(s.w.loops)) }

  // wait_gp

  predicate WaitLoad(s: State, s': State) {
    s.w.FutexLoad? && s' == s.(w := if s.futex == -1 then FutexWait else Relock)
  }

  /** FUTEX_WAIT: sleep if the word still is -1, else EAGAIN. */
  predicate WaitCall(s: State, s': State) {
    s.w.FutexWait? && s' == s.(w := if s.futex == -1 then Asleep else Relock)
  }

  /** A spurious wake-up or an interruption. */
  predicate WaitReturn(s: State, s': State) { s.w.Asleep? && s' == s.(w := FutexLoad) }

  predicate LockAgain(s: State, s': State) { s.w.Relock? && s' == s.(w := Top(ATTEMPTS)) }

  /** Put the quiescent readers back, release the locks and return. */
  predicate Finish(s: State, s': State) {
    s.w.Done? && s' == s.(w := Off, registry := s.registry + s.qs, qs := {})
  }

  predicate WriterStep(s: State, s': State) {
    || Begin(s, s') || Increment(s, s') || Iterate(s, s') || FlagsEnd(s, s') || ScanEnd(s, s') || Test(s, s')
    || Spin(s, s') || WaitLoad(s, s') || WaitCall(s, s') || WaitReturn(s, s') || LockAgain(s, s') || Finish(s, s')
  }

  ghost predicate Next(s: State, s': State) {
    WriterStep(s, s') || exists t :: ReaderStep(s, s', t) || Flag(s, s', t) || Classify(s, s', t)
  }

  ghost predicate Run(r: seq<State>) {
    && |r| > 0 && Init(r[0])
    && forall i :: 0 <= i < |r| - 1 ==> Next(r[i], r[i + 1])
  }

  // ---------- the invariant ----------

  ghost predicate ListInv(s: State) {
    && s.registry !! s.qs
    && (forall t: Tid :: t in s.registry + s.qs <==> t in s.readers && s.readers[t].registered)
    && (s.w.Off? || s.w.Bump? ==> s.qs == {})
    && (s.w.Done? ==> s.registry == {})
    && (s.w.Scan? || s.w.Flags? ==> s.w.todo <= s.registry)
  }

  /** Counters never run ahead of the global one, and no online counter looks offline. */
  predicate ReaderInv(s: State, t: Tid)
    requires t in s.readers
  {
    var r := s.readers[t];
    && r.ctr <= s.gp && (r.ctr != 0 ==> r.ctr % 2 == 1 && r.registered) && (r.online <==> r.ctr != 0)
    && (!r.registered ==> r.pc.Running?)
    && (r.pc.OnLoaded? || r.pc.QsLoaded? ==> r.pc.word <= s.gp && r.pc.word % 2 == 1)
    && r.mark <= r.slips
  }

  /** The thread was online when the grace period began and has kept its counter since. */
  predicate StillOnline(s: State, t: Tid) { t in s.began && t in s.readers && Ends(s.readers[t]) == s.began[t] }

  /** Where the writer still waits for it. */
  predicate Watched(s: State, t: Tid)
    requires t in s.readers
  {
    && s.readers[t].ctr != 0 && t in s.registry && !s.w.Done?
    && (!s.w.Bump? ==> s.readers[t].ctr < s.gp)
  }

  /** A reader that will reset the futex once it stores its counter. */
  predicate Flagged(s: State, t: Tid) {
    && t in s.readers
    && (s.readers[t].waiting || s.readers[t].pc.WakeClear? || s.readers[t].pc.WakeFutex? || s.readers[t].pc.WakeStore?)
  }

  /** A reader whose wake-up of the writer is still due. */
  predicate Awaits(s: State, t: Tid) {
    && Flagged(s, t)
    && (StateOf(s.readers[t].ctr, s.gp) == ActiveOld || s.readers[t].pc.WakeLoad? || s.readers[t].pc.WakeClear?
        || s.readers[t].pc.WakeFutex? || s.readers[t].pc.WakeStore?)
  }

  /** The reader called `thread_online` while online, after the writer flagged it. */
  predicate Slipped(s: State, t: Tid) { t in s.readers && s.readers[t].slips > s.readers[t].mark }

  predicate Due(s: State, t: Tid) { Slipped(s, t) || Awaits(s, t) }

  predicate InWait(w: WriterPc) { w.FutexLoad? || w.FutexWait? || w.Asleep? }

  ghost predicate FutexInv(s: State) {
    && (s.futex == 0 || s.futex == -1)
    && (s.futex == -1 ==>
          || s.w.Flags? || (s.w.Scan? && s.w.loops >= ATTEMPTS)
          || (s.w.Tested? && s.w.loops >= ATTEMPTS) || InWait(s.w))
    && (s.futex == -1 && s.w.Flags? ==> forall t :: t in s.registry && t !in s.w.todo ==> Flagged(s, t))
    && (s.futex == -1 && s.w.Scan? ==> forall t :: t in s.registry ==> Flagged(s, t) && (t !in s.w.todo ==> Due(s, t)))
    && (s.futex == -1 && s.w.Tested? ==> forall t :: t in s.registry ==> Due(s, t))
    && (InWait(s.w) ==> s.awaited != {})
    && (s.futex == -1 && InWait(s.w) ==> forall t :: t in s.awaited ==> Due(s, t))
    && (s.w.Asleep? && s.futex == 0 ==> exists t :: t in s.readers && s.readers[t].pc.WakeCall?)
  }

  ghost predicate SpanInv(s: State) {
    && (forall t :: t in s.began ==> t in s.readers && s.began[t] <= Ends(s.readers[t]))
    && (!s.w.Off? ==> forall t :: t in s.began && StillOnline(s, t) ==> Watched(s, t))
  }

  ghost predicate Inv(s: State) {
    && ListInv(s) && s.gp % 2 == 1 && SpanInv(s) && FutexInv(s)
    && (forall t :: t in s.readers ==> ReaderInv(s, t))
  }

  lemma InitInv(s: State)
    requires Init(s)
    ensures Inv(s)
  {
  }

  lemma FutexKept(s: State, s': State, t: Tid)
    requires FutexInv(s) && t in s.readers
    requires s'.readers.Keys == s.readers.Keys && s' == Set(s, t, s'.readers[t])
    requires s.readers[t].pc != WakeCall
    requires s.futex == -1 ==> (Flagged(s, t) ==> Flagged(s', t)) && (Due(s, t) ==> Due(s', t))
    ensures FutexInv(s')
  {
    forall u | u != t
      ensures Flagged(s, u) ==> Flagged(s', u)
      ensures Due(s, u) ==> Due(s', u)
    {
    }
    hide Flagged, Due;
    if s'.w.Asleep? && s'.futex == 0 {
      var u :| u in s.readers && s.readers[u].pc.WakeCall?;
      assert s'.readers[u].pc.WakeCall?;
    }
  }

  /** An online counter is overwritten only at an end of its span. */
  predicate KeepsCtr(r: Reader, r': Reader) {
    Ends(r) <= Ends(r') && (Ends(r) == Ends(r') && r.ctr != 0 ==> r'.ctr == r.ctr)
  }

  lemma SpanKept(s: State, s': State, t: Tid)
    requires SpanInv(s) && t in s.readers
    requires s'.readers.Keys == s.readers.Keys && s' == Set(s, t, s'.readers[t])
    requires KeepsCtr(s.readers[t], s'.readers[t])
    ensures SpanInv(s')
  {
    if !s.w.Off? {
      forall u | u in s'.began && StillOnline(s', u)
        ensures Watched(s', u)
      {
        assert StillOnline(s, u);
      }
    }
  }

  /** A step of a reader on its own fields. */
  lemma OwnKept(s: State, s': State, t: Tid)
    requires Inv(s) && t in s.readers
    requires s'.readers.Keys == s.readers.Keys && s' == Set(s, t, s'.readers[t])
    requires s.readers[t].pc != WakeCall && s'.readers[t].registered == s.readers[t].registered && ReaderInv(s', t)
    requires s.futex == -1 ==> (Flagged(s, t) ==> Flagged(s', t)) && (Due(s, t) ==> Due(s', t))
    requires KeepsCtr(s.readers[t], s'.readers[t])
    ensures Inv(s')
  {
    hide FutexInv, SpanInv, Flagged, Due;
    FutexKept(s, s', t);
    SpanKept(s, s', t);
    forall u | u in s'.readers && u != t
      ensures ReaderInv(s', u)
    {
      assert ReaderInv(s, u);
    }
  }

  lemma OnlineInv(s: State, s': State, t: Tid)
    requires Inv(s) && (OnlineLoad(s, s', t) || OnlineStore(s, s', t))
    ensures Inv(s')
  {
    assert ReaderInv(s, t);
    OwnKept(s, s', t);
  }

  lemma QuiescentInv(s: State, s': State, t: Tid)
    requires Inv(s) && (QuiescentLoad(s, s', t) || QuiescentStore(s, s', t) || OfflineStore(s, s', t))
    ensures Inv(s')
  {
    assert ReaderInv(s, t);
    OwnKept(s, s', t);
  }

  lemma WakingInv(s: State, s': State, t: Tid)
    requires Inv(s) && (LoadWaiting(s, s', t) || ClearWaiting(s, s', t) || LoadFutex(s, s', t))
    ensures Inv(s')
  {
    assert ReaderInv(s, t);
    OwnKept(s, s', t);
  }

  lemma RegisterFutex(s: State, s': State, t: Tid)
    requires Inv(s) && (Register(s, s', t) || Unregister(s, s', t))
    ensures FutexInv(s') && SpanInv(s')
  {
    assert ReaderInv(s, t);
    SpanKept(s, Set(s, t, s'.readers[t]), t);
    FutexKept(s, Set(s, t, s'.readers[t]), t);
  }

  lemma RegisterInv(s: State, s': State, t: Tid)
    requires Inv(s) && (Register(s, s', t) || Unregister(s, s', t))
    ensures Inv(s')
  {
    assert ReaderInv(s, t);
    RegisterFutex(s, s', t);
    hide FutexInv, SpanInv;
  }

  lemma StoreFutexInv(s: State, s': State, t: Tid)
    requires Inv(s) && StoreFutex(s, s', t)
    ensures Inv(s')
  {
    assert ReaderInv(s, t);
    SpanKept(s, Set(s, t, s'.readers[t]), t);
    assert s'.readers[t].pc.WakeCall?;
    hide Flagged, Due, StillOnline;
  }

  lemma CallWakeInv(s: State, s': State, t: Tid)
    requires Inv(s) && CallWake(s, s', t)
    ensures Inv(s')
  {
    assert ReaderInv(s, t);
    SpanKept(s, Set(s, t, s'.readers[t]), t);
    CallWakeFutex(s, s', t);
    hide FutexInv, StillOnline;
  }

  lemma CallWakeFutex(s: State, s': State, t: Tid)
    requires FutexInv(s) && CallWake(s, s', t)
    ensures FutexInv(s')
  {
    forall u
      ensures Flagged(s, u) ==> Flagged(s', u)
      ensures Due(s, u) && u != t ==> Due(s', u)
    {
    }
    assert Due(s, t) ==> Due(s', t);
    hide Flagged, Due;
  }

  lemma FlagInv(s: State, s': State, t: Tid)
    requires Inv(s) && Flag(s, s', t)
    ensures Inv(s')
  {
    assert ReaderInv(s, t);
    SpanKept(s, Set(s, t, s'.readers[t]), t);
    hide SpanInv, StateOf;
  }

  lemma ClassifySpan(s: State, s': State, t: Tid)
    requires Inv(s) && Classify(s, s', t)
    ensures SpanInv(s') && ListInv(s')
  {
    hide FutexInv;
    assert ReaderInv(s, t);
    if !s.w.Off? {
      forall u | u in s'.began && StillOnline(s', u)
        ensures Watched(s', u)
      {
        assert StillOnline(s, u);
      }
    }
  }

  lemma ClassifyFutex(s: State, s': State, t: Tid)
    requires FutexInv(s) && Classify(s, s', t)
    ensures FutexInv(s')
  {
    forall u
      ensures Flagged(s', u) == Flagged(s, u) && Due(s', u) == Due(s, u)
    {
    }
    assert Flagged(s, t) && StateOf(s.readers[t].ctr, s.gp) == ActiveOld ==> Due(s, t);
    hide Flagged, Due, StateOf;
  }

  lemma ClassifyInv(s: State, s': State, t: Tid)
    requires Inv(s) && Classify(s, s', t)
    ensures Inv(s')
  {
    ClassifySpan(s, s', t);
    ClassifyFutex(s, s', t);
    hide SpanInv, ListInv, FutexInv, StateOf;
    forall u | u in s'.readers
      ensures ReaderInv(s', u)
    {
      assert ReaderInv(s, u);
    }
  }

  lemma BoundInv(s: State, s': State)
    requires Inv(s) && (Begin(s, s') || Increment(s, s') || Finish(s, s'))
    ensures Inv(s')
  {
    hide Flagged, Due;
    forall t | t in s'.readers
      ensures ReaderInv(s', t)
    {
      assert ReaderInv(s, t);
    }
    SpanBound(s, s');
    hide SpanInv, ReaderInv;
  }

  lemma SpanBound(s: State, s': State)
    requires Inv(s) && (Begin(s, s') || Increment(s, s') || Finish(s, s'))
    ensures SpanInv(s')
  {
    hide FutexInv;
    if !s'.w.Off? {
      forall t | t in s'.began && StillOnline(s', t)
        ensures Watched(s', t)
      {
        assert ReaderInv(s, t);
        if s.w.Off? { assert t in s.registry + s.qs; } else { assert StillOnline(s, t); }
      }
    }
  }

  /** Steps of the writer that only move it, or set the futex. */
  predicate LoopStep(s: State, s': State) {
    || Iterate(s, s') || FlagsEnd(s, s') || ScanEnd(s, s') || Test(s, s')
    || Spin(s, s') || WaitLoad(s, s') || WaitCall(s, s') || WaitReturn(s, s') || LockAgain(s, s')
  }

  lemma LoopSpan(s: State, s': State)
    requires ListInv(s) && SpanInv(s) && LoopStep(s, s')
    ensures SpanInv(s') && ListInv(s')
  {
    forall t | StillOnline(s', t)
      ensures StillOnline(s, t)
    {
    }
    hide StillOnline;
  }

  lemma LoopFutex(s: State, s': State)
    requires FutexInv(s) && LoopStep(s, s')
    ensures FutexInv(s')
  {
    forall t
      ensures Flagged(s', t) == Flagged(s, t) && Due(s', t) == Due(s, t)
    {
    }
    hide Flagged, Due;
  }

  lemma LoopInv(s: State, s': State)
    requires Inv(s) && LoopStep(s, s')
    ensures Inv(s')
  {
    LoopSpan(s, s');
    LoopFutex(s, s');
    hide SpanInv, ListInv, FutexInv;
    forall t | t in s'.readers
      ensures ReaderInv(s', t)
    {
      assert ReaderInv(s, t);
    }
  }

  lemma NextInv(s: State, s': State)
    requires Inv(s) && Next(s, s')
    ensures Inv(s')
  {
    hide Inv;
    if WriterStep(s, s') {
      if LoopStep(s, s') { LoopInv(s, s'); } else { BoundInv(s, s'); }
    } else {
      var t :| ReaderStep(s, s', t) || Flag(s, s', t) || Classify(s, s', t);
      if OnlineLoad(s, s', t) || OnlineStore(s, s', t) { OnlineInv(s, s', t); }
      else if QuiescentLoad(s, s', t) || QuiescentStore(s, s', t) || OfflineStore(s, s', t) { QuiescentInv(s, s', t); }
      else if OwnStep(s, s', t) { WakingInv(s, s', t); }
      else if Register(s, s', t) || Unregister(s, s', t) { RegisterInv(s, s', t); }
      else if StoreFutex(s, s', t) { StoreFutexInv(s, s', t); }
      else if CallWake(s, s', t) { CallWakeInv(s, s', t); }
      else if Flag(s, s', t) { FlagInv(s, s', t); }
      else { ClassifyInv(s, s', t); }
    }
  }

  lemma {:induction false} RunInv(r: seq<State>, i: nat)
    requires Run(r) && i < |r|
    ensures Inv(r[i])
  {
    hide Inv, Next;
    if i == 0 {
      InitInv(r[0]);
    } else {
      RunInv(r, i - 1);
      NextInv(r[i - 1], r[i]);
    }
  }

  // ---------- theorems ----------

  /** No counter runs ahead of the global one; 0 means offline and nothing else. */
  lemma CountersInOrder(r: seq<State>, i: nat, t: Tid)
    requires Run(r) && i < |r| && t in r[i].readers
    ensures r[i].readers[t].ctr <= r[i].gp && r[i].gp % 2 == 1
    ensures r[i].readers[t].ctr != 0 ==> r[i].readers[t].ctr % 2 == 1
  {
    RunInv(r, i);
    assert ReaderInv(r[i], t);
  }

  lemma BeganKept(s: State, s': State)
    requires Next(s, s') && !s.w.Off?
    ensures s'.began == s.began
  {
  }

  lemma {:induction false} SameGracePeriod(r: seq<State>, b: nat, e: nat)
    requires Run(r) && b < e < |r| && Begin(r[b], r[b + 1]) && forall i :: b < i <= e ==> !r[i].w.Off?
    ensures r[e].began == OnlineSpans(r[b])
  {
    hide Inv, Next;
    if e > b + 1 {
      SameGracePeriod(r, b, e - 1);
      assert Next(r[e - 1], r[e]);
      BeganKept(r[e - 1], r[e]);
    }
  }

  /** The thread reports a quiescent state or goes offline. */
  predicate Quiesces(s: State, s': State, t: Tid) {
    && t in s.readers && t in s'.readers
    && var r, r' := s.readers[t], s'.readers[t];
       || (r.pc.QsLoaded? && r'.ctr == r.pc.word && r'.pc != r.pc)
       || (r.online && !r'.online && r'.ctr == 0)
  }

  /** `thread_online` stores the counter of a thread that is online. */
  predicate Slips(s: State, s': State, t: Tid) {
    && t in s.readers && t in s'.readers
    && s.readers[t].pc.OnLoaded? && s.readers[t].online && s'.readers[t].pc != s.readers[t].pc
  }

  /** The step from state `m` is either of these. */
  predicate LetsGo(r: seq<State>, m: nat, t: Tid) {
    m + 1 < |r| && (Quiesces(r[m], r[m + 1], t) || Slips(r[m], r[m + 1], t))
  }

  predicate IsOnline(s: State, t: Tid) { t in s.readers && s.readers[t].online }

  lemma OwnStays(s: State, s': State, u: Tid, t: Tid)
    requires OwnStep(s, s', u) && IsOnline(s, t) && !Quiesces(s, s', t) && !Slips(s, s', t)
    ensures IsOnline(s', t) && Ends(s'.readers[t]) == Ends(s.readers[t])
  {
  }

  lemma StaysOnline(s: State, s': State, t: Tid)
    requires Next(s, s') && IsOnline(s, t) && !Quiesces(s, s', t) && !Slips(s, s', t)
    ensures IsOnline(s', t) && Ends(s'.readers[t]) == Ends(s.readers[t])
  {
    hide WriterStep, OwnStep;
    if WriterStep(s, s') {
      WriterLeaves(s, s');
    } else {
      var u :| ReaderStep(s, s', u) || Flag(s, s', u) || Classify(s, s', u);
      if OwnStep(s, s', u) { OwnStays(s, s', u, t); }
    }
  }

  lemma WriterLeaves(s: State, s': State)
    requires WriterStep(s, s')
    ensures s'.readers == s.readers
  {
  }

  lemma {:induction false} OnlineSince(r: seq<State>, b: nat, e: nat, t: Tid)
    requires Run(r) && b <= e < |r| && IsOnline(r[b], t) && forall m :: b <= m < e ==> !LetsGo(r, m, t)
    ensures IsOnline(r[e], t) && Ends(r[e].readers[t]) == Ends(r[b].readers[t])
    decreases e
  {
    hide Next, Init;
    if b < e {
      OnlineSince(r, b, e - 1, t);
      assert Next(r[e - 1], r[e - 1 + 1]);
      assert !LetsGo(r, e - 1, t);
      StaysOnline(r[e - 1], r[e], t);
    }
  }

  lemma ReturnsFromDone(s: State, s': State)
    requires Next(s, s') && !s.w.Off? && s'.w.Off?
    ensures s.w.Done? && s'.readers == s.readers
  {
  }

  /**
   A grace period that begins in state `b` and has returned in state `e` has seen
   every thread that was online in `b` report a quiescent state or go offline in
   between, unless a `thread_online` of that very thread stored the counter while
   it was online, in between. `QsbrOnline.CoversWithoutQuiescence` shows the
   exception.
   */
  lemma GracePeriodCovers(r: seq<State>, b: nat, e: nat, t: Tid)
    requires Run(r) && b + 1 < e < |r| && Begin(r[b], r[b + 1])
    requires (forall i :: b < i < e ==> !r[i].w.Off?) && r[e].w.Off?
    requires IsOnline(r[b], t)
    ensures exists m :: b <= m < e && LetsGo(r, m, t)
    ensures t in r[e].readers
    ensures r[e].readers[t].quiet > r[b].readers[t].quiet || r[e].readers[t].slips > r[b].readers[t].slips
  {
    hide Next, Init, LetsGo;
    assert Next(r[e - 1], r[e - 1 + 1]);
    ReturnsFromDone(r[e - 1], r[e]);
    RunInv(r, e - 1);
    SameGracePeriod(r, b, e - 1);
    assert t in r[e - 1].began;
    assert !StillOnline(r[e - 1], t);
    if forall m :: b <= m < e ==> !LetsGo(r, m, t) { OnlineSince(r, b, e, t); }
  }

  /** A registered reader is in exactly one of the two lists. */
  lemma ListsPartitionReaders(r: seq<State>, i: nat, t: Tid)
    requires Run(r) && i < |r|
    ensures t in r[i].readers && r[i].readers[t].registered <==> (t in r[i].registry) != (t in r[i].qs)
  {
    RunInv(r, i);
    assert t in r[i].registry + r[i].qs <==> t in r[i].readers && r[i].readers[t].registered;
  }

  /**
   A sleeping writer has a wake call on its way, or it awaits readers and each of
   them must still wake it, except those that called `thread_online` while
   online after they were flagged.
   */
  lemma NoLostWakeup(r: seq<State>, i: nat)
    requires Run(r) && i < |r|
    ensures r[i].futex == 0 || r[i].futex == -1
    ensures r[i].w.Asleep? ==>
              || (exists t :: t in r[i].readers && r[i].readers[t].pc.WakeCall?)
              || (r[i].futex == -1 && r[i].awaited != {}
                  && forall t :: t in r[i].awaited ==> Slipped(r[i], t) || Awaits(r[i], t))
  {
    RunInv(r, i);
  }
}
