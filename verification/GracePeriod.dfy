/**
 Grace-period detection of the default flavours: readers with a nesting count
 and a phase bit in one word, and `synchronize_rcu` waiting for them in two
 rounds with a futex to sleep on. Every shared load and store is one step.
 Grace periods exclude each other by `rcu_gp_lock`; batching of callers is
 modelled in `GpBatching`.
 */
module GracePeriod {

  type Tid = nat

  // ---------- the layout of a counter word ----------

  // URCU_GP_CTR_PHASE of a 64-bit word: half of its bits hold the nesting count
  const PHASE: nat := 0x1_0000_0000
  // URCU_GP_COUNT
  const COUNT: nat := 1

  /** `v & URCU_GP_CTR_NEST_MASK` */
  function Nest(v: nat): (n: nat) { v % PHASE }

  /** `v & URCU_GP_CTR_PHASE`, as a truth value */
  function Phase(v: nat): (b: bool) { v / PHASE % 2 == 1 }

  /** `v ^ URCU_GP_CTR_PHASE` */
  function Flip(v: nat): (r: nat) { if Phase(v) then v - PHASE else v + PHASE }

  lemma NestMore(v: nat)
    requires Nest(v) < PHASE - 1
    ensures Nest(v + COUNT) == Nest(v) + 1 && Phase(v + COUNT) == Phase(v)
  {
    assert (v + COUNT) / PHASE == v / PHASE;
  }

  lemma NestLess(v: nat)
    requires Nest(v) > 0
    ensures v >= COUNT && Nest(v - COUNT) == Nest(v) - 1 && Phase(v - COUNT) == Phase(v)
  {
    assert (v - COUNT) / PHASE == v / PHASE;
  }

  lemma FlipPhase(v: nat)
    ensures Nest(Flip(v)) == Nest(v) && Phase(Flip(v)) == !Phase(v) && Flip(Flip(v)) == v
  {
    if Phase(v) {
      assert (v - PHASE) / PHASE == v / PHASE - 1;
    } else {
      assert (v + PHASE) / PHASE == v / PHASE + 1;
    }
  }

  // enum urcu_state
  datatype ReaderState = ActiveCurrent | ActiveOld | Inactive

  /** `urcu_common_reader_state` */
  function StateOf(v: nat, gp: nat): (st: ReaderState) {
    if Nest(v) == 0 then Inactive
    else if Phase(v) == Phase(gp) then ActiveCurrent
    else ActiveOld
  }

  // ---------- state ----------

  /**
   `Loaded`: an outermost lock has read the global word; `Wake*`: an outermost
   unlock is in `urcu_common_wake_up_gp`.
   */
  datatype ReaderPc = Running | Loaded(word: nat) | WakeLoad | WakeStore | WakeCall

  /**
   Two records: `sec` numbers the outermost sections of the reader, and `depth`
   is how many locks it has taken and not released.
   */
  datatype Reader = Reader(ctr: nat, registered: bool, pc: ReaderPc, sec: nat, depth: nat)

  datatype Round = First | Second

  // RCU_QS_ACTIVE_ATTEMPTS
  const ATTEMPTS: nat := 100

  /**
   The writer. `Top`, `Scan`, `Tested`: in an iteration of `wait_for_readers`,
   registry lock held. `Relax`: lock released between iterations. `FutexLoad`,
   `FutexWait`, `Asleep`, `Relock`: in `wait_gp`, lock released.
   */
  datatype WriterPc =
    | Off
    | Top(round: Round, loops: nat)
    | Scan(round: Round, loops: nat, todo: set<Tid>)
    | Tested(round: Round, loops: nat)
    | Relax(round: Round, loops: nat)
    | FutexLoad(round: Round)
    | FutexWait(round: Round)
    | Asleep(round: Round)
    | Relock(round: Round)
    | Switch
    | Done

  /**
   `gp` and `futex` are the fields of `struct urcu_gp`. `awaited` records the
   readers the writer found in old sections when it decided to wait, and
   `began` the sections open when the grace period began.
   */
  datatype State = State(
    gp: nat, futex: int, readers: map<Tid, Reader>,
    registry: set<Tid>, snap: set<Tid>, qs: set<Tid>,
    w: WriterPc, awaited: set<Tid>, began: map<Tid, nat>)

  predicate InSection(s: State, t: Tid) { t in s.readers && s.readers[t].depth > 0 }

  function OpenSections(s: State): map<Tid, nat> {
    map t | t in s.readers && InSection(s, t) :: s.readers[t].sec
  }

  predicate LockFree(w: WriterPc) {
    w.Off? || w.Relax? || w.FutexLoad? || w.FutexWait? || w.Asleep? || w.Relock?
  }

  predicate Init(s: State) {
    && s.gp == COUNT && s.futex == 0 && s.w == Off
    && s.registry == {} && s.snap == {} && s.qs == {} && s.began == map[]
    && (forall t :: t in s.readers ==> s.readers[t] == Reader(0, false, Running, 0, 0))
  }

  // ---------- reader steps ----------

  function Set(s: State, t: Tid, r: Reader): State { s.(readers := s.readers[t := r]) }

  predicate At(s: State, t: Tid, pc: ReaderPc) { t in s.readers && s.readers[t].registered && s.readers[t].pc == pc }

  /** `rcu_register_thread`, under the registry lock. */
  predicate Register(s: State, s': State, t: Tid) {
    && t in s.readers && !s.readers[t].registered && LockFree(s.w)
    && s' == Set(s, t, s.readers[t].(registered := true)).(registry := s.registry + {t})
  }

  /** `rcu_unregister_thread`; a thread unregisters outside its sections. The node leaves whichever list holds it. */
  predicate Unregister(s: State, s': State, t: Tid) {
    && At(s, t, Running) && Nest(s.readers[t].ctr) == 0 && LockFree(s.w)
    && s' == Set(s, t, s.readers[t].(registered := false)).(
               registry := s.registry - {t}, snap := s.snap - {t}, qs := s.qs - {t})
  }

  /** `_urcu_mb_read_lock_update`: the outermost lock loads the global word ... */
  predicate LockLoad(s: State, s': State, t: Tid) {
    && At(s, t, Running) && Nest(s.readers[t].ctr) == 0
    && s' == Set(s, t, s.readers[t].(pc := Loaded(s.gp)))
  }

  /** ... and stores what it loaded, however late. */
  predicate LockStore(s: State, s': State, t: Tid) {
    && t in s.readers && s.readers[t].registered && s.readers[t].pc.Loaded?
    && s' == Set(s, t, Reader(s.readers[t].pc.word, true, Running, s.readers[t].sec + 1, s.readers[t].depth + 1))
  }

  predicate LockNested(s: State, s': State, t: Tid) {
    && At(s, t, Running) && 0 < Nest(s.readers[t].ctr) < PHASE - 1
    && s' == Set(s, t, s.readers[t].(ctr := s.readers[t].ctr + COUNT, depth := s.readers[t].depth + 1))
  }

  predicate UnlockNested(s: State, s': State, t: Tid) {
    && At(s, t, Running) && Nest(s.readers[t].ctr) > COUNT && s.readers[t].depth > 0
    && s' == Set(s, t, s.readers[t].(ctr := s.readers[t].ctr - COUNT, depth := s.readers[t].depth - 1))
  }

  predicate UnlockOuter(s: State, s': State, t: Tid) {
    && At(s, t, Running) && Nest(s.readers[t].ctr) == COUNT && s.readers[t].ctr >= COUNT && s.readers[t].depth > 0
    && s' == Set(s, t, s.readers[t].(ctr := s.readers[t].ctr - COUNT, pc := WakeLoad, depth := s.readers[t].depth - 1))
  }

  predicate LoadFutex(s: State, s': State, t: Tid) {
    && At(s, t, WakeLoad)
    && s' == Set(s, t, s.readers[t].(pc := if s.futex == -1 then WakeStore else Running))
  }

  predicate StoreFutex(s: State, s': State, t: Tid) {
    && At(s, t, WakeStore)
    && s' == Set(s, t, s.readers[t].(pc := WakeCall)).(futex := 0)
  }

  /** FUTEX_WAKE */
  predicate CallWake(s: State, s': State, t: Tid) {
    && At(s, t, WakeCall)
    && s' == Set(s, t, s.readers[t].(pc := Running)).(w := if s.w.Asleep? then FutexLoad(s.w.round) else s.w)
  }

  predicate ReaderStep(s: State, s': State, t: Tid) {
    || Register(s, s', t) || Unregister(s, s', t) || LockLoad(s, s', t) || LockStore(s, s', t)
    || LockNested(s, s', t) || UnlockNested(s, s', t) || UnlockOuter(s, s', t)
    || LoadFutex(s, s', t) || StoreFutex(s, s', t) || CallWake(s, s', t)
  }

  // ---------- writer steps ----------

  function Input(s: State, round: Round): set<Tid> { if round.First? then s.registry else s.snap }

  /** `synchronize_rcu` takes the registry lock. With no reader registered it is done. */
  predicate Begin(s: State, s': State) {
    && s.w.Off?
    && s' == s.(w := if s.registry == {} then Done else Top(First, 0), began := OpenSections(s))
  }

  /** The head of the loop in `wait_for_readers`. */
  predicate Iterate(s: State, s': State) {
    && s.w.Top?
    && var loops := if s.w.loops < ATTEMPTS then s.w.loops + 1 else s.w.loops;
    && s' == s.(w := Scan(s.w.round, loops, Input(s, s.w.round)),
             futex := if loops >= ATTEMPTS then s.futex - 1 else s.futex)
  }

  /** One reader of the input list. */
  predicate Classify(s: State, s': State, t: Tid) {
    && s.w.Scan? && t in s.w.todo && t in s.readers
    && var w := s.w.(todo := s.w.todo - {t});
    && match StateOf(s.readers[t].ctr, s.gp)
       case ActiveOld => s' == s.(w := w)
       case ActiveCurrent =>
         if s.w.round.First? then s' == s.(w := w, registry := s.registry - {t}, snap := s.snap + {t})
         else s' == s.(w := w, snap := s.snap - {t}, qs := s.qs + {t})
       case Inactive =>
         if s.w.round.First? then s' == s.(w := w, registry := s.registry - {t}, qs := s.qs + {t})
         else s' == s.(w := w, snap := s.snap - {t}, qs := s.qs + {t})
  }

  predicate ScanEnd(s: State, s': State) {
    s.w.Scan? && s.w.todo == {} && s' == s.(w := Tested(s.w.round, s.w.loops))
  }

  /** Is the input list empty? Then leave the loop, else release the lock and wait or spin. */
  predicate Test(s: State, s': State) {
    && s.w.Tested?
    && s' == if Input(s, s.w.round) == {} then
               s.(w := if s.w.round.First? then Switch else Done, futex := if s.w.loops >= ATTEMPTS then 0 else s.futex)
             else if s.w.loops >= ATTEMPTS then
               s.(w := FutexLoad(s.w.round), awaited := Input(s, s.w.round))
             else
               s.(w := Relax(s.w.round, s.w.loops))
  }

  predicate Spin(s: State, s': State) { s.w.Relax? && s' == s.(w := Top(s.w.round, s.w.loops)) }

  // wait_gp

  predicate WaitLoad(s: State, s': State) {
    s.w.FutexLoad? && s' == s.(w := if s.futex == -1 then FutexWait(s.w.round) else Relock(s.w.round))
  }

  /** FUTEX_WAIT: sleep if the word still is -1, else EAGAIN. */
  predicate WaitCall(s: State, s': State) {
    s.w.FutexWait? && s' == s.(w := if s.futex == -1 then Asleep(s.w.round) else Relock(s.w.round))
  }

  /** A spurious wake-up or an interruption. */
  predicate WaitReturn(s: State, s': State) { s.w.Asleep? && s' == s.(w := FutexLoad(s.w.round)) }

  predicate LockAgain(s: State, s': State) { s.w.Relock? && s' == s.(w := Top(s.w.round, ATTEMPTS)) }

  /** Switch parity, between the two rounds. */
  predicate SwitchPhase(s: State, s': State) { s.w.Switch? && s' == s.(w := Top(Second, 0), gp := Flip(s.gp)) }

  /** Put the quiescent readers back, release the locks and return. */
  predicate Finish(s: State, s': State) {
    s.w.Done? && s' == s.(w := Off, registry := s.registry + s.qs, qs := {})
  }

  predicate WaitStep(s: State, s': State) {
    || Iterate(s, s') || ScanEnd(s, s') || Test(s, s') || Spin(s, s')
    || WaitLoad(s, s') || WaitCall(s, s') || WaitReturn(s, s') || LockAgain(s, s')
  }

  ghost predicate Next(s: State, s': State) {
    || (exists t :: ReaderStep(s, s', t))
    || (exists t :: Classify(s, s', t))
    || Begin(s, s') || WaitStep(s, s') || SwitchPhase(s, s') || Finish(s, s')
  }

  ghost predicate Run(r: seq<State>) {
    && |r| > 0 && Init(r[0])
    && forall i :: 0 <= i < |r| - 1 ==> Next(r[i], r[i + 1])
  }

  // ---------- the invariant ----------

  /** Every registered reader is in exactly one of the three lists, and nobody else is. */
  ghost predicate Partition(s: State) {
    && s.registry !! s.snap && s.registry !! s.qs && s.snap !! s.qs
    && (forall t: Tid :: t in s.registry + s.snap + s.qs <==> t in s.readers && s.readers[t].registered)
    && (s.w.Off? ==> s.snap == {} && s.qs == {})
    && (s.w.Done? ==> s.snap == {})
    && (s.w.Scan? ==> s.w.todo <= Input(s, s.w.round))
  }

  predicate ReaderInv(s: State, t: Tid)
    requires t in s.readers
  {
    var r := s.readers[t];
    && Nest(r.ctr) == r.depth
    && (!r.registered ==> Nest(r.ctr) == 0 && r.pc == Running)
    && (!r.pc.Running? ==> Nest(r.ctr) == 0)
    && (r.pc.Loaded? ==> Nest(r.pc.word) == COUNT)
  }

  /** The section that was open when the grace period began is still open. */
  predicate StillOpen(s: State, t: Tid) { t in s.began && InSection(s, t) && s.readers[t].sec == s.began[t] }

  predicate Round1(w: WriterPc) {
    && !w.Off? && !w.Switch? && !w.Done?
    && w.round.First?
  }

  predicate Round2(w: WriterPc) { !w.Off? && !w.Switch? && !w.Done? && w.round.Second? }

  /** Where the writer still waits for an old section. */
  predicate Watched(s: State, t: Tid)
    requires t in s.readers
  {
    var current := Phase(s.readers[t].ctr) == Phase(s.gp);
    && (Round1(s.w) ==> t in s.registry || (t in s.snap && current))
    && (s.w.Switch? ==> t in s.snap && current)
    && (Round2(s.w) ==> t in s.snap && !current)
    && !s.w.Done?
  }

  /** A reader whose wake-up of the writer is still due. */
  predicate Awaits(s: State, t: Tid) {
    && t in s.readers
    && (StateOf(s.readers[t].ctr, s.gp) == ActiveOld || s.readers[t].pc == WakeLoad || s.readers[t].pc == WakeStore)
  }

  predicate MayWait(w: WriterPc) {
    || (w.Scan? && w.loops >= ATTEMPTS) || (w.Tested? && w.loops >= ATTEMPTS)
    || w.FutexLoad? || w.FutexWait? || w.Asleep?
  }

  ghost predicate FutexInv(s: State) {
    && (s.futex == 0 || s.futex == -1)
    && (s.futex == -1 ==> MayWait(s.w))
    && (s.futex == -1 && s.w.Scan? ==> forall t :: t in Input(s, s.w.round) && t !in s.w.todo ==> Awaits(s, t))
    && (s.futex == -1 && s.w.Tested? ==> forall t :: t in Input(s, s.w.round) ==> Awaits(s, t))
    && (s.w.FutexLoad? || s.w.FutexWait? || s.w.Asleep? ==> s.awaited != {})
    && (s.futex == -1 && (s.w.FutexLoad? || s.w.FutexWait? || s.w.Asleep?) ==>
             forall t :: t in s.awaited ==> Awaits(s, t))
    && (s.w.Asleep? && s.futex == 0 ==> exists t :: t in s.readers && s.readers[t].pc == WakeCall)
  }

  ghost predicate Inv(s: State) {
    && Partition(s)
    && Nest(s.gp) == COUNT
    && (forall t :: t in s.readers ==> ReaderInv(s, t))
    && (forall t :: t in s.began ==> t in s.readers && s.began[t] <= s.readers[t].sec)
    && (!s.w.Off? ==> forall t :: t in s.began && StillOpen(s, t) ==> Watched(s, t))
    && FutexInv(s)
  }

  lemma InitInv(s: State)
    requires Init(s)
    ensures Inv(s)
  {
  }

  lemma ListInv(s: State, s': State, t: Tid)
    requires Inv(s) && (Register(s, s', t) || Unregister(s, s', t))
    ensures Inv(s')
  {
    hide Nest, Phase;
    assert ReaderInv(s, t);
    if s'.w.Asleep? && s'.futex == 0 {
      var u :| u in s.readers && s.readers[u].pc == WakeCall;
      assert s'.readers[u].pc == WakeCall;
    }
  }

  lemma FutexKept(s: State, s': State, t: Tid)
    requires FutexInv(s) && t in s.readers && s'.readers.Keys == s.readers.Keys && s' == Set(s, t, s'.readers[t])
    requires s.readers[t].pc != WakeCall && (Awaits(s, t) ==> Awaits(s', t) || s.futex == 0)
    ensures FutexInv(s')
  {
    hide Nest, Phase;
    forall u | Awaits(s, u) && u != t
      ensures Awaits(s', u)
    {
    }
    if s.w.Scan? || s.w.Tested? { assert Input(s', s.w.round) == Input(s, s.w.round); }
    if s'.w.Asleep? && s'.futex == 0 {
      var u :| u in s.readers && s.readers[u].pc == WakeCall;
      assert s'.readers[u].pc == WakeCall;
    }
  }

  /** A step of a registered reader on its own fields. */
  lemma OwnMoveInv(s: State, s': State, t: Tid)
    requires Inv(s) && t in s.readers && s'.readers.Keys == s.readers.Keys && s' == Set(s, t, s'.readers[t])
    requires s.readers[t].registered && s'.readers[t].registered
    requires s.readers[t].sec <= s'.readers[t].sec && ReaderInv(s', t)
    requires StillOpen(s', t) ==> StillOpen(s, t) && Phase(s'.readers[t].ctr) == Phase(s.readers[t].ctr)
    requires s.readers[t].pc != WakeCall && (Awaits(s, t) ==> Awaits(s', t) || s.futex == 0)
    ensures Inv(s')
  {
    FutexKept(s, s', t);
    hide Nest, Phase, FutexInv;
    if !s.w.Off? {
      forall u | u in s'.began && StillOpen(s', u)
        ensures Watched(s', u)
      {
        assert StillOpen(s, u);
      }
    }
  }

  lemma LockInv(s: State, s': State, t: Tid)
    requires Inv(s) && (LockLoad(s, s', t) || LockStore(s, s', t))
    ensures Inv(s')
  {
    hide Nest, Phase, FutexInv, Partition;
    assert ReaderInv(s, t);
    OwnMoveInv(s, s', t);
  }

  lemma NestInv(s: State, s': State, t: Tid)
    requires Inv(s) && (LockNested(s, s', t) || UnlockNested(s, s', t))
    ensures Inv(s')
  {
    if LockNested(s, s', t) { NestMore(s.readers[t].ctr); } else { NestLess(s.readers[t].ctr); }
    hide Nest, Phase, FutexInv, Partition;
    assert ReaderInv(s, t);
    OwnMoveInv(s, s', t);
  }

  lemma UnlockInv(s: State, s': State, t: Tid)
    requires Inv(s) && (UnlockOuter(s, s', t) || LoadFutex(s, s', t))
    ensures Inv(s')
  {
    if UnlockOuter(s, s', t) { NestLess(s.readers[t].ctr); }
    assert s.futex == 0 || s.futex == -1;
    hide Nest, Phase, FutexInv, Partition;
    assert ReaderInv(s, t);
    OwnMoveInv(s, s', t);
  }

  lemma StoreFutexKept(s: State, s': State, t: Tid)
    requires FutexInv(s) && StoreFutex(s, s', t)
    ensures FutexInv(s')
  {
    hide Nest, Phase, Awaits;
    assert s'.readers[t].pc == WakeCall;
  }

  lemma CallWakeKept(s: State, s': State, t: Tid)
    requires FutexInv(s) && CallWake(s, s', t) && ReaderInv(s, t)
    ensures FutexInv(s')
  {
    hide Nest, Phase;
    forall u | u in s.readers && Awaits(s, u)
      ensures Awaits(s', u)
    {
    }
    if s.w.Scan? || s.w.Tested? { assert Input(s', s.w.round) == Input(s, s.w.round); }
  }

  lemma WakeInv(s: State, s': State, t: Tid)
    requires Inv(s) && (StoreFutex(s, s', t) || CallWake(s, s', t))
    ensures Inv(s')
  {
    if StoreFutex(s, s', t) { StoreFutexKept(s, s', t); } else { CallWakeKept(s, s', t); }
    hide Nest, Phase, FutexInv;
    assert ReaderInv(s, t);
  }

  lemma BeginInv(s: State, s': State)
    requires Inv(s) && (Begin(s, s') || Finish(s, s'))
    ensures Inv(s')
  {
    hide Nest, Phase;
    forall t | StillOpen(s', t) && !s'.w.Off?
      ensures Watched(s', t)
    {
      assert ReaderInv(s, t);
    }
  }

  lemma ClassifyInv(s: State, s': State, t: Tid)
    requires Inv(s) && Classify(s, s', t)
    ensures Inv(s')
  {
    hide Nest, Phase;
  }

  lemma IterateInv(s: State, s': State)
    requires Inv(s) && (Iterate(s, s') || ScanEnd(s, s') || Test(s, s'))
    ensures Inv(s')
  {
    hide Nest, Phase;
    assert s.w.Scan? ==> Input(s', s.w.round) == Input(s, s.w.round);
  }

  lemma WaitInv(s: State, s': State)
    requires Inv(s)
    requires Spin(s, s') || WaitLoad(s, s') || WaitCall(s, s') || WaitReturn(s, s') || LockAgain(s, s')
    ensures Inv(s')
  {
    hide Nest, Phase;
  }

  lemma SwitchInv(s: State, s': State)
    requires Inv(s) && SwitchPhase(s, s')
    ensures Inv(s')
  {
    FlipPhase(s.gp);
    hide Nest, Phase;
  }

  lemma NextInv(s: State, s': State)
    requires Inv(s) && Next(s, s')
    ensures Inv(s')
  {
    hide Inv;
    if t :| ReaderStep(s, s', t) {
      if Register(s, s', t) || Unregister(s, s', t) { ListInv(s, s', t); }
      else if LockLoad(s, s', t) || LockStore(s, s', t) { LockInv(s, s', t); }
      else if LockNested(s, s', t) || UnlockNested(s, s', t) { NestInv(s, s', t); }
      else if UnlockOuter(s, s', t) || LoadFutex(s, s', t) { UnlockInv(s, s', t); }
      else { WakeInv(s, s', t); }
    } else if t :| Classify(s, s', t) { ClassifyInv(s, s', t); }
    else if Iterate(s, s') || ScanEnd(s, s') || Test(s, s') { IterateInv(s, s'); }
    else if WaitStep(s, s') { WaitInv(s, s'); }
    else if SwitchPhase(s, s') { SwitchInv(s, s'); }
    else { BeginInv(s, s'); }
  }

  lemma {:induction false} RunInv(r: seq<State>, i: nat)
    requires Run(r) && i < |r|
    ensures Inv(r[i])
  {
    hide Inv, Next, Init;
    if i == 0 {
      InitInv(r[0]);
    } else {
      RunInv(r, i - 1);
      assert Next(r[i - 1], r[i - 1 + 1]);
      NextInv(r[i - 1], r[i]);
    }
  }

  // ---------- what a grace period promises ----------

  lemma NextBegan(s: State, s': State)
    requires Next(s, s') && !s.w.Off?
    ensures s'.began == s.began
  {
    hide Nest, Phase;
  }

  lemma {:induction false} BeganKept(r: seq<State>, i: nat, j: nat)
    requires Run(r) && i < j < |r| && Begin(r[i], r[i + 1])
    requires forall m :: i < m < j ==> !r[m].w.Off?
    ensures r[j].began == OpenSections(r[i])
    decreases j
  {
    hide Next, Init, Nest;
    if i + 1 < j {
      BeganKept(r, i, j - 1);
      assert Next(r[j - 1], r[j - 1 + 1]);
      NextBegan(r[j - 1], r[j]);
    }
  }

  lemma ReaderGoesOn(s: State, s': State, u: Tid, t: Tid)
    requires ReaderStep(s, s', u) && InSection(s, t) && ReaderInv(s, t) && InSection(s', t)
    ensures s'.readers[t].sec == s.readers[t].sec
  {
    hide Nest, Phase;
  }

  lemma SectionGoesOn(s: State, s': State, t: Tid)
    requires Inv(s) && Next(s, s') && InSection(s, t) && InSection(s', t)
    ensures s'.readers[t].sec == s.readers[t].sec
  {
    assert ReaderInv(s, t);
    hide Inv, Nest, Phase, ReaderStep, ReaderInv;
    if u :| ReaderStep(s, s', u) { ReaderGoesOn(s, s', u, t); }
  }

  lemma {:induction false} SameSection(r: seq<State>, i: nat, j: nat, t: Tid)
    requires Run(r) && i <= j < |r| && forall m :: i <= m <= j ==> InSection(r[m], t)
    ensures InSection(r[i], t) && InSection(r[j], t) && r[j].readers[t].sec == r[i].readers[t].sec
    decreases j
  {
    hide Next, Init, Inv;
    if i < j {
      SameSection(r, i, j - 1, t);
      assert Next(r[j - 1], r[j - 1 + 1]);
      RunInv(r, j - 1);
      SectionGoesOn(r[j - 1], r[j], t);
    }
  }

  lemma ReturnsFromDone(s: State, s': State)
    requires Next(s, s') && !s.w.Off? && s'.w.Off?
    ensures s.w.Done? && s'.readers == s.readers
  {
    hide Nest, Phase;
  }

  /**
   When `synchronize_rcu`, called at state `i`, has returned at state `j`, every
   section that was open at the call has ended in between: its reader was
   outside, and is so or in a section it opened later. This holds for every
   nesting depth, for sections opened with a stale copy of the global word, and
   with threads registering and unregistering meanwhile.
   */
  lemma GracePeriodCovers(r: seq<State>, i: nat, j: nat, t: Tid)
    requires Run(r) && i + 1 < j < |r| && Begin(r[i], r[i + 1])
    requires (forall m :: i < m < j ==> !r[m].w.Off?) && r[j].w.Off?
    requires InSection(r[i], t)
    ensures exists m :: i <= m <= j && !InSection(r[m], t)
    ensures t in r[j].readers && r[i].readers[t].sec <= r[j].readers[t].sec
    ensures InSection(r[j], t) ==> r[i].readers[t].sec < r[j].readers[t].sec
  {
    hide Nest, Phase, Next, Init;
    assert Next(r[j - 1], r[j - 1 + 1]);
    ReturnsFromDone(r[j - 1], r[j]);
    BeganKept(r, i, j - 1);
    RunInv(r, j - 1);
    assert t in r[j - 1].began;
    if forall m :: i <= m <= j ==> InSection(r[m], t) {
      SameSection(r, i, j, t);
    }
  }

  /** Every registered thread is in exactly one of the three lists, in every state. */
  lemma ListsPartitionReaders(r: seq<State>, i: nat, t: Tid)
    requires Run(r) && i < |r|
    ensures var s := r[i];
            var lists := multiset(s.registry) + multiset(s.snap) + multiset(s.qs);
            lists[t] == if t in s.readers && s.readers[t].registered then 1 else 0
  {
    hide Run, Nest, Phase;
    RunInv(r, i);
  }

  /**
   No wake-up is lost: the futex word is 0 or -1, and while the writer sleeps
   somebody is still bound to wake it, an awaited reader in its old section or
   on its way from leaving it to clearing the futex, or a reader about to call
   FUTEX_WAKE.
   */
  lemma NoLostWakeup(r: seq<State>, i: nat)
    requires Run(r) && i < |r|
    ensures r[i].futex == 0 || r[i].futex == -1
    ensures r[i].w.Asleep? ==>
              || (r[i].futex == -1 && exists t :: t in r[i].awaited && Awaits(r[i], t))
              || exists t :: t in r[i].readers && r[i].readers[t].pc == WakeCall
  {
    hide Run, Nest, Phase;
    RunInv(r, i);
    if r[i].w.Asleep? && r[i].futex == -1 {
      var t :| t in r[i].awaited;
      assert Awaits(r[i], t);
    }
  }
}
