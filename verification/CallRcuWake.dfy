/**
 How the callback workers and `rcu_barrier` sleep and are woken. A worker
 decrements its futex word, looks for work, and waits while the word is -1;
 whoever queues a callback or asks it to stop resets the word and wakes it. A
 barrier waits for its count in the same way, and the completion that brings
 the count to zero wakes it. Workers that poll (URCU_CALL_RCU_RT) do not sleep.
 */
module CallRcuWake {

  type Tid = nat

  /** A thread in `call_rcu_wake_up` or `call_rcu_completion_wake_up`. */
  datatype Waker = Quiet | Load | Store | Call

  /** The worker in `call_rcu_thread`: `Dec` to `TestEmpty` outside, `WaitLoad` to `Asleep` in `call_rcu_wait`. */
  datatype Pc = Dec | Take | TestStop | TestEmpty | WaitLoad | FutexWait | Asleep | Ended

  /** `work`: how many callbacks are queued. */
  datatype State = State(work: nat, stop: bool, futex: int, pc: Pc, wakers: seq<Waker>)

  predicate Init(s: State) {
    && s.work == 0 && !s.stop && s.futex == 0 && s.pc == Dec
    && forall t :: 0 <= t < |s.wakers| ==> s.wakers[t] == Quiet
  }

  function Wakes(s: State, t: Tid, k: Waker): State
    requires t < |s.wakers|
  {
    s.(wakers := s.wakers[t := k])
  }

  /** A callback is queued, or the worker is asked to stop; the thread goes on to wake the worker. */
  predicate Produce(s: State, s': State, t: Tid) {
    && t < |s.wakers| && s.wakers[t] == Quiet
    && (s' == Wakes(s, t, Load).(work := s.work + 1) || s' == Wakes(s, t, Load).(stop := true))
  }

  predicate WakeStep(s: State, s': State, t: Tid) {
    && t < |s.wakers|
    && match s.wakers[t]
       case Quiet => false
       case Load => s' == Wakes(s, t, if s.futex == -1 then Store else Quiet)
       case Store => s' == Wakes(s, t, Call).(futex := 0)
       case Call => s' == Wakes(s, t, Quiet).(pc := if s.pc == Asleep then WaitLoad else s.pc)
  }

  /** Spurious returns from the futex go back to `WaitLoad`. */
  predicate WorkerStep(s: State, s': State) {
    match s.pc
    case Dec => s' == s.(futex := s.futex - 1, pc := Take)
    case Take => s' == s.(work := 0, pc := TestStop)
    case TestStop => s' == if s.stop then s.(futex := 0, pc := Ended) else s.(pc := TestEmpty)
    case TestEmpty => s' == s.(pc := if s.work == 0 then WaitLoad else Take)
    case WaitLoad => s' == s.(pc := if s.futex == -1 then FutexWait else Dec)
    case FutexWait => s' == s.(pc := if s.futex == -1 then Asleep else Dec)
    case Asleep => s' == s.(pc := WaitLoad)
    case Ended => false
  }

  ghost predicate Next(s: State, s': State) {
    WorkerStep(s, s') || exists t :: Produce(s, s', t) || WakeStep(s, s', t)
  }

  ghost predicate Run(r: seq<State>) {
    && |r| > 0 && Init(r[0])
    && forall i :: 0 <= i < |r| - 1 ==> Next(r[i], r[i + 1])
  }

  predicate Waits(pc: Pc) { pc == WaitLoad || pc == FutexWait || pc == Asleep }

  predicate Resets(w: seq<Waker>) { exists t :: 0 <= t < |w| && (w[t] == Load || w[t] == Store) }

  predicate Calls(w: seq<Waker>) { exists t :: 0 <= t < |w| && w[t] == Call }

  predicate Inv(s: State) {
    && (s.futex == 0 || s.futex == -1) && (s.pc == Dec || s.pc == Ended ==> s.futex == 0)
    && (s.futex == -1 && s.stop && (s.pc == TestEmpty || Waits(s.pc)) ==> Resets(s.wakers))
    && (s.futex == -1 && s.work > 0 && Waits(s.pc) ==> Resets(s.wakers))
    && (s.futex == 0 && s.pc == Asleep ==> Calls(s.wakers))
  }

  lemma WakersSeq(w: seq<Waker>, t: Tid, k: Waker)
    requires t < |w|
    ensures Resets(w) && ((w[t] != Load && w[t] != Store) || k == Store) ==> Resets(w[t := k])
    ensures k == Load || k == Store ==> Resets(w[t := k])
    ensures Calls(w) && w[t] != Call ==> Calls(w[t := k])
    ensures k == Call ==> Calls(w[t := k])
  {
    if Resets(w) {
      var u :| 0 <= u < |w| && (w[u] == Load || w[u] == Store);
      assert u != t ==> w[t := k][u] == w[u];
    }
    if Calls(w) {
      var u :| 0 <= u < |w| && w[u] == Call;
      assert u != t ==> w[t := k][u] == w[u];
    }
    assert w[t := k][t] == k;
  }

  lemma WorkerInv(s: State, s': State)
    requires Inv(s) && WorkerStep(s, s')
    ensures Inv(s')
  {
    hide Resets, Calls;
  }

  lemma ProduceInv(s: State, s': State, t: Tid)
    requires Inv(s) && Produce(s, s', t)
    ensures Inv(s')
  {
    WakersSeq(s.wakers, t, Load);
    hide Resets, Calls;
  }

  lemma WakeInv(s: State, s': State, t: Tid)
    requires Inv(s) && WakeStep(s, s', t)
    ensures Inv(s')
  {
    WakersSeq(s.wakers, t, s'.wakers[t]);
    hide Resets, Calls;
  }

  lemma NextInv(s: State, s': State)
    requires Inv(s) && Next(s, s')
    ensures Inv(s')
  {
    hide Inv, WorkerStep, Produce, WakeStep;
    if WorkerStep(s, s') {
      WorkerInv(s, s');
    } else {
      var t: Tid :| Produce(s, s', t) || WakeStep(s, s', t);
      if Produce(s, s', t) { ProduceInv(s, s', t); } else { WakeInv(s, s', t); }
    }
  }

  lemma {:induction false} RunInv(r: seq<State>, i: nat)
    requires Run(r) && i < |r|
    ensures Inv(r[i])
  {
    if i > 0 {
      RunInv(r, i - 1);
      assert Next(r[i - 1], r[i]);
      NextInv(r[i - 1], r[i]);
    }
  }

  /**
   The futex word is 0 or -1, and a worker never sleeps on work or on a request
   to stop unless somebody is about to wake it.
   */
  lemma WorkerIsWoken(r: seq<State>, i: nat)
    requires Run(r) && i < |r|
    ensures r[i].futex == 0 || r[i].futex == -1
    ensures r[i].pc == Asleep && (r[i].work > 0 || r[i].stop) ==> Resets(r[i].wakers) || Calls(r[i].wakers)
  {
    RunInv(r, i);
  }
}

/** The same for the completion of `rcu_barrier`. */
module BarrierWake {
  import opened CallRcuWake

  datatype BarrierPc = BDec | BLoad | BWaitLoad | BFutexWait | BAsleep | Out

  /** `pending`: the completion callbacks that have not decremented the count. */
  datatype Completion = Completion(count: int, futex: int, pc: BarrierPc, pending: set<Tid>, wakers: seq<Waker>)

  predicate Started(s: Completion) {
    && s.count == |s.pending| && s.futex == 0 && s.pc == BDec
    && (forall t :: t in s.pending ==> t < |s.wakers|)
    && (forall t :: 0 <= t < |s.wakers| ==> s.wakers[t] == Quiet)
  }

  function Moved(s: Completion, t: Tid, k: Waker): Completion
    requires t < |s.wakers|
  {
    s.(wakers := s.wakers[t := k])
  }

  /** `uatomic_sub_return`; whoever reaches zero wakes the barrier. */
  predicate Sub(s: Completion, s': Completion, t: Tid) {
    && t in s.pending && t < |s.wakers| && s.wakers[t] == Quiet
    && s' == Moved(s, t, if s.count - 1 == 0 then Load else Quiet).(count := s.count - 1, pending := s.pending - {t})
  }

  predicate CompleteWake(s: Completion, s': Completion, t: Tid) {
    && t < |s.wakers|
    && match s.wakers[t]
       case Quiet => false
       case Load => s' == Moved(s, t, if s.futex == -1 then Store else Quiet)
       case Store => s' == Moved(s, t, Call).(futex := 0)
       case Call => s' == Moved(s, t, Quiet).(pc := if s.pc == BAsleep then BWaitLoad else s.pc)
  }

  predicate BarrierStep(s: Completion, s': Completion) {
    match s.pc
    case BDec => s' == s.(futex := s.futex - 1, pc := BLoad)
    case BLoad => s' == s.(pc := if s.count == 0 then Out else BWaitLoad)
    case BWaitLoad => s' == s.(pc := if s.futex == -1 then BFutexWait else BDec)
    case BFutexWait => s' == s.(pc := if s.futex == -1 then BAsleep else BDec)
    case BAsleep => s' == s.(pc := BWaitLoad)
    case Out => false
  }

  ghost predicate BNext(s: Completion, s': Completion) {
    BarrierStep(s, s') || exists t :: Sub(s, s', t) || CompleteWake(s, s', t)
  }

  ghost predicate BRun(r: seq<Completion>) {
    && |r| > 0 && Started(r[0])
    && forall i :: 0 <= i < |r| - 1 ==> BNext(r[i], r[i + 1])
  }

  predicate BWaits(pc: BarrierPc) { pc == BWaitLoad || pc == BFutexWait || pc == BAsleep }

  predicate BInv(s: Completion) {
    && s.count == |s.pending| && (forall t :: t in s.pending ==> t < |s.wakers| && s.wakers[t] == Quiet)
    && (s.futex == 0 || s.futex == -1) && (s.pc == BDec ==> s.futex == 0)
    && (s.futex == -1 && s.count == 0 && BWaits(s.pc) ==> Resets(s.wakers))
    && (s.futex == 0 && s.pc == BAsleep ==> Calls(s.wakers))
    && (s.pc == Out ==> s.count == 0)
  }

  lemma BarrierStepInv(s: Completion, s': Completion)
    requires BInv(s) && BarrierStep(s, s')
    ensures BInv(s')
  {
    hide Resets, Calls;
  }

  lemma SubInv(s: Completion, s': Completion, t: Tid)
    requires BInv(s) && Sub(s, s', t)
    ensures BInv(s')
  {
    WakersSeq(s.wakers, t, s'.wakers[t]);
    hide Resets, Calls;
  }

  lemma CompleteInv(s: Completion, s': Completion, t: Tid)
    requires BInv(s) && CompleteWake(s, s', t)
    ensures BInv(s')
  {
    WakersSeq(s.wakers, t, s'.wakers[t]);
    hide Resets, Calls;
  }

  lemma BNextInv(s: Completion, s': Completion)
    requires BInv(s) && BNext(s, s')
    ensures BInv(s')
  {
    hide BInv, BarrierStep, Sub, CompleteWake;
    if BarrierStep(s, s') {
      BarrierStepInv(s, s');
    } else {
      var t: Tid :| Sub(s, s', t) || CompleteWake(s, s', t);
      if Sub(s, s', t) { SubInv(s, s', t); } else { CompleteInv(s, s', t); }
    }
  }

  lemma {:induction false} BRunInv(r: seq<Completion>, i: nat)
    requires BRun(r) && i < |r|
    ensures BInv(r[i])
  {
    if i > 0 {
      BRunInv(r, i - 1);
      assert BNext(r[i - 1], r[i]);
      BNextInv(r[i - 1], r[i]);
    }
  }

  /**
   A barrier never sleeps on a count of zero unless somebody is about to wake
   it, and leaves its loop only at zero.
   */
  lemma BarrierIsWoken(r: seq<Completion>, i: nat)
    requires BRun(r) && i < |r|
    ensures r[i].futex == 0 || r[i].futex == -1
    ensures r[i].pc == BAsleep && r[i].count == 0 ==> Resets(r[i].wakers) || Calls(r[i].wakers)
    ensures r[i].pc == Out ==> r[i].count == 0
  {
    BRunInv(r, i);
  }
}
