/**
 Deferred callbacks: worker threads that take the whole callback queue, wait
 for a grace period and run the callbacks; `rcu_barrier`, which posts one
 completion callback on every worker and waits for all of them; and freeing
 a worker, which hands its leftover callbacks to the default worker. A callback
 queue is a sequence here (`WfcQueue` justifies that); sleeping and waking is in
 `CallRcuWake`. Any number of threads enqueue, wait at barriers and free
 workers at the same time.
 */
module CallRcu {

  type Cid = nat
  type Wid = nat
  type Bid = nat

  // a user's function, or _rcu_barrier_complete of a barrier
  datatype Func = User | Complete(b: Bid)

  /**
   `stamp` records how many grace periods had begun when the callback was
   queued, `ran` how often it ran, `at` which worker has it.
   */
  datatype Callback = Callback(func: Func, stamp: nat, ran: nat, at: Wid)

  /** `Put`: a completion callback has decremented the barrier count and still has to drop its reference. */
  datatype WorkerPc = Top | Sync | InGp(gp: nat) | Invoke(gp: nat) | Put(gp: nat) | CheckStop | End

  /** `_call_rcu_data_free`; the mutex is held in `Checking`, `Taking`, `Giving` and `Deleting`. */
  datatype FreePc = Live | Stopping | Checking | Reopening | Taking | Giving | Deleting | Freed

  /** `batch`: the callbacks the worker took from the queue, or the ones its freer is handing over. */
  datatype Worker = Worker(
    queue: seq<Cid>, batch: seq<Cid>, pc: WorkerPc,
    usable: bool, stop: bool, stopped: bool, listed: bool, free: FreePc)

  datatype BarrierPc = Posting | Waiting | Leaving | Returned

  /**
   `count` and `ref` are the fields of the completion. `todo` are the workers
   still to be posted on. `start`, `open` and `held` are records for the proof:
   the callbacks queued before, the completion callbacks that have not
   decremented the count, and those that have not dropped their reference.
   */
  datatype Barrier = Barrier(
      pc: BarrierPc, count: int, ref: int, todo: set<Wid>,
      start: nat, open: set<Cid>, held: set<Cid>)

  datatype Mutex = Unlocked | ByBarrier(b: Bid) | ByFree(w: Wid)

  datatype State = State(cbs: seq<Callback>, workers: seq<Worker>, barriers: seq<Barrier>, mutex: Mutex, begun: nat)

  /** The default worker, which is never freed. */
  const DEFAULT: Wid := 0

  function NewWorker(): Worker { Worker([], [], Top, true, false, false, true, Live) }

  predicate Init(s: State) {
    s.cbs == [] && s.workers == [NewWorker()] && s.barriers == [] && s.mutex == Unlocked && s.begun == 0
  }

  // ---------- steps ----------

  function SetW(s: State, w: Wid, v: Worker): State
    requires w < |s.workers|
  {
    s.(workers := s.workers[w := v])
  }

  function SetB(s: State, b: Bid, v: Barrier): State
    requires b < |s.barriers|
  {
    s.(barriers := s.barriers[b := v])
  }

  function SetC(s: State, c: Cid, v: Callback): State
    requires c < |s.cbs|
  {
    s.(cbs := s.cbs[c := v])
  }

  /** `_call_rcu` */
  function Enqueued(s: State, w: Wid, f: Func): State
    requires w < |s.workers|
  {
    SetW(s, w, s.workers[w].(queue := s.workers[w].queue + [|s.cbs|])).(cbs := s.cbs + [Callback(f, s.begun, 0, w)])
  }

  predicate CreateWorker(s: State, s': State) {
    s.mutex == Unlocked && s' == s.(workers := s.workers + [NewWorker()])
  }

  /** `call_rcu`: on a worker in use, or from a callback on its own worker. */
  predicate CallRcu(s: State, s': State, w: Wid) {
    && w < |s.workers| && (s.workers[w].usable || !s.workers[w].stopped)
    && s' == Enqueued(s, w, User)
  }

  // call_rcu_thread

  predicate Splice(s: State, s': State, w: Wid) {
    && w < |s.workers| && s.workers[w].pc == Top
    && var v := s.workers[w];
    && s' == SetW(s, w, if v.queue == [] then v.(pc := CheckStop) else v.(queue := [], batch := v.queue, pc := Sync))
  }

  predicate BeginGp(s: State, s': State, w: Wid) {
    && w < |s.workers| && s.workers[w].pc == Sync
    && s' == SetW(s, w, s.workers[w].(pc := InGp(s.begun + 1))).(begun := s.begun + 1)
  }

  /** `synchronize_rcu` returns. */
  predicate EndGp(s: State, s': State, w: Wid) {
    && w < |s.workers| && s.workers[w].pc.InGp?
    && s' == SetW(s, w, s.workers[w].(pc := Invoke(s.workers[w].pc.gp)))
  }

  /** The callback at the front is done. */
  function RanFront(s: State, w: Wid, gp: nat): State
    requires w < |s.workers| && s.workers[w].batch != [] && s.workers[w].batch[0] < |s.cbs|
  {
    var c := s.workers[w].batch[0];
    SetC(SetW(s, w, s.workers[w].(batch := s.workers[w].batch[1..], pc := Invoke(gp))),
        c, s.cbs[c].(ran := s.cbs[c].ran + 1))
  }

  predicate RunUser(s: State, s': State, w: Wid) {
    && w < |s.workers| && s.workers[w].pc.Invoke? && s.workers[w].batch != []
    && var c := s.workers[w].batch[0];
    && c < |s.cbs| && s.cbs[c].func.User?
    && s' == RanFront(s, w, s.workers[w].pc.gp)
  }

  // _rcu_barrier_complete

  predicate SubCount(s: State, s': State, w: Wid) {
    && w < |s.workers| && s.workers[w].pc.Invoke? && s.workers[w].batch != []
    && var c := s.workers[w].batch[0];
    && c < |s.cbs| && s.cbs[c].func.Complete? && s.cbs[c].func.b < |s.barriers|
    && var b := s.cbs[c].func.b;
    && var v := s.barriers[b];
    && s' == SetB(SetW(s, w, s.workers[w].(pc := Put(s.workers[w].pc.gp))),
             b, v.(count := v.count - 1, open := v.open - {c}))
  }

  predicate DropRef(s: State, s': State, w: Wid) {
    && w < |s.workers| && s.workers[w].pc.Put? && s.workers[w].batch != []
    && var c := s.workers[w].batch[0];
    && c < |s.cbs| && s.cbs[c].func.Complete? && s.cbs[c].func.b < |s.barriers|
    && var b := s.cbs[c].func.b;
    && var v := s.barriers[b];
    && s' == SetB(RanFront(s, w, s.workers[w].pc.gp), b, v.(ref := v.ref - 1, held := v.held - {c}))
  }

  predicate BatchEnd(s: State, s': State, w: Wid) {
    && w < |s.workers| && s.workers[w].pc.Invoke? && s.workers[w].batch == []
    && s' == SetW(s, w, s.workers[w].(pc := CheckStop))
  }

  predicate LoadStop(s: State, s': State, w: Wid) {
    && w < |s.workers| && s.workers[w].pc == CheckStop
    && s' == SetW(s, w, if s.workers[w].stop then s.workers[w].(pc := End, stopped := true)
             else s.workers[w].(pc := Top))
  }

  // rcu_barrier

  predicate BarrierStart(s: State, s': State) {
    && s.mutex == Unlocked
    && var todo := set w | 0 <= w < |s.workers| && s.workers[w].listed;
    && s' == s.(mutex := ByBarrier(|s.barriers|),
                barriers := s.barriers + [Barrier(Posting, |todo|, |todo| + 1, todo, |s.cbs|, {}, {})])
  }

  predicate Post(s: State, s': State, b: Bid, w: Wid) {
    && b < |s.barriers| && s.barriers[b].pc == Posting && w in s.barriers[b].todo && w < |s.workers|
    && var v := s.barriers[b];
    && s' == SetB(Enqueued(s, w, Complete(b)), b,
                  v.(todo := v.todo - {w}, open := v.open + {|s.cbs|}, held := v.held + {|s.cbs|}))
  }

  predicate PostEnd(s: State, s': State, b: Bid) {
    && b < |s.barriers| && s.barriers[b].pc == Posting && s.barriers[b].todo == {}
    && s' == SetB(s, b, s.barriers[b].(pc := Waiting)).(mutex := Unlocked)
  }

  predicate LoadCount(s: State, s': State, b: Bid) {
    && b < |s.barriers| && s.barriers[b].pc == Waiting && s.barriers[b].count == 0
    && s' == SetB(s, b, s.barriers[b].(pc := Leaving))
  }

  predicate Leave(s: State, s': State, b: Bid) {
    && b < |s.barriers| && s.barriers[b].pc == Leaving
    && s' == SetB(s, b, s.barriers[b].(pc := Returned, ref := s.barriers[b].ref - 1))
  }

  // _call_rcu_data_free

  /** The user takes the worker out of use and waits for a grace period. */
  predicate Retire(s: State, s': State, w: Wid) {
    w < |s.workers| && w != DEFAULT && s' == SetW(s, w, s.workers[w].(usable := false))
  }

  predicate AskStop(s: State, s': State, w: Wid) {
    && w < |s.workers| && w != DEFAULT && !s.workers[w].usable && s.workers[w].free == Live
    && s' == SetW(s, w, s.workers[w].(stop := true, free := Stopping))
  }

  predicate FreeLock(s: State, s': State, w: Wid) {
    && w < |s.workers| && s.workers[w].free == Stopping && s.workers[w].stopped && s.mutex == Unlocked
    && s' == SetW(s, w, s.workers[w].(free := Checking)).(mutex := ByFree(w))
  }

  predicate FreeTest(s: State, s': State, w: Wid) {
    && w < |s.workers| && s.workers[w].free == Checking
    && s' == if s.workers[w].queue == [] then SetW(s, w, s.workers[w].(free := Deleting))
             else SetW(s, w, s.workers[w].(free := Reopening)).(mutex := Unlocked)
  }

  predicate FreeRelock(s: State, s': State, w: Wid) {
    && w < |s.workers| && s.workers[w].free == Reopening && s.mutex == Unlocked
    && s' == SetW(s, w, s.workers[w].(free := Taking)).(mutex := ByFree(w))
  }

  /** The splice to the default worker: take the queue ... */
  predicate FreeTake(s: State, s': State, w: Wid) {
    && w < |s.workers| && s.workers[w].free == Taking
    && s' == SetW(s, w, s.workers[w].(free := Giving, batch := s.workers[w].queue, queue := []))
  }

  function MoveTo(cbs: seq<Callback>, l: seq<Cid>, w: Wid): seq<Callback> {
    seq(|cbs|, c requires 0 <= c < |cbs| => if c in l then cbs[c].(at := w) else cbs[c])
  }

  /** ... and append it. */
  predicate FreeGive(s: State, s': State, w: Wid) {
    && w < |s.workers| && DEFAULT < |s.workers| && w != DEFAULT && s.workers[w].free == Giving
    && var v := s.workers[w];
    && s' == SetW(SetW(s, w, v.(free := Deleting, batch := [])), DEFAULT,
                  s.workers[DEFAULT].(queue := s.workers[DEFAULT].queue + v.batch))
                      .(cbs := MoveTo(s.cbs, v.batch, DEFAULT))
  }

  predicate FreeEnd(s: State, s': State, w: Wid) {
    && w < |s.workers| && s.workers[w].free == Deleting
    && s' == SetW(s, w, s.workers[w].(free := Freed, listed := false)).(mutex := Unlocked)
  }

  predicate WorkerStep(s: State, s': State, w: Wid) {
    || CallRcu(s, s', w) || Splice(s, s', w) || BeginGp(s, s', w) || EndGp(s, s', w) || RunUser(s, s', w)
    || SubCount(s, s', w) || DropRef(s, s', w) || BatchEnd(s, s', w) || LoadStop(s, s', w)
  }

  predicate FreeStep(s: State, s': State, w: Wid) {
    || Retire(s, s', w) || AskStop(s, s', w) || FreeLock(s, s', w) || FreeTest(s, s', w)
    || FreeRelock(s, s', w) || FreeTake(s, s', w) || FreeGive(s, s', w) || FreeEnd(s, s', w)
  }

  ghost predicate Next(s: State, s': State) {
    || CreateWorker(s, s') || BarrierStart(s, s')
    || (exists w :: WorkerStep(s, s', w) || FreeStep(s, s', w))
    || (exists b, w :: Post(s, s', b, w))
    || (exists b :: PostEnd(s, s', b) || LoadCount(s, s', b) || Leave(s, s', b))
  }

  ghost predicate Run(r: seq<State>) {
    && |r| > 0 && Init(r[0])
    && forall i :: 0 <= i < |r| - 1 ==> Next(r[i], r[i + 1])
  }

  // ---------- the invariant ----------

  /** What the worker has yet to run, in order. */
  function Line(v: Worker): seq<Cid> { v.batch + v.queue }

  predicate WorkerInv(s: State, w: Wid)
    requires w < |s.workers|
  {
    var v := s.workers[w];
    && (v.pc == End <==> v.stopped) && (v.stopped ==> v.stop)
    && (v.stop <==> v.free != Live) && (v.free != Live ==> !v.usable && w != DEFAULT)
    && (v.free != Live && v.free != Stopping ==> v.stopped)
    && (v.listed <==> v.free != Freed)
    && (v.pc == Top || v.pc == CheckStop || (v.pc == End && v.free != Giving) ==> v.batch == [])
    && (v.free == Giving || v.free == Deleting || v.free == Freed ==> v.queue == [])
    && (v.free == Deleting || v.free == Freed ==> v.batch == [])
    && (v.pc.Put? ==> v.batch != [] && v.batch[0] < |s.cbs| && s.cbs[v.batch[0]].func.Complete?)
    && ((v.free == Checking || v.free == Taking || v.free == Giving || v.free == Deleting) <==> s.mutex == ByFree(w))
    && (v.pc.InGp? || v.pc.Invoke? || v.pc.Put? ==>
          v.pc.gp <= s.begun &&
              forall i :: 0 <= i < |v.batch| && v.batch[i] < |s.cbs| ==> s.cbs[v.batch[i]].stamp < v.pc.gp)
  }

  /** The worker's callbacks are its own, wait to be run, and are all different. */
  predicate LineInv(s: State, w: Wid)
    requires w < |s.workers|
  {
    LineOk(s.cbs, Line(s.workers[w]), w)
  }

  predicate LineOk(cbs: seq<Callback>, l: seq<Cid>, w: Wid) {
    && (forall i :: 0 <= i < |l| ==> l[i] < |cbs| && cbs[l[i]].at == w && cbs[l[i]].ran == 0)
    && (forall i, j :: 0 <= i < j < |l| ==> l[i] != l[j])
  }

  /** A callback that has not run is waiting at its worker; no callback runs twice. */
  predicate CallbackInv(s: State, c: Cid)
    requires c < |s.cbs|
  {
    var v := s.cbs[c];
    && v.ran <= 1 && v.stamp <= s.begun && v.at < |s.workers|
    && (v.ran == 0 ==> c in Line(s.workers[v.at]))
    && (v.func.Complete? ==> v.func.b < |s.barriers| && (v.ran == 0 <==> c in s.barriers[v.func.b].held))
  }

  /** In `l`, an element of `open` comes after `c`. */
  predicate Behind(l: seq<Cid>, c: Cid, open: set<Cid>) {
    exists i, j :: 0 <= i < j < |l| && l[i] == c && l[j] in open
  }

  /**
   A callback from before the barrier has run, or will be found out: its worker
   is still to be posted on, or a completion is behind it.
   */
  predicate Covered(s: State, v: Barrier, c: Cid)
    requires c < |s.cbs|
  {
    s.cbs[c].ran == 0 ==>
      || s.cbs[c].at in v.todo
      || (s.cbs[c].at < |s.workers| && Behind(Line(s.workers[s.cbs[c].at]), c, v.open))
  }

  /** The completion `c` has decremented the count and is about to drop its reference. */
  predicate Putting(s: State, c: Cid) {
    c < |s.cbs| && s.cbs[c].at < |s.workers| && s.workers[s.cbs[c].at].pc.Put? && s.workers[s.cbs[c].at].batch != []
    && s.workers[s.cbs[c].at].batch[0] == c
  }

  predicate CountInv(s: State, b: Bid)
    requires b < |s.barriers|
  {
    var v := s.barriers[b];
    && v.count == |v.todo| + |v.open|
    && v.ref == |v.todo| + |v.held| + (if v.pc == Returned then 0 else 1)
    && (v.pc == Posting <==> s.mutex == ByBarrier(b)) && (v.pc != Posting ==> v.todo == {})
    && (v.pc == Leaving || v.pc == Returned ==> v.open == {})
    && (forall w :: w in v.todo ==> w < |s.workers| && s.workers[w].listed)
  }

  ghost predicate HeldInv(s: State, b: Bid)
    requires b < |s.barriers|
  {
    var v := s.barriers[b];
    && (forall c: Cid :: c in v.held ==> c < |s.cbs| && s.cbs[c].func == Complete(b) && s.cbs[c].ran == 0)
    && (forall c: Cid :: c in v.open <==> c in v.held && !Putting(s, c))
  }

  predicate CoverInv(s: State, b: Bid)
    requires b < |s.barriers|
  {
    s.barriers[b].start <= |s.cbs| && forall c :: 0 <= c < s.barriers[b].start ==> Covered(s, s.barriers[b], c)
  }

  ghost predicate BarrierInv(s: State, b: Bid)
    requires b < |s.barriers|
  {
    CountInv(s, b) && HeldInv(s, b) && CoverInv(s, b)
  }

  ghost predicate Inv(s: State) {
    && DEFAULT < |s.workers|
    && (s.mutex.ByBarrier? ==> s.mutex.b < |s.barriers|) && (s.mutex.ByFree? ==> s.mutex.w < |s.workers|)
    && (forall w :: 0 <= w < |s.workers| ==> WorkerInv(s, w) && LineInv(s, w))
    && (forall c :: 0 <= c < |s.cbs| ==> CallbackInv(s, c))
    && (forall b :: 0 <= b < |s.barriers| ==> BarrierInv(s, b))
  }

  lemma InitInv(s: State)
    requires Init(s)
    ensures Inv(s)
  {
  }

  // ---------- steps that move no callback ----------

  /** Every callback stays where it is in its line. */
  predicate SameLines(s: State, s': State) {
    && s'.cbs == s.cbs && |s.workers| <= |s'.workers| && s.begun <= s'.begun
    && (forall w :: 0 <= w < |s.workers| ==> Line(s'.workers[w]) == Line(s.workers[w]))
    && (forall w :: |s.workers| <= w < |s'.workers| ==> Line(s'.workers[w]) == [])
  }

  predicate SameBarriers(s: State, s': State) {
    && |s.barriers| <= |s'.barriers|
    && forall b :: 0 <= b < |s.barriers| ==>
         var v, v' := s.barriers[b], s'.barriers[b];
         v'.todo == v.todo && v'.open == v.open && v'.held == v.held && v'.start == v.start
  }

  lemma LinesKept(s: State, s': State)
    requires SameLines(s, s') && |s.barriers| <= |s'.barriers|
    requires forall b :: 0 <= b < |s.barriers| ==> s'.barriers[b].held == s.barriers[b].held
    requires forall w :: 0 <= w < |s.workers| ==> LineInv(s, w)
    requires forall c :: 0 <= c < |s.cbs| ==> CallbackInv(s, c)
    ensures forall w :: 0 <= w < |s'.workers| ==> LineInv(s', w)
    ensures forall c :: 0 <= c < |s'.cbs| ==> CallbackInv(s', c)
  {
    forall w | 0 <= w < |s'.workers|
      ensures LineInv(s', w)
    {
      if w < |s.workers| { assert LineInv(s, w); }
    }
    forall c | 0 <= c < |s'.cbs|
      ensures CallbackInv(s', c)
    {
      assert CallbackInv(s, c);
    }
  }

  lemma CoverKept(s: State, s': State, b: Bid)
    requires SameLines(s, s') && SameBarriers(s, s') && b < |s.barriers| && CoverInv(s, b)
    ensures CoverInv(s', b)
  {
    forall c | 0 <= c < s'.barriers[b].start
      ensures Covered(s', s'.barriers[b], c)
    {
      assert Covered(s, s.barriers[b], c);
    }
  }

  /** The step changes one worker only, and neither puts nor drops anything. */
  predicate OneWorker(s: State, s': State, w: Wid) {
    && w < |s.workers| == |s'.workers|
    && s' == s.(workers := s.workers[w := s'.workers[w]], mutex := s'.mutex, begun := s'.begun)
    && Line(s'.workers[w]) == Line(s.workers[w]) && s.begun <= s'.begun
    && ((s'.workers[w].pc == s.workers[w].pc && s'.workers[w].batch == s.workers[w].batch)
        || (!s.workers[w].pc.Put? && !s'.workers[w].pc.Put?))
  }

  lemma OneWorkerInv(s: State, s': State, w: Wid)
    requires Inv(s) && OneWorker(s, s', w) && WorkerInv(s', w)
    requires s'.workers[w].listed == s.workers[w].listed || s.mutex == ByFree(w)
    requires || s'.mutex == s.mutex
             || (s.mutex == Unlocked && s'.mutex == ByFree(w))
             || (s.mutex == ByFree(w) && s'.mutex == Unlocked)
    ensures Inv(s')
  {
    LinesKept(s, s');
    forall b | 0 <= b < |s.barriers|
      ensures BarrierInv(s', b)
    {
      assert BarrierInv(s, b);
      CoverKept(s, s', b);
      assert forall c: Cid :: Putting(s', c) == Putting(s, c);
    }
    forall u | 0 <= u < |s.workers| && u != w
      ensures WorkerInv(s', u)
    {
      assert WorkerInv(s, u);
    }
  }

  lemma SpliceInv(s: State, s': State, w: Wid)
    requires Inv(s) && Splice(s, s', w)
    ensures Inv(s')
  {
    assert WorkerInv(s, w);
    hide LineInv, CallbackInv, BarrierInv;
    assert Line(s'.workers[w]) == Line(s.workers[w]);
    OneWorkerInv(s, s', w);
  }

  lemma LoopInv(s: State, s': State, w: Wid)
    requires Inv(s) && (EndGp(s, s', w) || BatchEnd(s, s', w) || LoadStop(s, s', w))
    ensures Inv(s')
  {
    assert WorkerInv(s, w);
    hide LineInv, CallbackInv, BarrierInv;
    OneWorkerInv(s, s', w);
  }

  lemma BeginGpInv(s: State, s': State, w: Wid)
    requires Inv(s) && BeginGp(s, s', w)
    ensures Inv(s')
  {
    assert WorkerInv(s, w);
    var l := s.workers[w].batch;
    forall i | 0 <= i < |l| && l[i] < |s.cbs|
      ensures s.cbs[l[i]].stamp < s.begun + 1
    {
      assert CallbackInv(s, l[i]);
    }
    hide LineInv, CallbackInv, BarrierInv;
    OneWorkerInv(s, s', w);
  }

  lemma StopInv(s: State, s': State, w: Wid)
    requires Inv(s) && (Retire(s, s', w) || AskStop(s, s', w) || FreeLock(s, s', w) || FreeRelock(s, s', w))
    ensures Inv(s')
  {
    assert WorkerInv(s, w);
    hide LineInv, CallbackInv, BarrierInv;
    OneWorkerInv(s, s', w);
  }

  lemma TakeInv(s: State, s': State, w: Wid)
    requires Inv(s) && (FreeTest(s, s', w) || FreeTake(s, s', w) || FreeEnd(s, s', w))
    ensures Inv(s')
  {
    assert WorkerInv(s, w);
    hide LineInv, CallbackInv, BarrierInv;
    assert Line(s'.workers[w]) == Line(s.workers[w]);
    hide Line;
    OneWorkerInv(s, s', w);
  }

  lemma FreeInv(s: State, s': State, w: Wid)
    requires Inv(s) && (Retire(s, s', w) || AskStop(s, s', w) || FreeLock(s, s', w) || FreeTest(s, s', w)
                        || FreeRelock(s, s', w) || FreeTake(s, s', w) || FreeEnd(s, s', w))
    ensures Inv(s')
  {
    hide Inv, Retire, AskStop, FreeLock, FreeTest, FreeRelock, FreeTake, FreeEnd;
    if FreeTest(s, s', w) || FreeTake(s, s', w) || FreeEnd(s, s', w) { TakeInv(s, s', w); } else { StopInv(s, s', w); }
  }

  lemma CreateInv(s: State, s': State)
    requires Inv(s) && CreateWorker(s, s')
    ensures Inv(s')
  {
    LinesKept(s, s');
    forall b | 0 <= b < |s.barriers|
      ensures BarrierInv(s', b)
    {
      assert BarrierInv(s, b);
      CoverKept(s, s', b);
      assert forall c: Cid :: c < |s.cbs| ==> CallbackInv(s, c);
    }
    forall u | 0 <= u < |s'.workers|
      ensures WorkerInv(s', u)
    {
      if u < |s.workers| { assert WorkerInv(s, u); }
    }
  }

  // ---------- barrier steps ----------

  /** Only barrier `b` and the mutex change, not what it waits for. */
  lemma OneBarrierInv(s: State, s': State, b: Bid)
    requires Inv(s) && b < |s.barriers| == |s'.barriers| && SameBarriers(s, s') && CountInv(s', b)
    requires s' == s.(barriers := s.barriers[b := s'.barriers[b]], mutex := s'.mutex)
    requires s'.mutex == s.mutex || (s.mutex == ByBarrier(b) && s'.mutex == Unlocked)
    ensures Inv(s')
  {
    LinesKept(s, s');
    forall a | 0 <= a < |s.barriers|
      ensures BarrierInv(s', a)
    {
      assert BarrierInv(s, a);
      CoverKept(s, s', a);
    }
    forall u | 0 <= u < |s.workers|
      ensures WorkerInv(s', u)
    {
      assert WorkerInv(s, u);
    }
  }

  lemma WaitInv(s: State, s': State, b: Bid)
    requires Inv(s) && (PostEnd(s, s', b) || LoadCount(s, s', b) || Leave(s, s', b))
    ensures Inv(s')
  {
    assert BarrierInv(s, b);
    OneBarrierInv(s, s', b);
  }

  lemma StartInv(s: State, s': State)
    requires Inv(s) && BarrierStart(s, s')
    ensures Inv(s')
  {
    LinesKept(s, s');
    forall a | 0 <= a < |s'.barriers|
      ensures BarrierInv(s', a)
    {
      if a < |s.barriers| {
        assert BarrierInv(s, a);
        CoverKept(s, s', a);
      } else {
        StartCovers(s, s');
      }
    }
    forall u | 0 <= u < |s.workers|
      ensures WorkerInv(s', u)
    {
      assert WorkerInv(s, u);
    }
  }

  /** Every callback that has not run is at a listed worker. */
  lemma StartCovers(s: State, s': State)
    requires Inv(s) && BarrierStart(s, s')
    ensures BarrierInv(s', |s.barriers|)
  {
    var b := |s.barriers|;
    forall c | 0 <= c < |s.cbs|
      ensures Covered(s', s'.barriers[b], c)
    {
      assert CallbackInv(s, c);
      if s.cbs[c].ran == 0 { assert WorkerInv(s, s.cbs[c].at); }
    }
    assert s'.barriers[b].open == {};
  }

  // ---------- steps that move callbacks ----------

  lemma BehindMore(l: seq<Cid>, l': seq<Cid>, c: Cid, open: set<Cid>, open': set<Cid>)
    requires Behind(l, c, open) && open <= open'
    ensures Behind(l + l', c, open') && Behind(l' + l, c, open')
  {
    var i, j :| 0 <= i < j < |l| && l[i] == c && l[j] in open;
    assert (l + l')[i] == c && (l + l')[j] in open';
    assert (l' + l)[|l'| + i] == c && (l' + l)[|l'| + j] in open';
  }

  /** Taking the front away does not uncover what is behind it. */
  lemma BehindRest(l: seq<Cid>, c: Cid, open: set<Cid>, open': set<Cid>)
    requires Behind(l, c, open) && l[0] != c && open - {l[0]} <= open' && (forall i :: 0 < i < |l| ==> l[i] != l[0])
    ensures Behind(l[1..], c, open')
  {
    var i, j :| 0 <= i < j < |l| && l[i] == c && l[j] in open;
    assert l[1..][i - 1] == c && l[1..][j - 1] in open';
  }

  lemma BehindOpen(l: seq<Cid>, c: Cid, open: set<Cid>, n: Cid)
    requires Behind(l, c, open) && (forall j :: 0 < j < |l| ==> l[j] != n)
    ensures Behind(l, c, open - {n})
  {
    var i, j :| 0 <= i < j < |l| && l[i] == c && l[j] in open;
    assert l[j] in open - {n};
  }

  // enqueue

  lemma EnqueueLine(s: State, s': State, w: Wid, f: Func, u: Wid)
    requires w < |s.workers| && s'.(barriers := s.barriers) == Enqueued(s, w, f)
    requires u < |s.workers| && LineInv(s, u)
    ensures Line(s'.workers[u]) == Line(s.workers[u]) + (if u == w then [|s.cbs|] else []) && LineInv(s', u)
  {
  }

  lemma EnqueueCallbacks(s: State, s': State, w: Wid, f: Func)
    requires Inv(s) && w < |s.workers| && s'.(barriers := s.barriers) == Enqueued(s, w, f)
    requires |s'.barriers| == |s.barriers| && (f.Complete? ==> f.b < |s.barriers| && |s.cbs| in s'.barriers[f.b].held)
    requires forall b, c: Cid :: 0 <= b < |s.barriers| && c < |s.cbs| ==>
             (c in s'.barriers[b].held <==> c in s.barriers[b].held)
    ensures forall u :: 0 <= u < |s'.workers| ==> LineInv(s', u)
    ensures forall c :: 0 <= c < |s'.cbs| ==> CallbackInv(s', c)
  {
    hide LineInv, WorkerInv, BarrierInv;
    forall u | 0 <= u < |s'.workers|
      ensures LineInv(s', u) && Line(s'.workers[u]) == Line(s.workers[u]) + if u == w then [|s.cbs|] else []
    {
      EnqueueLine(s, s', w, f, u);
    }
    hide Line;
    forall c | 0 <= c < |s'.cbs|
      ensures CallbackInv(s', c)
    {
      if c < |s.cbs| {
        assert CallbackInv(s, c);
        assert s'.cbs[c] == s.cbs[c];
      } else {
        assert Line(s'.workers[w])[|Line(s.workers[w])|] == c;
      }
    }
  }

  lemma EnqueueWorkers(s: State, s': State, w: Wid, f: Func)
    requires Inv(s) && w < |s.workers| && s'.(barriers := s.barriers) == Enqueued(s, w, f)
    requires s.workers[w].free != Giving && s.workers[w].free != Deleting && s.workers[w].free != Freed
    ensures forall u :: 0 <= u < |s'.workers| ==> WorkerInv(s', u)
  {
    forall u | 0 <= u < |s'.workers|
      ensures WorkerInv(s', u)
    {
      assert WorkerInv(s, u) && LineInv(s, u);
      var l, b := Line(s.workers[u]), s.workers[u].batch;
      forall i | 0 <= i < |b|
        ensures b[i] < |s.cbs|
      {
        assert l[i] == b[i];
      }
    }
  }

  lemma EnqueueCover(s: State, s': State, w: Wid, f: Func, b: Bid)
    requires w < |s.workers| && s'.(barriers := s.barriers) == Enqueued(s, w, f)
    requires b < |s.barriers| == |s'.barriers| && CoverInv(s, b)
    requires s'.barriers[b].start == s.barriers[b].start && s.barriers[b].open <= s'.barriers[b].open
    requires forall u :: u in s.barriers[b].todo ==>
             u in s'.barriers[b].todo || (u == w && |s.cbs| in s'.barriers[b].open)
    requires forall c :: 0 <= c < |s.cbs| ==> CallbackInv(s, c)
    ensures CoverInv(s', b)
  {
    var l := Line(s.workers[w]);
    assert Line(s'.workers[w]) == l + [|s.cbs|];
    forall c | 0 <= c < s.barriers[b].start
      ensures Covered(s', s'.barriers[b], c)
    {
      assert Covered(s, s.barriers[b], c) && CallbackInv(s, c);
      if s.cbs[c].ran == 0 {
        var u := s.cbs[c].at;
        if u in s.barriers[b].todo {
          if u !in s'.barriers[b].todo {
            var i :| 0 <= i < |l| && l[i] == c;
            assert (l + [|s.cbs|])[i] == c && (l + [|s.cbs|])[|l|] in s'.barriers[b].open;
          }
        } else {
          BehindMore(Line(s.workers[u]), if u == w then [|s.cbs|] else [], c, s.barriers[b].open, s'.barriers[b].open);
          assert Line(s'.workers[u]) == Line(s.workers[u]) + if u == w then [|s.cbs|] else [];
        }
      }
    }
  }

  lemma EnqueuePutting(s: State, s': State, w: Wid, f: Func, c: Cid)
    requires Inv(s) && w < |s.workers| && s'.(barriers := s.barriers) == Enqueued(s, w, f)
    ensures Putting(s', c) == Putting(s, c)
  {
    if c == |s.cbs| { assert WorkerInv(s, w); }
  }

  lemma CallRcuInv(s: State, s': State, w: Wid)
    requires Inv(s) && CallRcu(s, s', w)
    ensures Inv(s')
  {
    assert WorkerInv(s, w);
    EnqueueCallbacks(s, s', w, User);
    EnqueueWorkers(s, s', w, User);
    forall b | 0 <= b < |s.barriers|
      ensures BarrierInv(s', b)
    {
      assert BarrierInv(s, b);
      EnqueueCover(s, s', w, User, b);
      forall c: Cid
        ensures Putting(s', c) == Putting(s, c)
      {
        EnqueuePutting(s, s', w, User, c);
      }
    }
  }

  lemma PostInv(s: State, s': State, b: Bid, w: Wid)
    requires Inv(s) && Post(s, s', b, w)
    ensures Inv(s')
  {
    assert BarrierInv(s, b) && WorkerInv(s, w);
    EnqueueCallbacks(s, s', w, Complete(b));
    EnqueueWorkers(s, s', w, Complete(b));
    forall a | 0 <= a < |s.barriers|
      ensures BarrierInv(s', a)
    {
      assert BarrierInv(s, a);
      EnqueueCover(s, s', w, Complete(b), a);
      forall c: Cid
        ensures Putting(s', c) == Putting(s, c)
      {
        EnqueuePutting(s, s', w, Complete(b), c);
      }
    }
  }

  // running the front callback

  predicate RunsFront(s: State, s': State, w: Wid) {
    && w < |s.workers| && s.workers[w].batch != [] && s.workers[w].batch[0] < |s.cbs|
    && (s.workers[w].pc.Invoke? || s.workers[w].pc.Put?)
    && |s'.barriers| == |s.barriers| && s'.(barriers := s.barriers) == RanFront(s, w, s.workers[w].pc.gp)
  }

  lemma FrontLine(s: State, s': State, w: Wid, u: Wid)
    requires RunsFront(s, s', w) && u < |s.workers| && LineInv(s, u) && LineInv(s, w)
    ensures LineInv(s', u) && Line(s.workers[w])[0] == s.workers[w].batch[0]
    ensures Line(s'.workers[u]) == if u == w then Line(s.workers[u])[1..] else Line(s.workers[u])
  {
    var c := s.workers[w].batch[0];
    assert Line(s.workers[w])[0] == c;
    assert Line(s'.workers[w]) == Line(s.workers[w])[1..];
  }

  lemma FrontCallback(s: State, s': State, w: Wid, c: Cid)
    requires RunsFront(s, s', w) && LineInv(s, w) && c < |s.cbs| && CallbackInv(s, c)
    requires s.cbs[c].func.Complete? && s.cbs[c].func.b < |s.barriers| ==>
               (c in s'.barriers[s.cbs[c].func.b].held <==>
                   c in s.barriers[s.cbs[c].func.b].held && c != s.workers[w].batch[0])
    ensures CallbackInv(s', c)
  {
    var l := Line(s.workers[w]);
    assert l[0] == s.workers[w].batch[0];
    assert Line(s'.workers[w]) == l[1..];
    if c in l && c != l[0] {
      var i :| 0 <= i < |l| && l[i] == c;
      assert l[1..][i - 1] == c;
    }
  }

  lemma FrontWorker(s: State, s': State, w: Wid, u: Wid)
    requires RunsFront(s, s', w) && u < |s.workers| && WorkerInv(s, u) && WorkerInv(s, w)
    ensures WorkerInv(s', u)
  {
    hide Line;
  }

  lemma FrontCover(s: State, s': State, w: Wid, b: Bid)
    requires RunsFront(s, s', w) && LineInv(s, w) && b < |s.barriers| && CoverInv(s, b)
    requires s'.barriers[b] == s.barriers[b]
             || s'.barriers[b] == s.barriers[b].(ref := s'.barriers[b].ref, held := s'.barriers[b].held)
    ensures CoverInv(s', b)
  {
    var l := Line(s.workers[w]);
    assert l[0] == s.workers[w].batch[0];
    assert Line(s'.workers[w]) == l[1..];
    forall c | 0 <= c < s.barriers[b].start
      ensures Covered(s', s'.barriers[b], c)
    {
      assert Covered(s, s.barriers[b], c);
      if s'.cbs[c].ran == 0 && s.cbs[c].at == w && w !in s.barriers[b].todo {
        BehindRest(l, c, s.barriers[b].open, s.barriers[b].open);
      }
    }
  }

  lemma FrontPutting(s: State, s': State, w: Wid, c: Cid)
    requires RunsFront(s, s', w) && LineInv(s, w) && c < |s.cbs| && CallbackInv(s, c)
    requires s.cbs[c].ran == 0 && c != s.workers[w].batch[0]
    ensures Putting(s', c) == Putting(s, c)
  {
  }

  lemma FrontInv(s: State, s': State, w: Wid)
    requires Inv(s) && RunsFront(s, s', w)
    requires forall b :: 0 <= b < |s.barriers| ==> CountInv(s', b) && HeldInv(s', b)
    requires forall b :: 0 <= b < |s.barriers| ==>
      s'.barriers[b] == s.barriers[b]
          || s'.barriers[b] == s.barriers[b].(ref := s'.barriers[b].ref, held := s'.barriers[b].held)
    requires forall b, c: Cid :: 0 <= b < |s.barriers| && c < |s.cbs| && s.cbs[c].func == Complete(b) ==>
               (c in s'.barriers[b].held <==> c in s.barriers[b].held && c != s.workers[w].batch[0])
    ensures Inv(s')
  {
    hide LineInv, CallbackInv, WorkerInv, HeldInv, CountInv, CoverInv;
    assert LineInv(s, w) && WorkerInv(s, w);
    forall u | 0 <= u < |s.workers|
      ensures LineInv(s', u) && WorkerInv(s', u)
    {
      FrontLine(s, s', w, u);
      FrontWorker(s, s', w, u);
    }
    forall c | 0 <= c < |s.cbs|
      ensures CallbackInv(s', c)
    {
      FrontCallback(s, s', w, c);
    }
    forall b | 0 <= b < |s.barriers|
      ensures BarrierInv(s', b)
    {
      assert BarrierInv(s, b);
      FrontCover(s, s', w, b);
    }
  }

  /** What barrier `a` holds after the front callback of `w` ran. */
  lemma FrontHeld(s: State, s': State, w: Wid, a: Bid)
    requires RunsFront(s, s', w) && LineInv(s, w) && a < |s.barriers| && HeldInv(s, a)
    requires forall c :: 0 <= c < |s.cbs| ==> CallbackInv(s, c)
    requires s.workers[w].batch[0] !in s.barriers[a].open
    requires s'.barriers[a].open == s.barriers[a].open
    requires s'.barriers[a].held == s.barriers[a].held - {s.workers[w].batch[0]}
    ensures HeldInv(s', a)
  {
    forall c: Cid | c in s'.barriers[a].held
      ensures c < |s.cbs| && s'.cbs[c] == s.cbs[c] && Putting(s', c) == Putting(s, c)
    {
      assert CallbackInv(s, c);
      FrontPutting(s, s', w, c);
    }
    hide Putting, CallbackInv, LineInv;
  }

  lemma UserHeld(s: State, s': State, w: Wid, b: Bid)
    requires Inv(s) && RunUser(s, s', w) && b < |s.barriers|
    ensures CountInv(s', b) && HeldInv(s', b)
  {
    hide WorkerInv, CoverInv, CallbackInv, LineInv, Putting;
    var n := s.workers[w].batch[0];
    assert BarrierInv(s, b) && LineInv(s, w);
    assert n !in s.barriers[b].held;
    assert s.barriers[b].held - {n} == s.barriers[b].held;
    FrontHeld(s, s', w, b);
  }

  lemma RunUserInv(s: State, s': State, w: Wid)
    requires Inv(s) && RunUser(s, s', w)
    ensures Inv(s')
  {
    forall b | 0 <= b < |s.barriers|
      ensures CountInv(s', b) && HeldInv(s', b)
    {
      UserHeld(s, s', w, b);
    }
    hide CountInv, HeldInv, CoverInv, WorkerInv, LineInv;
    FrontInv(s, s', w);
  }

  lemma DropCount(s: State, s': State, w: Wid, b: Bid)
    requires DropRef(s, s', w) && b < |s.barriers| && CountInv(s, b)
    requires b == s.cbs[s.workers[w].batch[0]].func.b ==> s.workers[w].batch[0] in s.barriers[b].held
    ensures CountInv(s', b)
  {
  }

  lemma DropHeld(s: State, s': State, w: Wid, b: Bid)
    requires Inv(s) && DropRef(s, s', w) && b < |s.barriers|
    ensures CountInv(s', b) && HeldInv(s', b)
  {
    hide WorkerInv, CoverInv, CountInv;
    var n := s.workers[w].batch[0];
    assert CallbackInv(s, n) && LineInv(s, w) && BarrierInv(s, b);
    assert Line(s.workers[w])[0] == n;
    assert Putting(s, n);
    assert b != s.cbs[n].func.b ==> s.barriers[b].held - {n} == s.barriers[b].held;
    DropCount(s, s', w, b);
    FrontHeld(s, s', w, b);
  }

  lemma DropRefInv(s: State, s': State, w: Wid)
    requires Inv(s) && DropRef(s, s', w)
    ensures Inv(s')
  {
    forall b | 0 <= b < |s.barriers|
      ensures CountInv(s', b) && HeldInv(s', b)
    {
      DropHeld(s, s', w, b);
    }
    var n := s.workers[w].batch[0];
    assert CallbackInv(s, n) && LineInv(s, w);
    hide CountInv, HeldInv, CoverInv, WorkerInv, LineInv;
    FrontInv(s, s', w);
  }

  lemma SubCover(s: State, s': State, w: Wid, b: Bid)
    requires SubCount(s, s', w) && LineInv(s, w) && b < |s.barriers| && CoverInv(s, b)
    requires forall u :: 0 <= u < |s.workers| ==> LineInv(s, u)
    ensures CoverInv(s', b)
  {
    var n := s.workers[w].batch[0];
    var l := Line(s.workers[w]);
    assert l[0] == n;
    forall c | 0 <= c < s.barriers[b].start
      ensures Covered(s', s'.barriers[b], c)
    {
      assert Covered(s, s.barriers[b], c);
      var u := s.cbs[c].at;
      if s.cbs[c].ran == 0 && u !in s.barriers[b].todo {
        assert LineInv(s, u);
        assert Line(s'.workers[u]) == Line(s.workers[u]);
        BehindOpen(Line(s.workers[u]), c, s.barriers[b].open, n);
      }
    }
  }

  lemma SubHeld(s: State, s': State, w: Wid, b: Bid)
    requires SubCount(s, s', w) && LineInv(s, w) && CallbackInv(s, s.workers[w].batch[0])
    requires b < |s.barriers| && HeldInv(s, b) && CountInv(s, b)
    ensures HeldInv(s', b) && CountInv(s', b)
  {
    var n := s.workers[w].batch[0];
    assert Line(s.workers[w])[0] == n;
    forall c: Cid
      ensures Putting(s', c) == (Putting(s, c) || c == n)
    {
    }
    assert !Putting(s, n);
    hide Putting;
  }

  lemma SubCountInv(s: State, s': State, w: Wid)
    requires Inv(s) && SubCount(s, s', w)
    ensures Inv(s')
  {
    hide LineInv, CallbackInv, CoverInv, HeldInv, CountInv;
    assert LineInv(s, w) && CallbackInv(s, s.workers[w].batch[0]);
    LinesKept(s, s');
    forall b | 0 <= b < |s.barriers|
      ensures BarrierInv(s', b)
    {
      assert BarrierInv(s, b);
      SubHeld(s, s', w, b);
      SubCover(s, s', w, b);
    }
    forall u | 0 <= u < |s.workers|
      ensures WorkerInv(s', u)
    {
      assert WorkerInv(s, u);
    }
  }

  // handing over to the default worker

  /** The lines after the batch of `w` was handed to the default worker. */
  lemma GivenLines(s: State, s': State, w: Wid, u: Wid)
    requires FreeGive(s, s', w) && WorkerInv(s, w) && u < |s.workers|
    ensures Line(s'.workers[u]) == if u == DEFAULT then Line(s.workers[u]) + Line(s.workers[w])
              else if u == w then [] else Line(s.workers[u])
    ensures forall c :: 0 <= c < |s.cbs| ==>
              s'.cbs[c] == if c in Line(s.workers[w]) then s.cbs[c].(at := DEFAULT) else s.cbs[c]
  {
    assert Line(s.workers[w]) == s.workers[w].batch;
    if u == DEFAULT {
      var v := s.workers[u];
      assert v.batch + (v.queue + s.workers[w].batch) == (v.batch + v.queue) + s.workers[w].batch;
    }
  }

  /** Nobody else's callbacks are in the line of `w`. */
  lemma Apart(cbs: seq<Callback>, k: seq<Cid>, u: Wid, l: seq<Cid>, w: Wid, i: nat)
    requires LineOk(cbs, k, u) && LineOk(cbs, l, w) && u != w && i < |k|
    ensures k[i] !in l
  {
  }

  lemma GiveOk(cbs: seq<Callback>, cbs': seq<Callback>, k: seq<Cid>, u: Wid, l: seq<Cid>, w: Wid)
    requires LineOk(cbs, k, u) && LineOk(cbs, l, w) && u != w && |cbs'| == |cbs|
    requires forall c :: 0 <= c < |cbs| ==> cbs'[c] == if c in l then cbs[c].(at := DEFAULT) else cbs[c]
    ensures LineOk(cbs', k, u) && (u == DEFAULT ==> LineOk(cbs', k + l, u))
  {
    forall i | 0 <= i < |k|
      ensures k[i] !in l
    {
      Apart(cbs, k, u, l, w, i);
    }
  }

  lemma GiveLine(s: State, s': State, w: Wid, u: Wid)
    requires FreeGive(s, s', w) && WorkerInv(s, w) && LineInv(s, w) && u < |s.workers| && LineInv(s, u)
    ensures LineInv(s', u)
    ensures Line(s'.workers[u]) == if u == DEFAULT then Line(s.workers[u]) + Line(s.workers[w])
              else if u == w then [] else Line(s.workers[u])
  {
    GivenLines(s, s', w, u);
    hide Line, MoveTo, WorkerInv;
    if u != w {
      GiveOk(s.cbs, s'.cbs, Line(s.workers[u]), u, Line(s.workers[w]), w);
      hide LineOk;
    }
  }

  lemma GiveCallback(s: State, s': State, w: Wid, c: Cid)
    requires FreeGive(s, s', w) && WorkerInv(s, w) && LineInv(s, w) && c < |s.cbs| && CallbackInv(s, c)
    ensures CallbackInv(s', c) && s'.cbs[c] == s.cbs[c].(at := s'.cbs[c].at)
    ensures s.cbs[c].ran == 0 ==> s'.cbs[c].at == if s.cbs[c].at == w then DEFAULT else s.cbs[c].at
  {
    GivenLines(s, s', w, s.cbs[c].at);
    GivenLines(s, s', w, DEFAULT);
    hide Line, MoveTo, WorkerInv;
  }

  lemma GiveCover(s: State, s': State, w: Wid, b: Bid)
    requires Inv(s) && FreeGive(s, s', w) && b < |s.barriers|
    ensures CoverInv(s', b)
  {
    assert WorkerInv(s, w) && BarrierInv(s, b);
    forall c | 0 <= c < s.barriers[b].start
      ensures Covered(s', s'.barriers[b], c)
    {
      assert Covered(s, s.barriers[b], c);
      GiveCallback(s, s', w, c);
      var u := s.cbs[c].at;
      if s.cbs[c].ran == 0 {
        GiveLine(s, s', w, u);
        GiveLine(s, s', w, DEFAULT);
        GiveBehind(s, s', w, b, c);
      }
    }
  }

  lemma GiveBehind(s: State, s': State, w: Wid, b: Bid, c: Cid)
    requires w < |s.workers| && b < |s.barriers| && DEFAULT < |s.workers|
    requires c < |s.cbs| && s.cbs[c].ran == 0 && s.cbs[c].at < |s.workers|
    requires Covered(s, s.barriers[b], c) && s.barriers[b].todo == {} && w != DEFAULT
    requires |s'.cbs| == |s.cbs| && s'.cbs[c].ran == 0 && |s'.workers| == |s.workers|
    requires s'.cbs[c].at == if s.cbs[c].at == w then DEFAULT else s.cbs[c].at
    requires Line(s'.workers[DEFAULT]) == Line(s.workers[DEFAULT]) + Line(s.workers[w])
    requires s.cbs[c].at != w && s.cbs[c].at != DEFAULT ==>
             Line(s'.workers[s.cbs[c].at]) == Line(s.workers[s.cbs[c].at])
    ensures Covered(s', s.barriers[b], c)
  {
    var u, open := s.cbs[c].at, s.barriers[b].open;
    if u == w {
      BehindMore(Line(s.workers[w]), Line(s.workers[DEFAULT]), c, open, open);
    } else if u == DEFAULT {
      BehindMore(Line(s.workers[DEFAULT]), Line(s.workers[w]), c, open, open);
    }
  }

  lemma GiveInv(s: State, s': State, w: Wid)
    requires Inv(s) && FreeGive(s, s', w)
    ensures Inv(s')
  {
    assert WorkerInv(s, w) && LineInv(s, w);
    forall u | 0 <= u < |s.workers|
      ensures LineInv(s', u)
    {
      GiveLine(s, s', w, u);
    }
    forall u | 0 <= u < |s.workers|
      ensures WorkerInv(s', u)
    {
      assert WorkerInv(s, u);
      GiveWorker(s, s', w, u);
    }
    forall c | 0 <= c < |s.cbs|
      ensures CallbackInv(s', c)
    {
      GiveCallback(s, s', w, c);
    }
    hide WorkerInv, LineInv, CallbackInv;
    forall b | 0 <= b < |s.barriers|
      ensures BarrierInv(s', b)
    {
      assert BarrierInv(s, b);
      GiveCover(s, s', w, b);
      GiveHeld(s, s', w, b);
    }
  }

  lemma GiveWorker(s: State, s': State, w: Wid, u: Wid)
    requires FreeGive(s, s', w) && WorkerInv(s, w) && u < |s.workers| && WorkerInv(s, u)
    ensures WorkerInv(s', u)
  {
  }

  lemma GiveHeld(s: State, s': State, w: Wid, b: Bid)
    requires Inv(s) && FreeGive(s, s', w) && b < |s.barriers|
    ensures HeldInv(s', b) && CountInv(s', b)
  {
    assert WorkerInv(s, w) && BarrierInv(s, b);
    forall c: Cid | c in s.barriers[b].held
      ensures c < |s'.cbs| && s'.cbs[c] == s.cbs[c].(at := s'.cbs[c].at) && Putting(s', c) == Putting(s, c)
    {
      GivePutting(s, s', w, c);
    }
    hide Putting;
  }

  lemma GivePutting(s: State, s': State, w: Wid, c: Cid)
    requires Inv(s) && FreeGive(s, s', w) && c < |s.cbs| && s.cbs[c].ran == 0
    ensures |s'.cbs| == |s.cbs| && s'.cbs[c] == s.cbs[c].(at := s'.cbs[c].at) && Putting(s', c) == Putting(s, c)
  {
    assert WorkerInv(s, w) && LineInv(s, DEFAULT) && WorkerInv(s, DEFAULT);
    GiveCallback(s, s', w, c);
    assert s.workers[w].pc == End;
    if s.cbs[c].at == w && s.workers[DEFAULT].batch != [] {
      assert Line(s.workers[DEFAULT])[0] == s.workers[DEFAULT].batch[0];
    }
  }

  lemma NextInv(s: State, s': State)
    requires Inv(s) && Next(s, s')
    ensures Inv(s')
  {
    hide Inv;
    if CreateWorker(s, s') {
      CreateInv(s, s');
    } else if BarrierStart(s, s') {
      StartInv(s, s');
    } else if exists w :: WorkerStep(s, s', w) || FreeStep(s, s', w) {
      var w :| WorkerStep(s, s', w) || FreeStep(s, s', w);
      if FreeGive(s, s', w) { GiveInv(s, s', w); }
      else if FreeStep(s, s', w) { FreeInv(s, s', w); }
      else if CallRcu(s, s', w) { CallRcuInv(s, s', w); }
      else if Splice(s, s', w) { SpliceInv(s, s', w); }
      else if BeginGp(s, s', w) { BeginGpInv(s, s', w); }
      else if RunUser(s, s', w) { RunUserInv(s, s', w); }
      else if SubCount(s, s', w) { SubCountInv(s, s', w); }
      else if DropRef(s, s', w) { DropRefInv(s, s', w); }
      else { LoopInv(s, s', w); }
    } else if exists b, w :: Post(s, s', b, w) {
      var b, w :| Post(s, s', b, w);
      PostInv(s, s', b, w);
    } else {
      var b :| PostEnd(s, s', b) || LoadCount(s, s', b) || Leave(s, s', b);
      WaitInv(s, s', b);
    }
  }

  lemma {:induction false} RunInv(r: seq<State>, i: nat)
    requires Run(r) && i < |r|
    ensures Inv(r[i])
  {
    hide Inv, Next;
    if i == 0 {
      InitInv(r[0]);
    } else {
      RunInv(r, i - 1);
      NextInv(r[i - 1], r[i]);
    }
  }

  // ---------- theorems ----------

  /**
   A callback that has not run waits once, at one worker that is not freed; one
   that has run waits nowhere and ran once.
   */
  lemma ExactlyOnce(r: seq<State>, i: nat, c: Cid)
    requires Run(r) && i < |r| && c < |r[i].cbs|
    ensures r[i].cbs[c].ran <= 1
    ensures forall w :: 0 <= w < |r[i].workers| ==>
              multiset(Line(r[i].workers[w]))[c] == if r[i].cbs[c].ran == 0 && r[i].cbs[c].at == w then 1 else 0
    ensures r[i].cbs[c].ran == 0 ==> r[i].cbs[c].at < |r[i].workers| && r[i].workers[r[i].cbs[c].at].free != Freed
  {
    RunInv(r, i);
    var s := r[i];
    assert CallbackInv(s, c);
    if s.cbs[c].ran == 0 { assert WorkerInv(s, s.cbs[c].at); }
    forall w | 0 <= w < |s.workers|
      ensures multiset(Line(s.workers[w]))[c] == if s.cbs[c].ran == 0 && s.cbs[c].at == w then 1 else 0
    {
      assert LineInv(s, w);
      CountOnce(Line(s.workers[w]), c);
    }
  }

  lemma CountOnce(l: seq<Cid>, c: Cid)
    requires forall i, j :: 0 <= i < j < |l| ==> l[i] != l[j]
    ensures multiset(l)[c] == if c in l then 1 else 0
  {
    if c in l {
      var i :| 0 <= i < |l| && l[i] == c;
      assert l == l[..i] + [c] + l[i + 1..];
      assert c !in l[..i] && c !in l[i + 1..];
    }
  }

  /** Callbacks, barriers and grace periods begun only grow in number, and what is new has been counted then. */
  predicate Counts(s: State, s': State) {
    && |s.cbs| <= |s'.cbs| && |s.barriers| <= |s'.barriers| && s.begun <= s'.begun
    && (forall c :: 0 <= c < |s.cbs| ==> s'.cbs[c].stamp == s.cbs[c].stamp)
    && (forall c :: |s.cbs| <= c < |s'.cbs| ==> s'.cbs[c].stamp == s.begun)
    && (forall b :: 0 <= b < |s.barriers| ==> s'.barriers[b].start == s.barriers[b].start)
    && (forall b :: |s.barriers| <= b < |s'.barriers| ==> s'.barriers[b].start == |s.cbs|)
  }

  lemma WorkerCounts(s: State, s': State, w: Wid)
    requires WorkerStep(s, s', w)
    ensures Counts(s, s')
  {
  }

  lemma FreeCounts(s: State, s': State, w: Wid)
    requires FreeStep(s, s', w)
    ensures Counts(s, s')
  {
  }

  lemma BarrierCounts(s: State, s': State)
    requires CreateWorker(s, s') || BarrierStart(s, s') || (exists b, w :: Post(s, s', b, w))
             || (exists b :: PostEnd(s, s', b) || LoadCount(s, s', b) || Leave(s, s', b))
    ensures Counts(s, s')
  {
  }

  lemma NextCounts(s: State, s': State)
    requires Next(s, s')
    ensures Counts(s, s')
  {
    hide WorkerStep, FreeStep, Counts;
    if w :| WorkerStep(s, s', w) || FreeStep(s, s', w) {
      if WorkerStep(s, s', w) { WorkerCounts(s, s', w); } else { FreeCounts(s, s', w); }
    } else {
      BarrierCounts(s, s');
    }
  }

  /** What is new since state `j` was queued, or started, after what there was in `j`. */
  lemma {:induction false} NewSince(r: seq<State>, j: nat, i: nat)
    requires Run(r) && j <= i < |r|
    ensures |r[j].cbs| <= |r[i].cbs| && r[j].begun <= r[i].begun && |r[j].barriers| <= |r[i].barriers|
    ensures forall c :: |r[j].cbs| <= c < |r[i].cbs| ==> r[j].begun <= r[i].cbs[c].stamp
    ensures forall b :: |r[j].barriers| <= b < |r[i].barriers| ==> |r[j].cbs| <= r[i].barriers[b].start
    decreases i
  {
    hide Next;
    if j < i {
      NewSince(r, j, i - 1);
      assert Next(r[i - 1], r[i - 1 + 1]);
      NextCounts(r[i - 1], r[i]);
    }
  }

  /**
   A step that runs callback `c` does so on a worker whose grace period began after
   `c` was queued: every state without `c` precedes the beginning.
   */
  lemma RunsAfterGracePeriod(r: seq<State>, i: nat, w: Wid)
    requires Run(r) && i < |r| && w < |r[i].workers| && r[i].workers[w].batch != []
    requires r[i].workers[w].pc.Invoke? || r[i].workers[w].pc.Put?
    ensures var c := r[i].workers[w].batch[0];
            && c < |r[i].cbs| && r[i].cbs[c].ran == 0 && r[i].cbs[c].stamp < r[i].workers[w].pc.gp <= r[i].begun
            && forall j :: 0 <= j <= i && |r[j].cbs| <= c ==> r[j].begun < r[i].workers[w].pc.gp
  {
    hide Next;
    RunInv(r, i);
    assert WorkerInv(r[i], w) && LineInv(r[i], w);
    var c := r[i].workers[w].batch[0];
    assert Line(r[i].workers[w])[0] == c;
    forall j | 0 <= j <= i && |r[j].cbs| <= c
      ensures r[j].begun <= r[i].cbs[c].stamp
    {
      NewSince(r, j, i);
    }
  }

  /** An `rcu_barrier` that had not begun in state `j` leaves only when every callback there was in `j` has run. */
  lemma BarrierWaits(r: seq<State>, j: nat, i: nat, b: Bid, c: Cid)
    requires Run(r) && j <= i < |r| && |r[j].barriers| <= b < |r[i].barriers| && c < |r[j].cbs|
    requires r[i].barriers[b].pc == Leaving || r[i].barriers[b].pc == Returned
    ensures c < |r[i].cbs| && r[i].cbs[c].ran == 1
  {
    hide Next;
    RunInv(r, i);
    NewSince(r, j, i);
    var s := r[i];
    assert BarrierInv(s, b) && CallbackInv(s, c);
    assert Covered(s, s.barriers[b], c);
  }

  /**
   The completion is not freed while its barrier or a completion callback will
   still use it; in the end it is freed.
   */
  lemma CompletionKeptWhileUsed(r: seq<State>, i: nat, b: Bid)
    requires Run(r) && i < |r| && b < |r[i].barriers|
    ensures r[i].barriers[b].pc != Returned ==> r[i].barriers[b].ref > 0
    ensures forall c :: 0 <= c < |r[i].cbs| && r[i].cbs[c].func == Complete(b) && r[i].cbs[c].ran == 0 ==>
              r[i].barriers[b].ref > 0
    ensures r[i].barriers[b].pc == Returned ==>
              (forall c :: 0 <= c < |r[i].cbs| && r[i].cbs[c].func == Complete(b) ==> r[i].cbs[c].ran == 1) ==>
                  r[i].barriers[b].ref == 0
  {
    RunInv(r, i);
    var s := r[i];
    assert BarrierInv(s, b);
    forall c | 0 <= c < |s.cbs| && s.cbs[c].func == Complete(b) && s.cbs[c].ran == 0
      ensures s.barriers[b].ref > 0
    {
      assert CallbackInv(s, c);
      assert c in s.barriers[b].held;
    }
    if forall c :: 0 <= c < |s.cbs| && s.cbs[c].func == Complete(b) ==> s.cbs[c].ran == 1 {
      assert s.barriers[b].held == {};
    }
  }

  /** A freed worker has no callback left, and the default worker is never freed. */
  lemma FreedWorkerIsEmpty(r: seq<State>, i: nat, w: Wid)
    requires Run(r) && i < |r| && w < |r[i].workers| && r[i].workers[w].free == Freed
    ensures w != DEFAULT && Line(r[i].workers[w]) == [] && !r[i].workers[w].listed
  {
    RunInv(r, i);
    assert WorkerInv(r[i], w);
  }
}
