/**
 Batching of concurrent `synchronize_rcu` callers. Each call pushes its wait
 node on a wait-free stack; the call that finds the stack empty leads a grace
 period for everybody who joined before it popped the stack, and then wakes
 the others. A call is identified with its wait node, which lives on the
 caller's stack: once the call has returned, that memory is gone.
 */
module GpBatching {

  /** Calls are numbered in the order of their pushes. */
  type Id = nat

  // struct cds_wfs_node *: NULL, CDS_WFS_END, or a node
  datatype Ptr = Null | End | At(id: Id)

  // enum urcu_wait_state; URCU_WAIT_WAITING is the empty set
  datatype Bit = Wakeup | Running | Teardown

  /**
   `Pushed`: between the xchg and the store of `_cds_wfs_push`. `Lead` to `Gp`:
   the leader up to the end of its grace period, `Gp` holding the popped list.
   `Fetch` to `Tear`: the leader in `urcu_wake_all_waiters`. `Wait` to
   `AwaitTear`: a follower in `urcu_adaptative_busy_wait`.
   */
  datatype Pc =
    | Pushed(prior: Ptr)
    | Lead | WantLock | Locked
    | Gp(gp: nat, iter: Ptr)
    | Fetch(gp: nat, iter: Ptr)
    | Check(gp: nat, node: Id, nxt: Ptr)
    | Wake(gp: nat, node: Id, nxt: Ptr)
    | LoadRun(gp: nat, node: Id, nxt: Ptr)
    | FutexWake(gp: nat, node: Id, nxt: Ptr)
    | Tear(gp: nat, node: Id, nxt: Ptr)
    | Wait | Asleep | GoRun | AwaitTear
    | Returned

  /**
   `next` and `state` are the wait node. The rest are records for the proof: the
   leader of the batch, the number of grace periods begun before the push, and
   the one that released the call.
   */
  datatype Call = Call(pc: Pc, next: Ptr, state: set<Bit>, lead: Id, pushed: nat, served: nat)

  /** Grace periods are numbered from 1; `begun` and `ended` are the last ones. */
  datatype State = State(head: Ptr, calls: seq<Call>, lock: Ptr, begun: nat, ended: nat)

  predicate Init(s: State) {
    s.head == End && s.calls == [] && s.lock == Null && s.begun == 0 && s.ended == 0
  }

  // ---------- steps ----------

  function Set(s: State, c: Id, call: Call): State
    requires c < |s.calls|
  {
    s.(calls := s.calls[c := call])
  }

  function Go(s: State, c: Id, pc: Pc): State
    requires c < |s.calls|
  {
    Set(s, c, s.calls[c].(pc := pc))
  }

  /** A new call and the xchg of its `_cds_wfs_push`. */
  predicate Push(s: State, s': State) {
    && (s.head.At? ==> s.head.id < |s.calls|)
    && var c := |s.calls|;
    && var lead := if s.head.At? then s.calls[s.head.id].lead else c;
    && s' == s.(head := At(c), calls := s.calls + [Call(Pushed(s.head), Null, {}, lead, s.begun, 0)])
  }

  /** The store that links the node; the call leads if the stack was empty. */
  predicate LinkNext(s: State, s': State, c: Id) {
    && c < |s.calls| && s.calls[c].pc.Pushed?
    && var prior := s.calls[c].pc.prior;
    && s' == Set(s, c, s.calls[c].(next := prior, pc := if prior == End then Lead else Wait))
  }

  predicate SetRunning(s: State, s': State, c: Id) {
    && c < |s.calls| && s.calls[c].pc.Lead?
    && s' == Set(s, c, s.calls[c].(state := {Running}, pc := WantLock))
  }

  predicate TakeLock(s: State, s': State, c: Id) {
    && c < |s.calls| && s.calls[c].pc.WantLock? && s.lock == Null
    && s' == Go(s, c, Locked).(lock := At(c))
  }

  /** `urcu_move_waiters`, after which the grace period begins. */
  predicate PopAll(s: State, s': State, c: Id) {
    && c < |s.calls| && s.calls[c].pc.Locked?
    && s' == Go(s, c, Gp(s.begun + 1, s.head)).(head := End, begun := s.begun + 1)
  }

  /** The grace period ends and the lock is released. */
  predicate EndGp(s: State, s': State, c: Id) {
    && c < |s.calls| && s.calls[c].pc.Gp?
    && s' == Go(s, c, Fetch(s.calls[c].pc.gp, s.calls[c].pc.iter)).(lock := Null, ended := s.calls[c].pc.gp)
  }

  /**
   Load the next pointer of the current node before doing anything to it;
   `cds_wfs_next_blocking` waits for it to be linked.
   */
  predicate FetchNext(s: State, s': State, c: Id) {
    && c < |s.calls| && s.calls[c].pc.Fetch? && s.calls[c].pc.iter.At?
    && var w := s.calls[c].pc.iter.id;
    && w < |s.calls| && s.calls[w].next != Null
    && s' == Go(s, c, Check(s.calls[c].pc.gp, w, s.calls[w].next))
  }

  predicate WakeDone(s: State, s': State, c: Id) {
    && c < |s.calls| && s.calls[c].pc.Fetch? && s.calls[c].pc.iter.End?
    && s' == Set(s, c, s.calls[c].(pc := Returned, served := s.calls[c].pc.gp))
  }

  /** Don't wake already running threads. */
  predicate CheckRunning(s: State, s': State, c: Id) {
    && c < |s.calls| && s.calls[c].pc.Check?
    && var pc := s.calls[c].pc;
    && pc.node < |s.calls|
    && s' == Go(s, c, if Running in s.calls[pc.node].state then Fetch(pc.gp, pc.nxt) else Wake(pc.gp, pc.node, pc.nxt))
  }

  // urcu_adaptative_wake_up

  predicate StoreWakeup(s: State, s': State, c: Id) {
    && c < |s.calls| && s.calls[c].pc.Wake?
    && var pc := s.calls[c].pc;
    && var w := pc.node;
    && w < |s.calls| && w != c
    && s' == Go(Set(s, w, s.calls[w].(state := {Wakeup}, served := pc.gp)), c, LoadRun(pc.gp, w, pc.nxt))
  }

  predicate LoadRunning(s: State, s': State, c: Id) {
    && c < |s.calls| && s.calls[c].pc.LoadRun?
    && var pc := s.calls[c].pc;
    && pc.node < |s.calls|
    && s' == Go(s, c, if Running in s.calls[pc.node].state then Tear(pc.gp, pc.node, pc.nxt)
                      else FutexWake(pc.gp, pc.node, pc.nxt))
  }

  predicate CallFutexWake(s: State, s': State, c: Id) {
    && c < |s.calls| && s.calls[c].pc.FutexWake?
    && var pc := s.calls[c].pc;
    && var w := pc.node;
    && w < |s.calls| && w != c
    && s' == Go(Go(s, w, if s.calls[w].pc.Asleep? then Wait else s.calls[w].pc), c, Tear(pc.gp, w, pc.nxt))
  }

  predicate SetTeardown(s: State, s': State, c: Id) {
    && c < |s.calls| && s.calls[c].pc.Tear?
    && var pc := s.calls[c].pc;
    && var w := pc.node;
    && w < |s.calls| && w != c
    && s' == Go(Set(s, w, s.calls[w].(state := s.calls[w].state + {Teardown})), c, Fetch(pc.gp, pc.nxt))
  }

  // urcu_adaptative_busy_wait

  predicate SeeState(s: State, s': State, c: Id) {
    && c < |s.calls| && s.calls[c].pc.Wait? && s.calls[c].state != {}
    && s' == Go(s, c, GoRun)
  }

  /** FUTEX_WAIT */
  predicate Sleep(s: State, s': State, c: Id) {
    && c < |s.calls| && s.calls[c].pc.Wait? && s.calls[c].state == {}
    && s' == Go(s, c, Asleep)
  }

  predicate WakeSpuriously(s: State, s': State, c: Id) {
    c < |s.calls| && s.calls[c].pc.Asleep? && s' == Go(s, c, Wait)
  }

  predicate OrRunning(s: State, s': State, c: Id) {
    && c < |s.calls| && s.calls[c].pc.GoRun?
    && s' == Set(s, c, s.calls[c].(state := s.calls[c].state + {Running}, pc := AwaitTear))
  }

  predicate SeeTeardown(s: State, s': State, c: Id) {
    && c < |s.calls| && s.calls[c].pc.AwaitTear? && Teardown in s.calls[c].state
    && s' == Go(s, c, Returned)
  }

  predicate JoinStep(s: State, s': State, c: Id) {
    || LinkNext(s, s', c) || SeeState(s, s', c) || Sleep(s, s', c) || WakeSpuriously(s, s', c)
    || OrRunning(s, s', c) || SeeTeardown(s, s', c)
  }

  predicate LeadStep(s: State, s': State, c: Id) {
    || SetRunning(s, s', c) || TakeLock(s, s', c) || PopAll(s, s', c) || EndGp(s, s', c)
    || FetchNext(s, s', c) || WakeDone(s, s', c) || CheckRunning(s, s', c) || StoreWakeup(s, s', c)
    || LoadRunning(s, s', c) || CallFutexWake(s, s', c) || SetTeardown(s, s', c)
  }

  ghost predicate Next(s: State, s': State) {
    Push(s, s') || exists c :: JoinStep(s, s', c) || LeadStep(s, s', c)
  }

  ghost predicate Run(r: seq<State>) {
    && |r| > 0 && Init(r[0])
    && forall i :: 0 <= i < |r| - 1 ==> Next(r[i], r[i + 1])
  }

  // ---------- the invariant ----------

  predicate IsLeader(s: State, c: Id) { c < |s.calls| && s.calls[c].lead == c }

  /** A leader that has not popped the stack yet. */
  predicate Unpopped(pc: Pc) { pc.Lead? || pc.WantLock? || pc.Locked? || pc == Pushed(End) }

  predicate Waking(pc: Pc) {
    pc.Gp? || pc.Fetch? || pc.Check? || pc.Wake? || pc.LoadRun? || pc.FutexWake? || pc.Tear?
  }

  predicate AtNode(pc: Pc) { pc.Check? || pc.Wake? || pc.LoadRun? || pc.FutexWake? || pc.Tear? }

  /** The node below `c`, for good: the push before it, or none for a leader. */
  function Below(s: State, c: Id): Ptr
    requires c < |s.calls|
  {
    if s.calls[c].lead == c || c == 0 then End else At(c - 1)
  }

  /** How far the leader `pc` of a batch is with the call `d` of its batch. */
  datatype Stage = Pending | Waked | Released

  function StageOf(pc: Pc, d: Id): Stage {
    if Unpopped(pc) || pc.Gp? then Pending
    else if pc.Fetch? then (if pc.iter.At? && d <= pc.iter.id then Pending else Released)
    else if AtNode(pc) then
      (if d > pc.node then Released else if d == pc.node && !pc.Check? && !pc.Wake? then Waked else Pending)
    else Released
  }

  predicate LeaderInv(s: State, c: Id)
    requires c < |s.calls|
  {
    var call := s.calls[c];
    && (Unpopped(call.pc) || Waking(call.pc) || call.pc.Returned?)
    && (call.pc.Pushed? || call.pc.Lead? ==> call.state == {})
    && (!call.pc.Pushed? && !call.pc.Lead? ==> call.state == {Running})
    && (Unpopped(call.pc) ==> s.head.At? && s.calls[|s.calls| - 1].lead == c)
    && (call.pc.Locked? ==> s.lock == At(c) && s.begun == s.ended)
    && (call.pc.Gp? ==> s.lock == At(c) && call.pc.gp == s.begun == s.ended + 1 && call.pc.iter.At?)
    && (Waking(call.pc) ==> call.pushed < call.pc.gp && (call.pc.Gp? || call.pc.gp <= s.ended))
    && ((call.pc.Gp? || call.pc.Fetch?) && call.pc.iter.At? ==>
          call.pc.iter.id < |s.calls| && s.calls[call.pc.iter.id].lead == c)
    && (call.pc.Fetch? ==> call.pc.iter != Null)
    && (AtNode(call.pc) ==>
          && call.pc.node < |s.calls| && s.calls[call.pc.node].lead == c
          && call.pc.nxt == Below(s, call.pc.node) && !s.calls[call.pc.node].pc.Pushed?)
    && (AtNode(call.pc) && !call.pc.Check? ==> call.pc.node != c)
    && (call.pc.Returned? ==> call.pushed < call.served <= s.ended)
  }

  predicate FollowerInv(s: State, d: Id)
    requires d < |s.calls|
  {
    var call := s.calls[d];
    && call.lead < |s.calls|
    && var pc := s.calls[call.lead].pc;
    match StageOf(pc, d)
    case Pending =>
      && ((call.pc.Pushed? && call.pc.prior.At?) || call.pc.Wait? || call.pc.Asleep?) && call.state == {}
      && (Waking(pc) ==> call.pushed < pc.gp) && (pc.Gp? ==> pc.iter.At? && d <= pc.iter.id)
    case Waked =>
      && (call.pc.Wait? || call.pc.Asleep? || call.pc.GoRun? || call.pc.AwaitTear?)
      && (call.pc.Asleep? ==> !pc.Tear?) && (Running in call.state ==> call.pc.AwaitTear?)
      && Wakeup in call.state && Teardown !in call.state && call.pushed < call.served <= s.ended
    case Released =>
      && (call.pc.Wait? || call.pc.GoRun? || call.pc.AwaitTear? || call.pc.Returned?)
      && Wakeup in call.state && Teardown in call.state && call.pushed < call.served <= s.ended
  }

  /** A batch is a run of consecutive pushes, each linked to the one before. */
  predicate Shape(s: State, c: Id)
    requires c < |s.calls|
  {
    var call := s.calls[c];
    && call.lead <= c && s.calls[call.lead].lead == call.lead
    && (call.lead != c ==> s.calls[c - 1].lead == call.lead)
    && (call.pc.Pushed? ==> call.next == Null && call.pc.prior == Below(s, c))
    && (!call.pc.Pushed? ==> call.next == Below(s, c))
    && call.pushed <= s.begun
  }

  predicate CallInv(s: State, c: Id)
    requires c < |s.calls|
  {
    Shape(s, c) && if s.calls[c].lead == c then LeaderInv(s, c) else FollowerInv(s, c)
  }

  /** The leader of the newest call has not popped the stack. */
  predicate LeadsLast(s: State)
    requires |s.calls| > 0
  {
    s.calls[|s.calls| - 1].lead < |s.calls| && Unpopped(s.calls[s.calls[|s.calls| - 1].lead].pc)
  }

  predicate GlobalInv(s: State) {
    && s.ended <= s.begun <= s.ended + 1
    && (s.head == End || (s.head.At? && |s.calls| > 0 && s.head.id == |s.calls| - 1 && LeadsLast(s)))
    && (s.lock == Null ==> s.begun == s.ended)
    && (s.lock != Null ==>
          && s.lock.At? && IsLeader(s, s.lock.id)
          && (s.calls[s.lock.id].pc.Locked? || s.calls[s.lock.id].pc.Gp?))
  }

  predicate Inv(s: State) {
    GlobalInv(s) && forall c :: 0 <= c < |s.calls| ==> CallInv(s, c)
  }

  lemma InitInv(s: State)
    requires Init(s)
    ensures Inv(s)
  {
  }

  // ---------- frames ----------

  /** No call joins or changes its batch, and grace periods only advance. */
  predicate SameShape(s: State, s': State) {
    && |s'.calls| == |s.calls| && s.begun <= s'.begun && s.ended <= s'.ended
    && forall i :: 0 <= i < |s.calls| ==> s'.calls[i].lead == s.calls[i].lead && s'.calls[i].pushed == s.calls[i].pushed
  }

  /** The call keeps its link, or has just stored it. */
  predicate LinkKept(a: Call, b: Call) {
    || (a.pc.Pushed? && !b.pc.Pushed? && b.next == a.pc.prior)
    || (!a.pc.Pushed? && !b.pc.Pushed? && b.next == a.next)
    || a == b
  }

  lemma ShapeKept(s: State, s': State, d: Id)
    requires d < |s.calls| && Shape(s, d) && SameShape(s, s') && LinkKept(s.calls[d], s'.calls[d])
    ensures Shape(s', d)
  {
  }

  /** What a leader that does not move relies on. */
  predicate LeaderFrame(s: State, s': State, d: Id)
    requires d < |s.calls| == |s'.calls|
  {
    var pc := s.calls[d].pc;
    && s'.calls[d] == s.calls[d]
    && (Unpopped(pc) ==> s'.head == s.head)
    && (pc.Locked? || pc.Gp? ==> s'.lock == s.lock && s'.begun == s.begun && s'.ended == s.ended)
    && (AtNode(pc) && pc.node < |s.calls| ==> s'.calls[pc.node].pc.Pushed? ==> s.calls[pc.node].pc.Pushed?)
  }

  lemma LeaderKept(s: State, s': State, d: Id)
    requires SameShape(s, s') && d < |s.calls| && LeaderInv(s, d) && LeaderFrame(s, s', d)
    ensures LeaderInv(s', d)
  {
  }

  predicate FollowerFrame(s: State, s': State, d: Id)
    requires d < |s.calls| == |s'.calls|
  {
    && s'.calls[d] == s.calls[d]
    && (s.calls[d].lead < |s.calls| ==> s'.calls[s.calls[d].lead].pc == s.calls[s.calls[d].lead].pc)
  }

  lemma FollowerKept(s: State, s': State, d: Id)
    requires SameShape(s, s') && d < |s.calls| && FollowerInv(s, d) && FollowerFrame(s, s', d)
    ensures FollowerInv(s', d)
  {
  }

  predicate Role(s: State, d: Id)
    requires d < |s.calls|
  {
    if s.calls[d].lead == d then LeaderInv(s, d) else FollowerInv(s, d)
  }

  /** The call is not involved in the step. */
  predicate Aside(s: State, s': State, d: Id)
    requires d < |s.calls| == |s'.calls|
  {
    if s.calls[d].lead == d then LeaderFrame(s, s', d) else FollowerFrame(s, s', d)
  }

  /** A step keeps the invariant if each call is aside or is accounted for. */
  lemma StepInv(s: State, s': State)
    requires Inv(s) && SameShape(s, s') && GlobalInv(s')
    requires forall d :: 0 <= d < |s.calls| ==> LinkKept(s.calls[d], s'.calls[d]) && (Aside(s, s', d) || Role(s', d))
    ensures Inv(s')
  {
    hide LeaderInv, FollowerInv, LeaderFrame, FollowerFrame, LinkKept, GlobalInv;
    forall d | 0 <= d < |s'.calls|
      ensures CallInv(s', d)
    {
      assert CallInv(s, d);
      ShapeKept(s, s', d);
      if Aside(s, s', d) {
        if s.calls[d].lead == d { LeaderKept(s, s', d); } else { FollowerKept(s, s', d); }
      }
    }
  }

  lemma PushInv(s: State, s': State)
    requires Inv(s) && Push(s, s')
    ensures Inv(s')
  {
    forall d | 0 <= d < |s'.calls|
      ensures CallInv(s', d)
    {
      if d < |s.calls| { PushKept(s, s', d); } else { PushNew(s, s'); }
    }
  }

  lemma PushKept(s: State, s': State, d: Id)
    requires GlobalInv(s) && Push(s, s') && d < |s.calls| && CallInv(s, d)
    ensures CallInv(s', d)
  {
  }

  lemma PushNew(s: State, s': State)
    requires Inv(s) && Push(s, s')
    ensures CallInv(s', |s.calls|) && GlobalInv(s')
  {
    if s.head.At? { assert CallInv(s, s.head.id); assert CallInv(s, s.calls[s.head.id].lead); }
  }

  /** The two program points are alike for the stack and for the lock. */
  predicate SamePhase(a: Pc, b: Pc) {
    Unpopped(a) == Unpopped(b) && (a.Locked? || a.Gp?) == (b.Locked? || b.Gp?)
  }

  /** Stack, lock and grace periods are as before, and so are all calls as far as these go. */
  predicate Quiet(s: State, s': State) {
    && SameShape(s, s') && s'.head == s.head && s'.lock == s.lock && s'.begun == s.begun && s'.ended == s.ended
    && forall d :: 0 <= d < |s.calls| ==> SamePhase(s.calls[d].pc, s'.calls[d].pc)
  }

  lemma GlobalKept(s: State, s': State)
    requires GlobalInv(s) && Quiet(s, s')
    ensures GlobalInv(s')
  {
  }

  /** The call whose node the leader `c` is at, or else the leader of `c`. */
  function Peer(s: State, c: Id): Id
    requires c < |s.calls|
  {
    var pc := s.calls[c].pc;
    if pc.Fetch? && pc.iter.At? then pc.iter.id else if AtNode(pc) then pc.node else s.calls[c].lead
  }

  predicate Known(s: State, c: Id) {
    c < |s.calls| && Peer(s, c) < |s.calls| && CallInv(s, c) && CallInv(s, Peer(s, c))
  }

  lemma PeerKnown(s: State, c: Id)
    requires Inv(s) && c < |s.calls|
    ensures Known(s, c)
  {
    assert CallInv(s, c);
  }

  /** The call `d` other than `c` has `c` for its leader. */
  predicate Follows(s: State, c: Id, d: Id) {
    c < |s.calls| && d < |s.calls| && d != c && s.calls[d].lead == c && CallInv(s, d)
  }

  /** It has another leader. */
  predicate Stranger(s: State, c: Id, d: Id) {
    c < |s.calls| && d < |s.calls| && d != c && s.calls[d].lead != c && CallInv(s, d)
  }

  // what a follower does

  lemma JoinQuiet(s: State, s': State, c: Id)
    requires JoinStep(s, s', c) && CallInv(s, c)
    ensures Quiet(s, s')
  {
  }

  lemma JoinSelf(s: State, s': State, c: Id)
    requires JoinStep(s, s', c) && SameShape(s, s') && Known(s, c)
    ensures LinkKept(s.calls[c], s'.calls[c]) && Role(s', c)
  {
  }

  lemma JoinFollower(s: State, s': State, c: Id, d: Id)
    requires JoinStep(s, s', c) && SameShape(s, s') && Known(s, c) && Follows(s, c, d)
    ensures s'.calls[d] == s.calls[d] && Role(s', d)
  {
  }

  lemma JoinOther(s: State, s': State, c: Id, d: Id)
    requires JoinStep(s, s', c) && SameShape(s, s') && Known(s, c) && Stranger(s, c, d)
    ensures s'.calls[d] == s.calls[d] && Aside(s, s', d)
  {
  }

  lemma JoinInv(s: State, s': State, c: Id)
    requires Inv(s) && JoinStep(s, s', c)
    ensures Inv(s')
  {
    hide LeaderInv, FollowerInv, Shape, LeaderFrame, FollowerFrame, GlobalInv, Aside, Role, Peer;
    PeerKnown(s, c);
    JoinQuiet(s, s', c);
    forall d | 0 <= d < |s.calls|
      ensures LinkKept(s.calls[d], s'.calls[d]) && (Aside(s, s', d) || Role(s', d))
    {
      if d == c {
        JoinSelf(s, s', c);
      } else if s.calls[d].lead == c {
        JoinFollower(s, s', c, d);
      } else {
        JoinOther(s, s', c, d);
      }
    }
    GlobalKept(s, s');
    StepInv(s, s');
  }

  // what a leader does up to its grace period

  /** Before the grace period. */
  predicate LeadMove(s: State, s': State, c: Id) {
    SetRunning(s, s', c) || TakeLock(s, s', c)
  }

  lemma LeadGlobal(s: State, s': State, c: Id)
    requires LeadMove(s, s', c) && GlobalInv(s) && CallInv(s, c)
    ensures SameShape(s, s') && GlobalInv(s')
  {
  }

  lemma LeadKept(s: State, s': State, c: Id, d: Id)
    requires LeadMove(s, s', c) && SameShape(s, s') && GlobalInv(s) && CallInv(s, c)
    requires d < |s.calls| && CallInv(s, d)
    ensures LinkKept(s.calls[d], s'.calls[d]) && (Aside(s, s', d) || Role(s', d))
  {
    if d == c {
    } else if s.calls[d].lead == c {
    } else {
      assert s'.calls[d] == s.calls[d];
    }
  }

  lemma LeadInv(s: State, s': State, c: Id)
    requires Inv(s) && LeadMove(s, s', c)
    ensures Inv(s')
  {
    assert CallInv(s, c);
    LeadGlobal(s, s', c);
    forall d | 0 <= d < |s.calls|
      ensures LinkKept(s.calls[d], s'.calls[d]) && (Aside(s, s', d) || Role(s', d))
    {
      LeadKept(s, s', c, d);
    }
    StepInv(s, s');
  }

  /** Around the grace period. */
  predicate GpMove(s: State, s': State, c: Id) {
    PopAll(s, s', c) || EndGp(s, s', c)
  }

  lemma GpGlobal(s: State, s': State, c: Id)
    requires GpMove(s, s', c) && GlobalInv(s) && CallInv(s, c)
    ensures SameShape(s, s') && GlobalInv(s')
  {
  }

  lemma GpKept(s: State, s': State, c: Id, d: Id)
    requires GpMove(s, s', c) && SameShape(s, s') && GlobalInv(s) && CallInv(s, c)
    requires d < |s.calls| && CallInv(s, d)
    ensures LinkKept(s.calls[d], s'.calls[d]) && (Aside(s, s', d) || Role(s', d))
  {
    if d == c {
    } else if s.calls[d].lead == c {
    } else {
      assert s'.calls[d] == s.calls[d];
    }
  }

  lemma GpInv(s: State, s': State, c: Id)
    requires Inv(s) && GpMove(s, s', c)
    ensures Inv(s')
  {
    assert CallInv(s, c);
    GpGlobal(s, s', c);
    forall d | 0 <= d < |s.calls|
      ensures LinkKept(s.calls[d], s'.calls[d]) && (Aside(s, s', d) || Role(s', d))
    {
      GpKept(s, s', c, d);
    }
    StepInv(s, s');
  }

  // what it does in `urcu_wake_all_waiters`

  /** Between two nodes. */
  predicate FetchMove(s: State, s': State, c: Id) {
    FetchNext(s, s', c) || WakeDone(s, s', c)
  }

  lemma FetchQuiet(s: State, s': State, c: Id)
    requires FetchMove(s, s', c) && CallInv(s, c)
    ensures Quiet(s, s')
  {
  }

  lemma FetchSelf(s: State, s': State, c: Id)
    requires FetchMove(s, s', c) && SameShape(s, s') && Known(s, c)
    ensures LinkKept(s.calls[c], s'.calls[c]) && Role(s', c)
  {
  }

  lemma FetchFollower(s: State, s': State, c: Id, d: Id)
    requires FetchMove(s, s', c) && SameShape(s, s') && Known(s, c) && Follows(s, c, d)
    ensures s'.calls[d] == s.calls[d] && Role(s', d)
  {
  }

  lemma FetchOther(s: State, s': State, c: Id, d: Id)
    requires FetchMove(s, s', c) && SameShape(s, s') && Known(s, c) && Stranger(s, c, d)
    ensures s'.calls[d] == s.calls[d] && Aside(s, s', d)
  {
  }

  lemma FetchInv(s: State, s': State, c: Id)
    requires Inv(s) && FetchMove(s, s', c)
    ensures Inv(s')
  {
    hide LeaderInv, FollowerInv, Shape, LeaderFrame, FollowerFrame, GlobalInv, Aside, Role, Peer;
    PeerKnown(s, c);
    FetchQuiet(s, s', c);
    forall d | 0 <= d < |s.calls|
      ensures LinkKept(s.calls[d], s'.calls[d]) && (Aside(s, s', d) || Role(s', d))
    {
      if d == c {
        FetchSelf(s, s', c);
      } else if s.calls[d].lead == c {
        FetchFollower(s, s', c, d);
      } else {
        FetchOther(s, s', c, d);
      }
    }
    GlobalKept(s, s');
    StepInv(s, s');
  }

  /** Reading a node. */
  predicate CheckMove(s: State, s': State, c: Id) {
    CheckRunning(s, s', c) || LoadRunning(s, s', c)
  }

  lemma CheckQuiet(s: State, s': State, c: Id)
    requires CheckMove(s, s', c) && CallInv(s, c)
    ensures Quiet(s, s')
  {
  }

  lemma CheckSelf(s: State, s': State, c: Id)
    requires CheckMove(s, s', c) && SameShape(s, s') && Known(s, c)
    ensures LinkKept(s.calls[c], s'.calls[c]) && Role(s', c)
  {
  }

  lemma CheckFollower(s: State, s': State, c: Id, d: Id)
    requires CheckMove(s, s', c) && SameShape(s, s') && Known(s, c) && Follows(s, c, d)
    ensures s'.calls[d] == s.calls[d] && Role(s', d)
  {
  }

  lemma CheckOther(s: State, s': State, c: Id, d: Id)
    requires CheckMove(s, s', c) && SameShape(s, s') && Known(s, c) && Stranger(s, c, d)
    ensures s'.calls[d] == s.calls[d] && Aside(s, s', d)
  {
  }

  lemma CheckInv(s: State, s': State, c: Id)
    requires Inv(s) && CheckMove(s, s', c)
    ensures Inv(s')
  {
    hide LeaderInv, FollowerInv, Shape, LeaderFrame, FollowerFrame, GlobalInv, Aside, Role, Peer;
    PeerKnown(s, c);
    CheckQuiet(s, s', c);
    forall d | 0 <= d < |s.calls|
      ensures LinkKept(s.calls[d], s'.calls[d]) && (Aside(s, s', d) || Role(s', d))
    {
      if d == c {
        CheckSelf(s, s', c);
      } else if s.calls[d].lead == c {
        CheckFollower(s, s', c, d);
      } else {
        CheckOther(s, s', c, d);
      }
    }
    GlobalKept(s, s');
    StepInv(s, s');
  }

  /** Changing a node. */
  predicate WakeMove(s: State, s': State, c: Id) {
    StoreWakeup(s, s', c) || CallFutexWake(s, s', c) || SetTeardown(s, s', c)
  }

  lemma WakeQuiet(s: State, s': State, c: Id)
    requires WakeMove(s, s', c) && CallInv(s, c)
    ensures Quiet(s, s')
  {
  }

  lemma WakeSelf(s: State, s': State, c: Id)
    requires WakeMove(s, s', c) && SameShape(s, s') && Known(s, c)
    ensures LinkKept(s.calls[c], s'.calls[c]) && Role(s', c)
  {
  }

  lemma WokenNode(s: State, s': State, c: Id, w: Id)
    requires StoreWakeup(s, s', c) && SameShape(s, s') && Known(s, c) && w == Peer(s, c) && w != c
    ensures LinkKept(s.calls[w], s'.calls[w]) && Role(s', w)
  {
  }

  lemma CalledNode(s: State, s': State, c: Id, w: Id)
    requires CallFutexWake(s, s', c) && SameShape(s, s') && Known(s, c) && w == Peer(s, c) && w != c
    ensures LinkKept(s.calls[w], s'.calls[w]) && Role(s', w)
  {
  }

  lemma ReleasedNode(s: State, s': State, c: Id, w: Id)
    requires SetTeardown(s, s', c) && SameShape(s, s') && Known(s, c) && w == Peer(s, c) && w != c
    ensures LinkKept(s.calls[w], s'.calls[w]) && Role(s', w)
  {
  }

  lemma WakeNode(s: State, s': State, c: Id, w: Id)
    requires WakeMove(s, s', c) && SameShape(s, s') && Known(s, c) && w == Peer(s, c) && w != c
    ensures LinkKept(s.calls[w], s'.calls[w]) && Role(s', w)
  {
    hide StoreWakeup, CallFutexWake, SetTeardown, Known, Role, LinkKept;
    if StoreWakeup(s, s', c) { WokenNode(s, s', c, w); }
    else if CallFutexWake(s, s', c) { CalledNode(s, s', c, w); }
    else { ReleasedNode(s, s', c, w); }
  }

  lemma WakeFollower(s: State, s': State, c: Id, d: Id)
    requires WakeMove(s, s', c) && SameShape(s, s') && Known(s, c) && Follows(s, c, d) && d != Peer(s, c)
    ensures s'.calls[d] == s.calls[d] && Role(s', d)
  {
  }

  lemma WakeOther(s: State, s': State, c: Id, d: Id)
    requires WakeMove(s, s', c) && SameShape(s, s') && Known(s, c) && Stranger(s, c, d) && d != Peer(s, c)
    ensures s'.calls[d] == s.calls[d] && Aside(s, s', d)
  {
  }

  lemma WakeInv(s: State, s': State, c: Id)
    requires Inv(s) && WakeMove(s, s', c)
    ensures Inv(s')
  {
    hide LeaderInv, FollowerInv, Shape, LeaderFrame, FollowerFrame, GlobalInv, Aside, Role, Peer;
    PeerKnown(s, c);
    WakeQuiet(s, s', c);
    forall d | 0 <= d < |s.calls|
      ensures LinkKept(s.calls[d], s'.calls[d]) && (Aside(s, s', d) || Role(s', d))
    {
      if d == c {
        WakeSelf(s, s', c);
      } else if d == Peer(s, c) {
        WakeNode(s, s', c, d);
      } else if s.calls[d].lead == c {
        WakeFollower(s, s', c, d);
      } else {
        WakeOther(s, s', c, d);
      }
    }
    GlobalKept(s, s');
    StepInv(s, s');
  }

  lemma NextInv(s: State, s': State)
    requires Inv(s) && Next(s, s')
    ensures Inv(s')
  {
    hide Inv;
    if Push(s, s') {
      PushInv(s, s');
    } else {
      var c :| JoinStep(s, s', c) || LeadStep(s, s', c);
      if JoinStep(s, s', c) { JoinInv(s, s', c); }
      else if LeadMove(s, s', c) { LeadInv(s, s', c); }
      else if GpMove(s, s', c) { GpInv(s, s', c); }
      else if FetchMove(s, s', c) { FetchInv(s, s', c); }
      else if CheckMove(s, s', c) { CheckInv(s, s', c); }
      else { WakeInv(s, s', c); }
    }
  }

  lemma {:induction false} RunInv(r: seq<State>, i: nat)
    requires Run(r) && i < |r|
    ensures Inv(r[i])
  {
    hide Inv, Next;
    if i == 0 {
      InitInv(r[0]);
    } else {
      RunInv(r, i - 1);
      NextInv(r[i - 1], r[i]);
    }
  }

  // ---------- theorems ----------

  /** The stack has calls waiting exactly when one of them, the oldest, has yet to lead them. */
  lemma OneLeader(r: seq<State>, i: nat)
    requires Run(r) && i < |r|
    ensures r[i].head.At? ==> r[i].head.id < |r[i].calls| && IsLeader(r[i], r[i].calls[r[i].head.id].lead)
                              && Unpopped(r[i].calls[r[i].calls[r[i].head.id].lead].pc)
    ensures forall c: Id :: IsLeader(r[i], c) && Unpopped(r[i].calls[c].pc) ==>
              r[i].head.At? && c == r[i].calls[r[i].head.id].lead
  {
    RunInv(r, i);
    var s := r[i];
    if s.head.At? { assert CallInv(s, s.head.id); }
    forall c: Id | IsLeader(s, c) && Unpopped(s.calls[c].pc)
      ensures s.head.At? && c == s.calls[s.head.id].lead
    {
      assert CallInv(s, c);
    }
  }

  lemma {:induction false} SameBatch(s: State, c: Id)
    requires Inv(s) && s.head.At? && s.calls[s.head.id].lead <= c <= s.head.id
    ensures s.calls[c].lead == s.calls[s.head.id].lead
    decreases s.head.id - c
  {
    if c < s.head.id {
      SameBatch(s, c + 1);
      assert CallInv(s, c + 1);
    }
  }

  /** From the head down, the nodes of the stack link to the one pushed before, and the leader is at the bottom. */
  lemma LeaderAtBottom(r: seq<State>, i: nat, c: Id)
    requires Run(r) && i < |r| && r[i].head.At?
    ensures r[i].head.id < |r[i].calls| && r[i].calls[r[i].head.id].lead <= r[i].head.id
    ensures r[i].calls[r[i].head.id].lead <= c <= r[i].head.id && !r[i].calls[c].pc.Pushed? ==>
              r[i].calls[c].next == if c == r[i].calls[r[i].head.id].lead then End else At(c - 1)
  {
    RunInv(r, i);
    var s := r[i];
    assert CallInv(s, s.head.id);
    if s.calls[s.head.id].lead <= c <= s.head.id {
      SameBatch(s, c);
      assert CallInv(s, c);
    }
  }

  lemma NextCounts(s: State, s': State)
    requires Next(s, s')
    ensures s.begun <= s'.begun && |s.calls| <= |s'.calls|
    ensures forall c :: 0 <= c < |s'.calls| ==>
              s'.calls[c].pushed == if c < |s.calls| then s.calls[c].pushed else s.begun
  {
    if !Push(s, s') {
      hide JoinStep, LeadStep;
      var c: Id :| JoinStep(s, s', c) || LeadStep(s, s', c);
      if JoinStep(s, s', c) { JoinCounts(s, s', c); } else { LeadCounts(s, s', c); }
    }
  }

  lemma JoinCounts(s: State, s': State, c: Id)
    requires JoinStep(s, s', c)
    ensures s.begun <= s'.begun && |s.calls| == |s'.calls|
    ensures forall d :: 0 <= d < |s.calls| ==> s'.calls[d].pushed == s.calls[d].pushed
  {
  }

  lemma LeadCounts(s: State, s': State, c: Id)
    requires LeadStep(s, s', c)
    ensures s.begun <= s'.begun && |s.calls| == |s'.calls|
    ensures forall d :: 0 <= d < |s.calls| ==> s'.calls[d].pushed == s.calls[d].pushed
  {
  }

  lemma {:induction false} PushedSince(r: seq<State>, j: nat, i: nat, c: Id)
    requires Run(r) && j <= i < |r| && |r[j].calls| <= c
    ensures r[j].begun <= r[i].begun && (c < |r[i].calls| ==> r[j].begun <= r[i].calls[c].pushed)
  {
    hide Next;
    if j < i {
      PushedSince(r, j, i - 1, c);
      NextCounts(r[i - 1], r[i]);
    }
  }

  /** A call that starts after state `j` and has returned in state `i` spans a whole grace period. */
  lemma ReturnsAfterGracePeriod(r: seq<State>, j: nat, i: nat, c: Id)
    requires Run(r) && j <= i < |r| && |r[j].calls| <= c < |r[i].calls| && r[i].calls[c].pc.Returned?
    ensures r[j].begun < r[i].calls[c].served <= r[i].ended
  {
    RunInv(r, i);
    assert CallInv(r[i], c);
    PushedSince(r, j, i, c);
  }

  predicate Touches(pc: Pc, w: Id) { (AtNode(pc) && pc.node == w) || (pc.Fetch? && pc.iter == At(w)) }

  /**
   The wait node a leader is about to touch has not got TEARDOWN, so its call is
   still to wait for it and has not returned: nothing is touched after TEARDOWN.
   */
  lemma NodeStillThere(r: seq<State>, i: nat, c: Id, w: Id)
    requires Run(r) && i < |r| && c < |r[i].calls| && Touches(r[i].calls[c].pc, w)
    ensures w < |r[i].calls| && Teardown !in r[i].calls[w].state && !r[i].calls[w].pc.Returned?
  {
    RunInv(r, i);
    PeerKnown(r[i], c);
    assert w == Peer(r[i], c);
  }

  /** A sleeping call has a leader that has not yet done its futex wake for it. */
  lemma SleeperHasWaker(r: seq<State>, i: nat, c: Id)
    requires Run(r) && i < |r| && c < |r[i].calls| && r[i].calls[c].pc.Asleep?
    ensures var l := r[i].calls[c].lead;
            && l < c && IsLeader(r[i], l)
            && (StageOf(r[i].calls[l].pc, c).Pending?
                || ((r[i].calls[l].pc.LoadRun? || r[i].calls[l].pc.FutexWake?) && r[i].calls[l].pc.node == c
                    && Running !in r[i].calls[c].state))
  {
    RunInv(r, i);
    assert CallInv(r[i], c);
  }
}
