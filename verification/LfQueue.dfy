/**
 The lock-free RCU queue: enqueue links a node with a cmpxchg and then moves a
 tail that may lag behind; dequeue moves the head and keeps the queue from
 getting empty by adding dummy nodes. Operations run inside read-side
 sections. A node the head has passed is reclaimed after a grace period, and
 its memory may then be any other node's: ids are reused. Every shared load and
 cmpxchg is one step of one of any number of threads.

 The head may pass a node that the tail still points to. All that is promised
 here holds as long as no grace period for a node begins while the tail points
 to that node; `LfQueueReclaim` shows that the library does not see to that,
 and what happens then.
 */
module LfQueue {

  type Tid = nat
  type Nid = nat

  datatype Ptr = Null | To(node: Nid)

  /** Memory that is nobody's, a node its enqueuer is about to link, and a linked node. */
  datatype Stage = Unused | Private | Linked

  /** `maker` records who enqueues the node, and `pos` where it was linked, once it is. */
  datatype Node = Node(next: Ptr, dummy: bool, maker: Tid, stage: Stage, pos: nat)

  /** A node as it was linked. */
  datatype Entry = Entry(node: Nid, dummy: bool)

  datatype Ret = None | Enqueued | Empty | Got(node: Nid)

  /** Who enqueues: a user, or a dequeuer adding a dummy behind what it saw as the head. */
  datatype Caller = User | Dequeuer(head: Nid)

  /** One program point per shared access. `MoveTail` is the cmpxchg of the tail after a linking attempt. */
  datatype Pc =
    | Idle(ret: Ret)
    | LoadTail(node: Nid, caller: Caller)
    | LinkNode(node: Nid, caller: Caller, tail: Nid)
    | MoveTail(node: Nid, caller: Caller, tail: Nid, to: Nid, done: bool)
    | LoadHead
    | LoadNext(head: Nid)
    | Reload(head: Nid)
    | MoveHead(head: Nid, next: Nid)

  /**
   `order` records all nodes in the order they were linked, `taken` how many of
   them the head has passed, and `out` what dequeues returned. `wait` has the
   running grace periods, by the position of the node they are for, with the
   threads they still wait for; `gone` are the positions whose node has been
   reclaimed. `early` records that a grace period began for the node under the
   tail.
   */
  datatype State = State(
    head: Nid, tail: Nid, nodes: seq<Node>, pcs: seq<Pc>,
    order: seq<Entry>, taken: nat, out: seq<Nid>,
    wait: map<nat, set<Tid>>, gone: set<nat>, early: bool)

  /** `_cds_lfq_init_rcu` */
  predicate Init(s: State) {
    && s.nodes == [Node(Null, true, 0, Linked, 0)] && s.head == 0 && s.tail == 0
    && s.order == [Entry(0, true)] && s.taken == 0 && s.out == []
    && s.wait == map[] && s.gone == {} && !s.early
    && forall t :: 0 <= t < |s.pcs| ==> s.pcs[t] == Idle(None)
  }

  // ---------- steps ----------

  /** The thread goes on; when its operation ends, it leaves its section and no grace period waits for it. */
  function Go(s: State, t: Tid, pc: Pc): State
    requires t < |s.pcs|
  {
    s.(pcs := s.pcs[t := pc], wait := if pc.Idle? then map k | k in s.wait :: s.wait[k] - {t} else s.wait)
  }

  function NextOf(s: State, n: Nid): Ptr { if n < |s.nodes| then s.nodes[n].next else Null }

  /** Memory for a node: reclaimed, or never used. */
  predicate MayAllocate(s: State, n: Nid) { n == |s.nodes| || (n < |s.nodes| && s.nodes[n].stage == Unused) }

  /** A new node, and `_cds_lfq_enqueue_rcu` of it. */
  function Enqueue(s: State, t: Tid, n: Nid, dummy: bool, caller: Caller): State
    requires t < |s.pcs| && MayAllocate(s, n)
  {
    var v := Node(Null, dummy, t, Private, 0);
    Go(s, t, LoadTail(n, caller)).(nodes := if n == |s.nodes| then s.nodes + [v] else s.nodes[n := v])
  }

  predicate StartEnqueue(s: State, s': State, t: Tid, n: Nid) {
    t < |s.pcs| && s.pcs[t].Idle? && MayAllocate(s, n) && s' == Enqueue(s, t, n, false, User)
  }

  predicate ReadTail(s: State, s': State, t: Tid) {
    t < |s.pcs| && s.pcs[t].LoadTail? && s' == Go(s, t, LinkNode(s.pcs[t].node, s.pcs[t].caller, s.tail))
  }

  predicate CasNext(s: State, s': State, t: Tid) {
    && t < |s.pcs| && s.pcs[t].LinkNode?
    && var pc := s.pcs[t];
    && pc.tail < |s.nodes| && pc.node < |s.nodes|
    && match NextOf(s, pc.tail)
       case To(n) => s' == Go(s, t, MoveTail(pc.node, pc.caller, pc.tail, n, false))
       case Null =>
         s' == Go(s, t, MoveTail(pc.node, pc.caller, pc.tail, pc.node, true)).(
                 nodes := s.nodes[pc.tail := s.nodes[pc.tail].(next := To(pc.node))]
                                 [pc.node := s.nodes[pc.node].(stage := Linked, pos := |s.order|)],
                 order := s.order + [Entry(pc.node, s.nodes[pc.node].dummy)])
  }

  predicate CasTail(s: State, s': State, t: Tid) {
    && t < |s.pcs| && s.pcs[t].MoveTail?
    && var pc := s.pcs[t];
    && var after := if !pc.done then LoadTail(pc.node, pc.caller)
                    else if pc.caller.User? then Idle(Enqueued) else Reload(pc.caller.head);
    && s' == Go(s, t, after).(tail := if s.tail == pc.tail then pc.to else s.tail)
  }

  predicate StartDequeue(s: State, s': State, t: Tid) {
    t < |s.pcs| && s.pcs[t].Idle? && s' == Go(s, t, LoadHead)
  }

  predicate ReadHead(s: State, s': State, t: Tid) {
    t < |s.pcs| && s.pcs[t].LoadHead? && s' == Go(s, t, LoadNext(s.head))
  }

  /** Empty, or a real last node that needs a dummy `n` behind it, or a successor to move to. */
  predicate ReadNext(s: State, s': State, t: Tid, n: Nid) {
    && t < |s.pcs| && s.pcs[t].LoadNext? && s.pcs[t].head < |s.nodes|
    && var h := s.pcs[t].head;
    && match NextOf(s, h)
       case To(m) => s' == Go(s, t, MoveHead(h, m))
       case Null =>
         if s.nodes[h].dummy then s' == Go(s, t, Idle(Empty))
         else MayAllocate(s, n) && s' == Enqueue(s, t, n, true, Dequeuer(h))
  }

  /** The source does not test this second load: it has to find a successor. */
  predicate ReadAgain(s: State, s': State, t: Tid) {
    && t < |s.pcs| && s.pcs[t].Reload? && NextOf(s, s.pcs[t].head).To?
    && s' == Go(s, t, MoveHead(s.pcs[t].head, NextOf(s, s.pcs[t].head).node))
  }

  /** A dummy that left is handed to `call_rcu` and the loop goes on; a real node is returned. */
  predicate CasHead(s: State, s': State, t: Tid) {
    && t < |s.pcs| && s.pcs[t].MoveHead? && s.pcs[t].head < |s.nodes|
    && var pc := s.pcs[t];
    && s' == if s.head != pc.head then Go(s, t, LoadHead)
             else if s.nodes[pc.head].dummy then Go(s, t, LoadHead).(head := pc.next, taken := s.taken + 1)
             else Go(s, t, Idle(Got(pc.head))).(head := pc.next, taken := s.taken + 1, out := s.out + [pc.head])
  }

  predicate Step(s: State, s': State, t: Tid, n: Nid) {
    || StartEnqueue(s, s', t, n) || ReadTail(s, s', t) || CasNext(s, s', t) || CasTail(s, s', t)
    || StartDequeue(s, s', t) || ReadHead(s, s', t) || ReadNext(s, s', t, n) || ReadAgain(s, s', t)
    || CasHead(s, s', t)
  }

  // reclamation

  function Busy(s: State): set<Tid> { set t | 0 <= t < |s.pcs| && !s.pcs[t].Idle? }

  /** A grace period begins for the node at position `k`, which the head has passed. */
  predicate Retire(s: State, s': State, k: nat) {
    && k < s.taken && k < |s.order| && k !in s.wait && k !in s.gone
    && s' == s.(wait := s.wait[k := Busy(s)], early := s.early || s.tail == s.order[k].node)
  }

  /** It has ended, and the node's memory is anybody's. */
  predicate Free(s: State, s': State, k: nat, junk: Ptr) {
    && k in s.wait && s.wait[k] == {} && k < |s.order| && s.order[k].node < |s.nodes|
    && var n := s.order[k].node;
    && s' == s.(nodes := s.nodes[n := s.nodes[n].(stage := Unused, next := junk)],
                wait := s.wait - {k}, gone := s.gone + {k})
  }

  ghost predicate Moves(s: State, s': State) {
    || (exists t, n :: Step(s, s', t, n))
    || (exists k :: Retire(s, s', k))
    || (exists k, junk :: Free(s, s', k, junk))
  }

  ghost predicate Run(r: seq<State>) {
    && |r| > 0 && Init(r[0])
    && forall i :: 0 <= i < |r| - 1 ==> Moves(r[i], r[i + 1])
  }

  // ---------- the abstract queue ----------

  function Real(l: seq<Entry>): seq<Nid> {
    if l == [] then []
    else Real(l[..|l| - 1]) + if l[|l| - 1].dummy then [] else [l[|l| - 1].node]
  }

  /** The real nodes that were linked and not yet passed by the head. */
  function Contents(s: State): seq<Nid>
    requires s.taken <= |s.order|
  {
    Real(s.order[s.taken..])
  }

  lemma {:induction false} RealConcat(k: seq<Entry>, l: seq<Entry>)
    ensures Real(k + l) == Real(k) + Real(l)
  {
    if l == [] {
      assert k + l == k;
    } else {
      assert (k + l)[..|k + l| - 1] == k + l[..|l| - 1];
      RealConcat(k, l[..|l| - 1]);
    }
  }

  lemma RealNext(l: seq<Entry>, k: nat)
    requires k < |l|
    ensures Real(l[..k + 1]) == Real(l[..k]) + if l[k].dummy then [] else [l[k].node]
  {
    assert l[..k + 1][..k] == l[..k];
  }

  // ---------- the invariant ----------

  predicate IsLinked(s: State, n: Nid) { n < |s.nodes| && s.nodes[n].stage == Linked }

  /** The node is linked at position `k`. */
  predicate LinkedAt(s: State, n: Nid, k: int) { IsLinked(s, n) && s.nodes[n].pos == k }

  predicate NodeInv(s: State, n: Nid)
    requires n < |s.nodes|
  {
    var v := s.nodes[n];
    && (v.stage == Private ==> v.next == Null)
    && (v.stage == Linked ==>
          && v.pos < |s.order| && s.order[v.pos] == Entry(n, v.dummy) && v.pos !in s.gone
          && v.next == if v.pos + 1 < |s.order| then To(s.order[v.pos + 1].node) else Null)
  }

  predicate OrderInv(s: State) {
    && (forall k :: 0 <= k < |s.order| && k !in s.gone ==> LinkedAt(s, s.order[k].node, k))
    && s.taken < |s.order| && s.order[s.taken].node == s.head && s.taken !in s.gone
    && IsLinked(s, s.tail) && |s.order| - 2 <= s.nodes[s.tail].pos < |s.order|
    && s.out == Real(s.order[..s.taken])
  }

  /** A node that was the tail, or the head, at some time. */
  predicate WasTail(s: State, n: Nid) {
    IsLinked(s, n) && IsLinked(s, s.tail) && s.nodes[n].pos <= s.nodes[s.tail].pos
  }

  predicate WasHead(s: State, n: Nid) { IsLinked(s, n) && s.nodes[n].pos <= s.taken }

  predicate CallerInv(s: State, c: Caller) { c.Dequeuer? ==> WasHead(s, c.head) && !s.nodes[c.head].dummy }

  /** The node thread `t` is about to link: a dummy exactly if a dequeue needs it. */
  predicate Owns(s: State, t: Tid, n: Nid, c: Caller) {
    n < |s.nodes| && s.nodes[n].stage == Private && s.nodes[n].maker == t && (s.nodes[n].dummy <==> c.Dequeuer?)
  }

  predicate PcInv(s: State, t: Tid)
    requires t < |s.pcs|
  {
    match s.pcs[t]
    case Idle(_) => true
    case LoadTail(n, c) => Owns(s, t, n, c) && CallerInv(s, c)
    case LinkNode(n, c, l) => Owns(s, t, n, c) && CallerInv(s, c) && WasTail(s, l)
    case MoveTail(n, c, l, to, done) =>
      && CallerInv(s, c) && WasTail(s, l) && LinkedAt(s, to, s.nodes[l].pos + 1)
      && (!done ==> Owns(s, t, n, c))
      && (done ==> to == n && (c.Dequeuer? ==> s.nodes[c.head].pos + 1 < |s.order|))
    case LoadHead => true
    case LoadNext(h) => WasHead(s, h)
    case Reload(h) => WasHead(s, h) && s.nodes[h].pos + 1 < |s.order|
    case MoveHead(h, n) => WasHead(s, h) && LinkedAt(s, n, s.nodes[h].pos + 1)
  }

  /** The thread that linked the last node and has not yet tried to move the tail. */
  predicate Linker(s: State, pc: Pc) {
    pc.MoveTail? && pc.done && pc.tail == s.tail && |s.order| > 0 && pc.node == s.order[|s.order| - 1].node
  }

  predicate LagInv(s: State) {
    LinkedAt(s, s.tail, |s.order| - 2) ==> exists t :: 0 <= t < |s.pcs| && Linker(s, s.pcs[t])
  }

  /** The shared nodes a thread has a pointer to. */
  function Held(pc: Pc): set<Nid> {
    match pc
    case Idle(_) => {}
    case LoadTail(_, c) => CallerHeld(c)
    case LinkNode(_, c, l) => CallerHeld(c) + {l}
    case MoveTail(_, c, l, to, _) => CallerHeld(c) + {l, to}
    case LoadHead => {}
    case LoadNext(h) => {h}
    case Reload(h) => {h}
    case MoveHead(h, n) => {h, n}
  }

  function CallerHeld(c: Caller): set<Nid> { if c.Dequeuer? then {c.head} else {} }

  /** Head and tail are past position `k`. */
  predicate Past(s: State, k: nat) { k < s.taken && IsLinked(s, s.tail) && k < s.nodes[s.tail].pos }

  /** The thread only has pointers to nodes past position `k`. */
  predicate Ahead(s: State, t: Tid, k: nat)
    requires t < |s.pcs|
  {
    forall p :: p in Held(s.pcs[t]) ==> IsLinked(s, p) && k < s.nodes[p].pos
  }

  predicate WaitInv(s: State) {
    && (forall k :: k in s.wait ==> k !in s.gone && Past(s, k))
    && (forall k :: k in s.gone ==> Past(s, k))
    && (forall k, t :: k in s.wait && 0 <= t < |s.pcs| && t !in s.wait[k] ==> Ahead(s, t, k))
    && (forall k, t :: k in s.gone && 0 <= t < |s.pcs| ==> Ahead(s, t, k))
  }

  predicate Inv(s: State) {
    && OrderInv(s) && LagInv(s) && WaitInv(s)
    && (forall n :: 0 <= n < |s.nodes| ==> NodeInv(s, n))
    && (forall t :: 0 <= t < |s.pcs| ==> PcInv(s, t))
  }

  lemma InitInv(s: State)
    requires Init(s)
    ensures Inv(s)
  {
    assert s.order[..s.taken] == [];
  }

  // ---------- what steps keep ----------

  /** Linked nodes stay what they are, nodes are added behind, head and tail only go forward. */
  predicate Later(s: State, s': State) {
    && |s.nodes| <= |s'.nodes| && |s'.pcs| == |s.pcs| && s.order <= s'.order && s.taken <= s'.taken && s'.gone == s.gone
    && (forall n :: 0 <= n < |s.nodes| && IsLinked(s, n) ==> SameNode(s, s', n))
    && (IsLinked(s, s.tail) ==> WasTail(s', s.tail))
  }

  predicate SameNode(s: State, s': State, n: Nid)
    requires n < |s.nodes| <= |s'.nodes|
  {
    s'.nodes[n].stage == Linked && s'.nodes[n].pos == s.nodes[n].pos && s'.nodes[n].dummy == s.nodes[n].dummy
  }

  /** Other threads and the nodes they are about to link are left alone. */
  predicate Alone(s: State, s': State, t: Tid)
    requires |s.nodes| <= |s'.nodes| && |s'.pcs| == |s.pcs|
  {
    && (forall u :: 0 <= u < |s.pcs| && u != t ==> s'.pcs[u] == s.pcs[u])
    && (forall n :: 0 <= n < |s.nodes| && s.nodes[n].stage == Private && s.nodes[n].maker != t ==>
          s'.nodes[n] == s.nodes[n])
  }

  lemma PcKept(s: State, s': State, t: Tid, u: Tid)
    requires Later(s, s') && Alone(s, s', t) && u < |s.pcs| && u != t && PcInv(s, u)
    ensures PcInv(s', u)
  {
  }

  lemma AheadKept(s: State, s': State, u: Tid, k: nat)
    requires Later(s, s') && u < |s.pcs| && s'.pcs[u] == s.pcs[u] && Ahead(s, u, k)
    ensures Ahead(s', u, k)
  {
  }

  /** Whatever pointer the thread gets, it does not fall behind. */
  ghost predicate Gains(s: State, s': State, t: Tid)
    requires t < |s.pcs| == |s'.pcs|
  {
    forall k: nat :: Past(s, k) && Ahead(s, t, k) ==> Ahead(s', t, k)
  }

  /** All that a step of `t` leaves the others. */
  ghost predicate Onward(s: State, s': State, t: Tid) {
    t < |s.pcs| && Later(s, s') && Alone(s, s', t) && Gains(s, s', t)
  }

  /** Grace periods go on, but may stop waiting for a thread that left. */
  predicate SameWait(s: State, s': State, t: Tid)
    requires t < |s'.pcs|
  {
    && s'.wait.Keys == s.wait.Keys && s'.early == s.early
    && forall k :: k in s.wait ==> s'.wait[k] == s.wait[k] || (s'.pcs[t].Idle? && s'.wait[k] == s.wait[k] - {t})
  }

  lemma WaitKept(s: State, s': State, t: Tid)
    requires WaitInv(s) && Later(s, s') && t < |s.pcs| && Alone(s, s', t) && Gains(s, s', t) && SameWait(s, s', t)
    ensures WaitInv(s')
  {
    forall k: nat | Past(s, k)
      ensures Past(s', k)
    {
    }
    forall k: nat, u: Tid | u < |s.pcs| && Past(s, k) && (k in s.gone || (k in s.wait && u !in s'.wait[k]))
      ensures Ahead(s', u, k)
    {
      if u != t { AheadKept(s, s', u, k); }
    }
    hide Past, Ahead, Later;
  }

  lemma StepInv(s: State, s': State, t: Tid)
    requires Inv(s) && Later(s, s') && t < |s.pcs| && Alone(s, s', t) && Gains(s, s', t) && SameWait(s, s', t)
    requires OrderInv(s') && LagInv(s') && PcInv(s', t)
    requires forall n :: 0 <= n < |s'.nodes| ==> NodeInv(s', n)
    ensures Inv(s')
  {
    WaitKept(s, s', t);
    assert |s'.pcs| == |s.pcs|;
    hide OrderInv, LagInv, NodeInv, Later, Alone, WaitInv, Gains, SameWait;
    forall u | 0 <= u < |s.pcs| && u != t
      ensures PcInv(s', u)
    {
      assert PcInv(s, u);
      PcKept(s, s', t, u);
    }
  }

  /** The tail lags behind only while its linker is at work. */
  lemma LagKept(s: State, s': State, t: Tid)
    requires LagInv(s) && t < |s.pcs| == |s'.pcs| && s'.tail == s.tail && s'.order == s.order
    requires IsLinked(s, s.tail) && IsLinked(s', s.tail) && s'.nodes[s.tail].pos == s.nodes[s.tail].pos
    requires !Linker(s, s.pcs[t]) && forall u :: 0 <= u < |s.pcs| && u != t ==> s'.pcs[u] == s.pcs[u]
    ensures LagInv(s')
  {
    if LinkedAt(s, s.tail, |s.order| - 2) {
      var u :| 0 <= u < |s.pcs| && Linker(s, s.pcs[u]);
      assert Linker(s', s'.pcs[u]);
    }
  }

  /** A node a thread may read from has its successor, if any, still linked. */
  lemma SuccessorLinked(s: State, t: Tid, p: Nid)
    requires Inv(s) && t < |s.pcs| && p in Held(s.pcs[t]) && IsLinked(s, p)
    ensures s.nodes[p].pos < |s.order|
    ensures NextOf(s, p) == if s.nodes[p].pos + 1 < |s.order| then To(s.order[s.nodes[p].pos + 1].node) else Null
    ensures s.nodes[p].pos + 1 < |s.order| ==> LinkedAt(s, s.order[s.nodes[p].pos + 1].node, s.nodes[p].pos + 1)
  {
    assert NodeInv(s, p);
    assert s.nodes[p].pos + 1 in s.gone ==> Ahead(s, t, s.nodes[p].pos + 1);
  }

  /** Steps that change only the thread. */
  lemma MoveInv(s: State, s': State, t: Tid)
    requires Inv(s) && t < |s.pcs| == |s'.pcs| && s' == Go(s, t, s'.pcs[t])
    requires PcInv(s', t) && Gains(s, s', t) && !Linker(s, s.pcs[t])
    ensures Inv(s') && Onward(s, s', t)
  {
    LagKept(s, s', t);
    forall n | 0 <= n < |s'.nodes|
      ensures NodeInv(s', n)
    {
      assert NodeInv(s, n);
    }
    assert OrderInv(s');
    assert Later(s, s') && Alone(s, s', t) && SameWait(s, s', t);
    hide NodeInv, LagInv, OrderInv, WaitInv, PcInv, Gains, Later, Alone, SameWait;
    StepInv(s, s', t);
  }

  lemma ReadTailInv(s: State, s': State, t: Tid)
    requires Inv(s) && ReadTail(s, s', t)
    ensures Inv(s') && Onward(s, s', t)
  {
    assert PcInv(s, t);
    assert Gains(s, s', t);
    MoveInv(s, s', t);
  }

  lemma ReadHeadInv(s: State, s': State, t: Tid)
    requires Inv(s) && (StartDequeue(s, s', t) || ReadHead(s, s', t))
    ensures Inv(s') && Onward(s, s', t)
  {
    assert PcInv(s, t);
    assert LinkedAt(s, s.head, s.taken);
    assert Gains(s, s', t);
    MoveInv(s, s', t);
  }

  lemma ReadAgainInv(s: State, s': State, t: Tid)
    requires Inv(s) && ReadAgain(s, s', t)
    ensures Inv(s') && Onward(s, s', t)
  {
    assert PcInv(s, t);
    SuccessorLinked(s, t, s.pcs[t].head);
    assert Gains(s, s', t);
    MoveInv(s, s', t);
  }

  /** A new node is not linked yet. */
  lemma NewNodeInv(s: State, s': State, t: Tid, n: Nid, dummy: bool, c: Caller)
    requires Inv(s) && t < |s.pcs| && CallerInv(s, c) && !s.pcs[t].MoveTail?
    requires CallerHeld(c) <= Held(s.pcs[t])
    requires MayAllocate(s, n) && (dummy <==> c.Dequeuer?) && s' == Enqueue(s, t, n, dummy, c)
    ensures Inv(s') && Onward(s, s', t)
  {
    LagKept(s, s', t);
    forall m | 0 <= m < |s'.nodes|
      ensures NodeInv(s', m)
    {
      if m < |s.nodes| { assert NodeInv(s, m); }
    }
    assert Later(s, s') && Alone(s, s', t) && SameWait(s, s', t) && Gains(s, s', t);
    assert OrderInv(s') && PcInv(s', t);
    hide NodeInv, LagInv, OrderInv, WaitInv, PcInv, Gains, Later, Alone, SameWait;
    StepInv(s, s', t);
  }

  lemma ReadNextInv(s: State, s': State, t: Tid, n: Nid)
    requires Inv(s) && ReadNext(s, s', t, n)
    ensures Inv(s') && Onward(s, s', t)
  {
    assert PcInv(s, t);
    var h := s.pcs[t].head;
    SuccessorLinked(s, t, h);
    if s.nodes[h].next.Null? && !s.nodes[h].dummy {
      NewNodeInv(s, s', t, n, true, Dequeuer(h));
    } else {
      assert Gains(s, s', t);
      MoveInv(s, s', t);
    }
  }

  lemma CasTailOnward(s: State, s': State, t: Tid)
    requires CasTail(s, s', t) && PcInv(s, t) && OrderInv(s)
    ensures Onward(s, s', t) && SameWait(s, s', t)
  {
  }

  lemma CasTailQueue(s: State, s': State, t: Tid)
    requires CasTail(s, s', t) && PcInv(s, t) && OrderInv(s) && LagInv(s)
    requires s.pcs[t].to < |s.nodes| && NodeInv(s, s.pcs[t].to)
    ensures OrderInv(s') && LagInv(s') && PcInv(s', t)
  {
    hide Real;
    if s.tail != s.pcs[t].tail { LagKept(s, s', t); }
  }

  lemma SameNodes(s: State, s': State)
    requires s'.nodes == s.nodes && s'.order == s.order && s'.gone == s.gone
    requires forall n :: 0 <= n < |s.nodes| ==> NodeInv(s, n)
    ensures forall n :: 0 <= n < |s'.nodes| ==> NodeInv(s', n)
  {
    forall n | 0 <= n < |s'.nodes|
      ensures NodeInv(s', n)
    {
      assert NodeInv(s, n);
    }
  }

  lemma CasTailInv(s: State, s': State, t: Tid)
    requires Inv(s) && CasTail(s, s', t)
    ensures Inv(s') && Onward(s, s', t)
  {
    hide NodeInv, LagInv, OrderInv, WaitInv, Gains, Later, Alone, SameWait;
    assert PcInv(s, t);
    CasTailOnward(s, s', t);
    CasTailQueue(s, s', t);
    SameNodes(s, s');
    StepInv(s, s', t);
  }

  lemma HeadMoves(s: State, s': State, t: Tid)
    requires CasHead(s, s', t) && OrderInv(s) && PcInv(s, t) && s.head == s.pcs[t].head && NodeInv(s, s.pcs[t].next)
    requires s.head < |s.nodes| && NodeInv(s, s.head)
    ensures OrderInv(s')
  {
    RealNext(s.order, s.taken);
    hide Real;
    assert s'.nodes == s.nodes && s'.order == s.order && s'.tail == s.tail;
  }

  lemma CasHeadOnward(s: State, s': State, t: Tid)
    requires CasHead(s, s', t) && PcInv(s, t) && OrderInv(s)
    ensures Onward(s, s', t) && SameWait(s, s', t) && PcInv(s', t)
  {
    hide Real;
  }

  lemma CasHeadInv(s: State, s': State, t: Tid)
    requires Inv(s) && CasHead(s, s', t)
    ensures Inv(s') && Onward(s, s', t)
  {
    assert PcInv(s, t) && NodeInv(s, s.pcs[t].next) && NodeInv(s, s.pcs[t].head);
    assert IsLinked(s, s.tail);
    hide NodeInv, LagInv, OrderInv, WaitInv, Gains, Later, Alone, SameWait;
    CasHeadOnward(s, s', t);
    if s.head != s.pcs[t].head {
      MoveInv(s, s', t);
    } else {
      HeadMoves(s, s', t);
      LagKept(s, s', t);
      SameNodes(s, s');
      StepInv(s, s', t);
    }
  }

  lemma CasNextInv(s: State, s': State, t: Tid)
    requires Inv(s) && CasNext(s, s', t)
    ensures Inv(s') && Onward(s, s', t)
  {
    assert PcInv(s, t);
    var pc := s.pcs[t];
    SuccessorLinked(s, t, pc.tail);
    if s.nodes[pc.tail].next.Null? {
      LinkInv(s, s', t);
    } else {
      assert Gains(s, s', t);
      MoveInv(s, s', t);
    }
  }

  lemma LinkOnward(s: State, s': State, t: Tid)
    requires CasNext(s, s', t) && NextOf(s, s.pcs[t].tail).Null? && PcInv(s, t) && OrderInv(s)
    ensures Onward(s, s', t) && SameWait(s, s', t)
  {
    hide Real;
  }

  lemma LinkNodes(s: State, s': State, t: Tid, n: Nid)
    requires CasNext(s, s', t) && NextOf(s, s.pcs[t].tail).Null? && PcInv(s, t) && OrderInv(s)
    requires n < |s.nodes| && NodeInv(s, n) && NodeInv(s, s.pcs[t].tail) && NodeInv(s, s.pcs[t].node) && WaitInv(s)
    ensures NodeInv(s', n)
  {
    hide Real, Ahead;
  }

  lemma LinkInv(s: State, s': State, t: Tid)
    requires Inv(s) && CasNext(s, s', t) && NextOf(s, s.pcs[t].tail).Null?
    ensures Inv(s') && Onward(s, s', t)
  {
    hide NodeInv, LagInv, OrderInv, WaitInv, Gains, Later, Alone, SameWait;
    assert PcInv(s, t);
    LinkOrder(s, s', t);
    LinkOnward(s, s', t);
    forall n | 0 <= n < |s'.nodes|
      ensures NodeInv(s', n)
    {
      LinkNodes(s, s', t, n);
    }
    StepInv(s, s', t);
  }

  lemma LinkOrder(s: State, s': State, t: Tid)
    requires Inv(s) && CasNext(s, s', t) && NextOf(s, s.pcs[t].tail).Null?
    ensures OrderInv(s') && LagInv(s') && PcInv(s', t)
  {
    var pc := s.pcs[t];
    assert PcInv(s, t);
    assert NodeInv(s, pc.tail) && NodeInv(s, pc.node) && NodeInv(s, s.tail);
    assert s'.order[..s.taken] == s.order[..s.taken];
    assert s.nodes[pc.tail].pos == |s.order| - 1 && pc.tail == s.tail;
    assert Linker(s', s'.pcs[t]);
    hide Real, WaitInv;
  }

  // ---------- reclamation ----------

  /** A passed node that is not under the tail is behind head and tail. */
  lemma PassedIsPast(s: State, k: nat)
    requires Inv(s) && k < s.taken && k !in s.gone && s.tail != s.order[k].node
    ensures Past(s, k)
  {
    assert NodeInv(s, s.tail);
    assert LinkedAt(s, s.order[k].node, k);
  }

  lemma RetireInv(s: State, s': State, k: nat)
    requires Inv(s) && Retire(s, s', k) && !s'.early
    ensures Inv(s')
  {
    PassedIsPast(s, k);
    forall n | 0 <= n < |s'.nodes|
      ensures NodeInv(s', n)
    {
      assert NodeInv(s, n);
    }
    forall t | 0 <= t < |s'.pcs|
      ensures PcInv(s', t)
    {
      assert PcInv(s, t);
    }
    RetireWait(s, s', k);
    hide NodeInv, PcInv, WaitInv;
  }

  lemma RetireWait(s: State, s': State, k: nat)
    requires WaitInv(s) && Retire(s, s', k) && Past(s, k)
    ensures WaitInv(s')
  {
    forall j: nat, t: Tid | t < |s.pcs|
      ensures Past(s', j) == Past(s, j) && Ahead(s', t, j) == Ahead(s, t, j)
    {
    }
    forall t | 0 <= t < |s.pcs| && t !in Busy(s)
      ensures Ahead(s', t, k)
    {
    }
    hide Past, Ahead, Busy;
  }

  /** Nobody has a pointer to the node that is freed. */
  lemma FreeHeld(s: State, s': State, k: nat, junk: Ptr, t: Tid, p: Nid)
    requires WaitInv(s) && OrderInv(s) && Free(s, s', k, junk) && t < |s.pcs| && p in Held(s.pcs[t])
    ensures p != s.order[k].node && IsLinked(s, p) && IsLinked(s', p) && k < s.nodes[p].pos
    ensures s'.nodes[p] == s.nodes[p]
  {
    assert Ahead(s, t, k);
    assert LinkedAt(s, s.order[k].node, k);
  }

  lemma FreePc(s: State, s': State, k: nat, junk: Ptr, t: Tid)
    requires WaitInv(s) && OrderInv(s) && Free(s, s', k, junk) && t < |s.pcs| && PcInv(s, t)
    ensures PcInv(s', t)
  {
    assert LinkedAt(s, s.order[k].node, k) && s.tail != s.order[k].node;
    forall p | p in Held(s.pcs[t])
      ensures IsLinked(s, p) && IsLinked(s', p) && s'.nodes[p] == s.nodes[p]
    {
      FreeHeld(s, s', k, junk, t, p);
    }
    hide WaitInv, OrderInv;
  }

  lemma FreeWait(s: State, s': State, k: nat, junk: Ptr)
    requires WaitInv(s) && OrderInv(s) && Free(s, s', k, junk)
    ensures WaitInv(s')
  {
    assert LinkedAt(s, s.order[k].node, k) && s.tail != s.order[k].node;
    forall j: nat
      ensures Past(s', j) == Past(s, j)
    {
    }
    forall t: Tid, j: nat | t < |s.pcs| && Ahead(s, t, j)
      ensures Ahead(s', t, j)
    {
      forall p | p in Held(s.pcs[t])
        ensures IsLinked(s', p) && j < s'.nodes[p].pos
      {
        FreeHeld(s, s', k, junk, t, p);
      }
    }
    hide Past, Ahead, OrderInv;
  }

  lemma FreeInv(s: State, s': State, k: nat, junk: Ptr)
    requires Inv(s) && Free(s, s', k, junk)
    ensures Inv(s')
  {
    assert LinkedAt(s, s.order[k].node, k) && s.tail != s.order[k].node;
    FreeWait(s, s', k, junk);
    forall t | 0 <= t < |s'.pcs|
      ensures PcInv(s', t)
    {
      assert PcInv(s, t);
      FreePc(s, s', k, junk, t);
    }
    forall n | 0 <= n < |s'.nodes|
      ensures NodeInv(s', n)
    {
      assert NodeInv(s, n);
    }
    if LinkedAt(s, s.tail, |s.order| - 2) {
      var t :| 0 <= t < |s.pcs| && Linker(s, s.pcs[t]);
      assert Linker(s', s'.pcs[t]);
    }
    hide WaitInv, PcInv, NodeInv;
  }

  lemma ThreadInv(s: State, s': State, t: Tid, n: Nid)
    requires Inv(s) && Step(s, s', t, n)
    ensures Inv(s') && Onward(s, s', t)
  {
    hide Inv, Onward;
    if StartEnqueue(s, s', t, n) { NewNodeInv(s, s', t, n, false, User); }
    else if ReadTail(s, s', t) { ReadTailInv(s, s', t); }
    else if CasNext(s, s', t) { CasNextInv(s, s', t); }
    else if CasTail(s, s', t) { CasTailInv(s, s', t); }
    else if ReadNext(s, s', t, n) { ReadNextInv(s, s', t, n); }
    else if ReadAgain(s, s', t) { ReadAgainInv(s, s', t); }
    else if CasHead(s, s', t) { CasHeadInv(s, s', t); }
    else { ReadHeadInv(s, s', t); }
  }

  /** Every step keeps the invariant, unless it begins a grace period for the node under the tail. */
  lemma NextInv(s: State, s': State)
    requires Inv(s) && Moves(s, s') && !s'.early
    ensures Inv(s')
  {
    hide Inv, Step, Retire, Free;
    if t, n :| Step(s, s', t, n) {
      ThreadInv(s, s', t, n);
    } else if k :| Retire(s, s', k) {
      RetireInv(s, s', k);
    } else {
      var k, junk :| Free(s, s', k, junk);
      FreeInv(s, s', k, junk);
    }
  }

  lemma EarlyStays(s: State, s': State)
    requires Moves(s, s') && s.early
    ensures s'.early
  {
  }

  lemma {:induction false} RunInv(r: seq<State>, i: nat)
    requires Run(r) && i < |r| && !r[i].early
    ensures Inv(r[i])
  {
    hide Inv, Moves;
    if i == 0 {
      InitInv(r[0]);
    } else {
      if r[i - 1].early { EarlyStays(r[i - 1], r[i]); }
      RunInv(r, i - 1);
      NextInv(r[i - 1], r[i]);
    }
  }

  // ---------- theorems ----------

  /** The head is a node of the queue, and the tail the last node or the one before it; neither is reclaimed. */
  lemma HeadAndTail(r: seq<State>, i: nat)
    requires Run(r) && i < |r| && !r[i].early
    ensures r[i].taken < |r[i].order| && r[i].order[r[i].taken].node == r[i].head
    ensures || r[i].tail == r[i].order[|r[i].order| - 1].node
            || (|r[i].order| > 1 && r[i].tail == r[i].order[|r[i].order| - 2].node)
    ensures IsLinked(r[i], r[i].head) && IsLinked(r[i], r[i].tail)
  {
    RunInv(r, i);
    assert NodeInv(r[i], r[i].tail);
    assert LinkedAt(r[i], r[i].head, r[i].taken);
  }

  /** Following next pointers from the head visits exactly what was linked and not passed, and ends. */
  lemma MemoryHoldsQueue(r: seq<State>, i: nat, k: nat)
    requires Run(r) && i < |r| && !r[i].early && r[i].taken <= k < |r[i].order|
    ensures NextOf(r[i], r[i].order[k].node) == if k + 1 < |r[i].order| then To(r[i].order[k + 1].node) else Null
  {
    RunInv(r, i);
    assert LinkedAt(r[i], r[i].order[k].node, k);
    assert NodeInv(r[i], r[i].order[k].node);
  }

  /** What was dequeued, and then what is in the queue, are the real nodes in the order of their linking. */
  lemma FirstInFirstOut(r: seq<State>, i: nat)
    requires Run(r) && i < |r| && !r[i].early
    ensures r[i].taken <= |r[i].order| && r[i].out + Contents(r[i]) == Real(r[i].order)
  {
    RunInv(r, i);
    var s := r[i];
    assert s.order == s.order[..s.taken] + s.order[s.taken..];
    RealConcat(s.order[..s.taken], s.order[s.taken..]);
  }

  /** No node is in the queue twice, nor is a node in it that could be reclaimed. */
  lemma NoNodeTwice(r: seq<State>, i: nat, j: nat, k: nat)
    requires Run(r) && i < |r| && !r[i].early && j < k < |r[i].order| && j !in r[i].gone && k !in r[i].gone
    ensures r[i].order[j].node != r[i].order[k].node
  {
    RunInv(r, i);
    assert LinkedAt(r[i], r[i].order[j].node, j) && LinkedAt(r[i], r[i].order[k].node, k);
  }

  lemma StepOnward(s: State, s': State)
    requires Moves(s, s')
    ensures s.order <= s'.order && s.out <= s'.out
  {
  }

  /** The order of linking is never rewritten, nor is what was returned. */
  lemma {:induction false} NeverRewritten(r: seq<State>, i: nat, j: nat)
    requires Run(r) && i <= j < |r|
    ensures r[i].order <= r[j].order && r[i].out <= r[j].out
  {
    hide Moves;
    if i < j {
      NeverRewritten(r, i, j - 1);
      StepOnward(r[j - 1], r[j]);
    }
  }

  /** After adding a dummy a dequeuer does find a successor: the step is never stuck on NULL. */
  lemma ReloadFindsSuccessor(r: seq<State>, i: nat, t: Tid)
    requires Run(r) && i < |r| && !r[i].early && t < |r[i].pcs| && r[i].pcs[t].Reload?
    ensures NextOf(r[i], r[i].pcs[t].head).To?
  {
    RunInv(r, i);
    assert PcInv(r[i], t);
    assert NodeInv(r[i], r[i].pcs[t].head);
  }

  /** If the head has passed the node the tail points to, the enqueuer that linked past it is still in its operation. */
  lemma TailHeldByLinker(r: seq<State>, i: nat, k: nat)
    requires Run(r) && i < |r| && !r[i].early
    requires k < r[i].taken && k < |r[i].order| && k !in r[i].gone && r[i].tail == r[i].order[k].node
    ensures exists t :: 0 <= t < |r[i].pcs| && Linker(r[i], r[i].pcs[t])
  {
    RunInv(r, i);
    assert LinkedAt(r[i], r[i].order[k].node, k);
  }

  /** No thread has a pointer to memory that was reclaimed, and neither has the queue. */
  lemma NothingFreedIsUsed(r: seq<State>, i: nat, t: Tid, p: Nid)
    requires Run(r) && i < |r| && !r[i].early && t < |r[i].pcs|
    requires p in Held(r[i].pcs[t]) || p == r[i].head || p == r[i].tail
    ensures IsLinked(r[i], p)
  {
    RunInv(r, i);
    assert PcInv(r[i], t);
    assert LinkedAt(r[i], r[i].head, r[i].taken);
  }
}
