/**
 The wait-free concurrent queue: enqueue exchanges the tail and links the
 node afterwards, one dequeuer or splicer at a time works on a queue under its
 lock, and a splice moves a whole queue to the end of another. Every shared
 load, store, xchg and cmpxchg is one step of one of any number of threads.
 */
module WfcQueue {

  type Tid = nat
  type Qid = nat
  type Nid = nat

  // struct cds_wfcq_node *, as stored in a next field
  datatype Ptr = Null | To(node: Nid)
  /** A cell with a next field: the head node of a queue, or a node. A tail points to one. */
  datatype Cell = HeadOf(q: Qid) | NodeOf(n: Nid)

  datatype Owner = Nobody | By(t: Tid)
  datatype Home = Free | In(q: Qid) | With(t: Tid)

  /**
   `content` is the queue in the order of the tail exchanges, `added` all nodes
   ever appended to it, and `taken` all nodes that dequeues returned or splices
   took: records for the proof.
   */
  datatype Queue = Queue(
    next: Ptr, tail: Cell, lock: Owner,
    content: seq<Nid>, added: seq<Nid>, taken: seq<Nid>)
  datatype Node = Node(next: Ptr, home: Home)

  datatype Ret = None | Empty | NotEmpty | WouldBlock | Got(node: Nid, last: bool) | Appended(wasNonEmpty: bool)

  /** What the emptiness test is for: `cds_wfcq_empty` itself, a dequeue, or a splice. */
  datatype Op = Check | Dequeue | Splice(dest: Qid)

  /** One program point per shared access, named after it. */
  datatype Pc =
    | Idle(ret: Ret)
    | Append(q: Qid, first: Nid, last: Nid)
    | Link(prior: Cell, first: Nid, nonEmpty: bool)
    | TestHead(q: Qid, op: Op)
    | TestTail(q: Qid, op: Op)
    | SyncHead(q: Qid)
    | LoadNext(q: Qid, node: Nid)
    | ClearHead(q: Qid, node: Nid)
    | MoveTail(q: Qid, node: Nid)
    | SyncNext(q: Qid, node: Nid)
    | Restore(q: Qid, node: Nid)
    | Advance(q: Qid, node: Nid, next: Nid)
    | TakeHead(q: Qid, dest: Qid)
    | TestAgain(q: Qid, dest: Qid)
    | TakeTail(q: Qid, dest: Qid, first: Nid)

  /** `batch`: the nodes the thread is about to append. */
  datatype Thread = Thread(pc: Pc, batch: seq<Nid>)

  /** `owed` records which thread still has to link the successor of a cell. */
  datatype State = State(queues: seq<Queue>, nodes: seq<Node>, threads: seq<Thread>, owed: map<Cell, Tid>)

  predicate Init(s: State) {
    && s.owed == map[]
    && (forall q :: 0 <= q < |s.queues| ==> s.queues[q] == Queue(Null, HeadOf(q), Nobody, [], [], []))
    && (forall n :: 0 <= n < |s.nodes| ==> s.nodes[n].home == Free)
    && (forall t :: 0 <= t < |s.threads| ==> s.threads[t] == Thread(Idle(None), []))
  }

  // ---------- steps ----------

  function Next(s: State, c: Cell): Ptr {
    match c
    case HeadOf(q) => if q < |s.queues| then s.queues[q].next else Null
    case NodeOf(n) => if n < |s.nodes| then s.nodes[n].next else Null
  }

  function SetQueue(s: State, q: Qid, v: Queue): State
    requires q < |s.queues|
  {
    s.(queues := s.queues[q := v])
  }

  function SetNode(s: State, n: Nid, v: Node): State
    requires n < |s.nodes|
  {
    s.(nodes := s.nodes[n := v])
  }

  function SetNext(s: State, c: Cell, p: Ptr): State {
    match c
    case HeadOf(q) => if q < |s.queues| then SetQueue(s, q, s.queues[q].(next := p)) else s
    case NodeOf(n) => if n < |s.nodes| then SetNode(s, n, s.nodes[n].(next := p)) else s
  }

  /** All of `b` change hands. */
  function Rehome(nodes: seq<Node>, b: seq<Nid>, home: Home): seq<Node> {
    seq(|nodes|, n requires 0 <= n < |nodes| => if n in b then nodes[n].(home := home) else nodes[n])
  }

  function Go(s: State, t: Tid, pc: Pc): State
    requires t < |s.threads|
  {
    s.(threads := s.threads[t := s.threads[t].(pc := pc)])
  }

  predicate Runs(s: State, t: Tid) { t < |s.threads| }

  /** `cds_wfcq_enqueue` of a node nobody uses; its next field is initialised to NULL. */
  predicate StartEnqueue(s: State, s': State, t: Tid, n: Nid, q: Qid) {
    && Runs(s, t) && s.threads[t].pc.Idle? && n < |s.nodes| && s.nodes[n].home == Free && q < |s.queues|
    && s' == SetNode(s, n, Node(Null, With(t))).(threads := s.threads[t := Thread(Append(q, n, n), [n])])
  }

  /** The xchg of `___cds_wfcq_append`. */
  predicate AppendXchg(s: State, s': State, t: Tid) {
    && Runs(s, t) && s.threads[t].pc.Append? && s.threads[t].pc.q < |s.queues|
    && var pc := s.threads[t].pc;
    && var v := s.queues[pc.q];
    && var b := s.threads[t].batch;
    && s' == State(
               s.queues[pc.q := v.(tail := NodeOf(pc.last), content := v.content + b, added := v.added + b)],
               Rehome(s.nodes, b, In(pc.q)),
               s.threads[t := Thread(Link(v.tail, pc.first, v.tail != HeadOf(pc.q)), [])],
               s.owed[v.tail := t])
  }

  /** Its store to the next field of the old tail. */
  predicate LinkStore(s: State, s': State, t: Tid) {
    && Runs(s, t) && s.threads[t].pc.Link?
    && var pc := s.threads[t].pc;
    && s' == SetNext(Go(s, t, Idle(Appended(pc.nonEmpty))), pc.prior, To(pc.first)).(owed := s.owed - {pc.prior})
  }

  /** Dequeue and splice start under the lock of the queue, the emptiness test without. */
  predicate Start(s: State, s': State, t: Tid, q: Qid, op: Op) {
    && Runs(s, t) && s.threads[t].pc.Idle? && q < |s.queues| && (op.Splice? ==> op.dest < |s.queues|)
    && if op.Check? then s' == Go(s, t, TestHead(q, op))
       else s.queues[q].lock.Nobody? && s' == SetQueue(Go(s, t, TestHead(q, op)), q, s.queues[q].(lock := By(t)))
  }

  /** The operation ends without effect on the queue; it releases the lock it holds. */
  function GiveUp(s: State, t: Tid, q: Qid, op: Op, ret: Ret): State
    requires t < |s.threads| && q < |s.queues|
  {
    if op.Check? then Go(s, t, Idle(ret)) else SetQueue(Go(s, t, Idle(ret)), q, s.queues[q].(lock := Nobody))
  }

  function NonEmpty(q: Qid, op: Op): Pc {
    match op case Check => Idle(NotEmpty) case Dequeue => SyncHead(q) case Splice(dest) => TakeHead(q, dest)
  }

  // _cds_wfcq_empty

  predicate LoadHead(s: State, s': State, t: Tid) {
    && Runs(s, t) && s.threads[t].pc.TestHead? && s.threads[t].pc.q < |s.queues|
    && var pc := s.threads[t].pc;
    && s' == Go(s, t, if s.queues[pc.q].next == Null then TestTail(pc.q, pc.op) else NonEmpty(pc.q, pc.op))
  }

  predicate LoadTail(s: State, s': State, t: Tid) {
    && Runs(s, t) && s.threads[t].pc.TestTail? && s.threads[t].pc.q < |s.queues|
    && var pc := s.threads[t].pc;
    && s' == if s.queues[pc.q].tail == HeadOf(pc.q) then GiveUp(s, t, pc.q, pc.op, Empty)
             else Go(s, t, NonEmpty(pc.q, pc.op))
  }

  // ___cds_wfcq_dequeue_with_state

  /** `___cds_wfcq_node_sync_next` on the head; a nonblocking caller may give up. */
  predicate AwaitHead(s: State, s': State, t: Tid) {
    && Runs(s, t) && s.threads[t].pc.SyncHead? && s.threads[t].pc.q < |s.queues|
    && var q := s.threads[t].pc.q;
    && match s.queues[q].next
       case To(n) => s' == Go(s, t, LoadNext(q, n))
       case Null => s' == GiveUp(s, t, q, Dequeue, WouldBlock)
  }

  predicate ReadNext(s: State, s': State, t: Tid) {
    && Runs(s, t) && s.threads[t].pc.LoadNext?
    && var pc := s.threads[t].pc;
    && match Next(s, NodeOf(pc.node))
       case To(n) => s' == Go(s, t, Advance(pc.q, pc.node, n))
       case Null => s' == Go(s, t, ClearHead(pc.q, pc.node))
  }

  predicate StoreNull(s: State, s': State, t: Tid) {
    && Runs(s, t) && s.threads[t].pc.ClearHead?
    && var pc := s.threads[t].pc;
    && s' == SetNext(Go(s, t, MoveTail(pc.q, pc.node)), HeadOf(pc.q), Null)
  }

  /** The dequeue returns `n`, and the first node of the queue leaves. */
  function Removed(s: State, t: Tid, q: Qid, v: Queue, n: Nid, last: bool): State
    requires t < |s.threads| && q < |s.queues|
  {
    if v.content == [] then s else
    State(s.queues[q := v.(lock := Nobody, content := v.content[1..], taken := v.taken + [n])],
          Rehome(s.nodes, [v.content[0]], Free),
          s.threads[t := Thread(Idle(Got(n, last)), s.threads[t].batch)], s.owed)
  }

  predicate CasTail(s: State, s': State, t: Tid) {
    && Runs(s, t) && s.threads[t].pc.MoveTail? && s.threads[t].pc.q < |s.queues|
    && var pc := s.threads[t].pc;
    && var v := s.queues[pc.q];
    && s' == if v.tail == NodeOf(pc.node) then Removed(s, t, pc.q, v.(tail := HeadOf(pc.q)), pc.node, true)
             else Go(s, t, SyncNext(pc.q, pc.node))
  }

  predicate AwaitNext(s: State, s': State, t: Tid) {
    && Runs(s, t) && s.threads[t].pc.SyncNext?
    && var pc := s.threads[t].pc;
    && match Next(s, NodeOf(pc.node))
       case To(n) => s' == Go(s, t, Advance(pc.q, pc.node, n))
       case Null => s' == Go(s, t, Restore(pc.q, pc.node))
  }

  predicate RestoreHead(s: State, s': State, t: Tid) {
    && Runs(s, t) && s.threads[t].pc.Restore? && s.threads[t].pc.q < |s.queues|
    && var pc := s.threads[t].pc;
    && s' == SetQueue(Go(s, t, Idle(WouldBlock)), pc.q, s.queues[pc.q].(next := To(pc.node), lock := Nobody))
  }

  predicate AdvanceHead(s: State, s': State, t: Tid) {
    && Runs(s, t) && s.threads[t].pc.Advance? && s.threads[t].pc.q < |s.queues|
    && var pc := s.threads[t].pc;
    && s' == Removed(s, t, pc.q, s.queues[pc.q].(next := To(pc.next)), pc.node, false)
  }

  // ___cds_wfcq_splice

  predicate XchgHead(s: State, s': State, t: Tid) {
    && Runs(s, t) && s.threads[t].pc.TakeHead? && s.threads[t].pc.q < |s.queues|
    && var pc := s.threads[t].pc;
    && match s.queues[pc.q].next
       case To(n) => s' == SetNext(Go(s, t, TakeTail(pc.q, pc.dest, n)), HeadOf(pc.q), Null)
       case Null => s' == Go(s, t, TestAgain(pc.q, pc.dest))
  }

  /** Empty after all; or the first node is about to be linked: try again, or give up when nonblocking. */
  predicate RetryTail(s: State, s': State, t: Tid) {
    && Runs(s, t) && s.threads[t].pc.TestAgain? && s.threads[t].pc.q < |s.queues|
    && var pc := s.threads[t].pc;
    && if s.queues[pc.q].tail == HeadOf(pc.q) then s' == GiveUp(s, t, pc.q, Splice(pc.dest), Empty)
       else s' == Go(s, t, TakeHead(pc.q, pc.dest)) || s' == GiveUp(s, t, pc.q, Splice(pc.dest), WouldBlock)
  }

  predicate XchgTail(s: State, s': State, t: Tid) {
    && Runs(s, t) && s.threads[t].pc.TakeTail? && s.threads[t].pc.q < |s.queues|
    && var pc := s.threads[t].pc;
    && var v := s.queues[pc.q];
    && v.tail.NodeOf?
    && var v' := v.(tail := HeadOf(pc.q), lock := Nobody, content := [], taken := v.taken + v.content);
    && s' == State(s.queues[pc.q := v'],
                   Rehome(s.nodes, v.content, With(t)),
                   s.threads[t := Thread(Append(pc.dest, pc.first, v.tail.n), v.content)], s.owed)
  }

  ghost predicate MoveStep(s: State, s': State, t: Tid) {
    || LoadHead(s, s', t) || LoadTail(s, s', t) || AwaitHead(s, s', t) || ReadNext(s, s', t) || StoreNull(s, s', t)
    || AwaitNext(s, s', t) || RestoreHead(s, s', t) || XchgHead(s, s', t) || RetryTail(s, s', t)
    || (exists q, op :: Start(s, s', t, q, op))
  }

  ghost predicate Step(s: State, s': State, t: Tid) {
    || MoveStep(s, s', t) || (exists n, q :: StartEnqueue(s, s', t, n, q))
    || AppendXchg(s, s', t) || LinkStore(s, s', t)
    || CasTail(s, s', t) || AdvanceHead(s, s', t) || XchgTail(s, s', t)
  }

  ghost predicate Moves(s: State, s': State) { exists t :: Step(s, s', t) }

  ghost predicate Run(r: seq<State>) {
    && |r| > 0 && Init(r[0])
    && forall i :: 0 <= i < |r| - 1 ==> Moves(r[i], r[i + 1])
  }

  // ---------- the invariant ----------

  /** `n` comes after cell `c`: it is linked, or the thread that will link it is known. */
  predicate Edge(s: State, c: Cell, n: Nid) {
    if c in s.owed then
      && Next(s, c) == Null && s.owed[c] < |s.threads|
      && var pc := s.threads[s.owed[c]].pc;
      && pc.Link? && pc.prior == c && pc.first == n
    else Next(s, c) == To(n)
  }

  /** Nothing comes after cell `c`. */
  predicate End(s: State, c: Cell) { c !in s.owed && Next(s, c) == Null }

  ghost predicate Chain(s: State, l: seq<Nid>) {
    && (forall i, j :: 0 <= i < j < |l| && j == i + 1 ==> Edge(s, NodeOf(l[i]), l[j]))
    && (l != [] ==> End(s, NodeOf(l[|l| - 1])))
  }

  ghost predicate Members(s: State, l: seq<Nid>, home: Home) {
    && (forall i :: 0 <= i < |l| ==> l[i] < |s.nodes| && s.nodes[l[i]].home == home)
    && (forall i, j :: 0 <= i < j < |l| ==> l[i] != l[j])
  }

  function Holder(s: State, q: Qid): Pc
    requires q < |s.queues|
  {
    if s.queues[q].lock.By? && s.queues[q].lock.t < |s.threads| then s.threads[s.queues[q].lock.t].pc else Idle(None)
  }

  /** Inside a dequeue or a splice of queue `q`. */
  predicate WorksOn(pc: Pc, q: Qid) {
    !pc.Idle? && !pc.Append? && !pc.Link? && pc.q == q && (pc.TestHead? || pc.TestTail? ==> !pc.op.Check?)
  }

  /** The holder of the lock has taken the first node off the head. */
  predicate HoldsFirst(s: State, q: Qid)
    requires q < |s.queues|
  {
    var pc := Holder(s, q);
    (pc.MoveTail? || pc.SyncNext? || pc.Restore? || pc.Advance? || pc.TakeTail?) && pc.q == q
  }

  function TailOf(q: Qid, l: seq<Nid>): Cell { if l == [] then HeadOf(q) else NodeOf(l[|l| - 1]) }

  predicate HeadInv(s: State, q: Qid)
    requires q < |s.queues|
  {
    var v := s.queues[q];
    if v.content == [] then End(s, HeadOf(q))
    else if HoldsFirst(s, q) then
      HeadOf(q) !in s.owed && (v.next == Null || (Holder(s, q).Advance? && v.next == To(v.content[0])))
    else Edge(s, HeadOf(q), v.content[0])
  }

  ghost predicate QueueInv(s: State, q: Qid)
    requires q < |s.queues|
  {
    var v := s.queues[q];
    && Members(s, v.content, In(q)) && Chain(s, v.content) && v.tail == TailOf(q, v.content) && HeadInv(s, q)
    && (v.lock.By? ==> WorksOn(Holder(s, q), q))
  }

  /** Thread `t` has the lock of `q`, whose first node is `n`. */
  predicate HasFirst(s: State, t: Tid, q: Qid, n: Nid) {
    && q < |s.queues| && s.queues[q].lock == By(t) && s.queues[q].content != [] && s.queues[q].content[0] == n
    && HeadOf(q) !in s.owed
  }

  /** The operation works on existing queues and, unless it only checks, has the lock. */
  predicate Entered(s: State, t: Tid, q: Qid, op: Op) {
    && q < |s.queues| && (op.Splice? ==> op.dest < |s.queues|)
    && (!op.Check? ==> s.queues[q].lock == By(t))
  }

  ghost predicate ThreadInv(s: State, t: Tid)
    requires t < |s.threads|
  {
    var pc := s.threads[t].pc;
    var b := s.threads[t].batch;
    && (!pc.Append? ==> b == [])
    && match pc
       case Idle(_) => true
       case Append(q, first, last) =>
         && q < |s.queues| && b != [] && first == b[0] && last == b[|b| - 1]
         && Members(s, b, With(t)) && Chain(s, b)
       case Link(prior, _, _) => prior in s.owed && s.owed[prior] == t
       case TestHead(q, op) => Entered(s, t, q, op)
       case TestTail(q, op) => Entered(s, t, q, op)
       case SyncHead(q) => q < |s.queues| && s.queues[q].lock == By(t) && s.queues[q].content != []
       case LoadNext(q, n) => HasFirst(s, t, q, n) && s.queues[q].next == To(n)
       case ClearHead(q, n) => HasFirst(s, t, q, n) && s.queues[q].next == To(n)
       case MoveTail(q, n) => HasFirst(s, t, q, n)
       case SyncNext(q, n) => HasFirst(s, t, q, n) && |s.queues[q].content| > 1
       case Restore(q, n) => HasFirst(s, t, q, n) && |s.queues[q].content| > 1
       case Advance(q, n, m) =>
         && HasFirst(s, t, q, n) && |s.queues[q].content| > 1 && s.queues[q].content[1] == m
         && NodeOf(n) !in s.owed && Next(s, NodeOf(n)) == To(m)
       case TakeHead(q, dest) => Entered(s, t, q, Splice(dest)) && s.queues[q].content != []
       case TestAgain(q, dest) => Entered(s, t, q, Splice(dest)) && s.queues[q].content != []
       case TakeTail(q, dest, n) => HasFirst(s, t, q, n) && dest < |s.queues|
  }

  predicate OwedInv(s: State, c: Cell)
    requires c in s.owed
  {
    && s.owed[c] < |s.threads| && s.threads[s.owed[c]].pc.Link? && s.threads[s.owed[c]].pc.prior == c
    && (c.NodeOf? ==> c.n < |s.nodes| && s.nodes[c.n].home != Free)
    && (c.HeadOf? ==> c.q < |s.queues|)
  }

  ghost predicate Inv(s: State) {
    && (forall q :: 0 <= q < |s.queues| ==> QueueInv(s, q))
    && (forall t :: 0 <= t < |s.threads| ==> ThreadInv(s, t))
    && (forall c :: c in s.owed ==> OwedInv(s, c))
  }

  lemma InitInv(s: State)
    requires Init(s)
    ensures Inv(s)
  {
  }

  // ---------- frames ----------

  predicate SameSize(s: State, s': State) {
    |s'.queues| == |s.queues| && |s'.nodes| == |s.nodes| && |s'.threads| == |s.threads|
  }

  predicate SameCell(s: State, s': State, c: Cell) {
    && Next(s', c) == Next(s, c)
    && (c in s.owed <==> c in s'.owed)
    && (c in s.owed ==> s'.owed[c] == s.owed[c] && s.owed[c] < |s.threads| == |s'.threads|
                        && s'.threads[s.owed[c]].pc == s.threads[s.owed[c]].pc)
  }

  predicate SameNode(s: State, s': State, n: Nid) {
    && n < |s.nodes| == |s'.nodes| && s'.nodes[n].home == s.nodes[n].home && SameCell(s, s', NodeOf(n))
  }

  lemma ChainKept(s: State, s': State, l: seq<Nid>, home: Home)
    requires Members(s, l, home) && Chain(s, l)
    requires forall i :: 0 <= i < |l| ==> SameNode(s, s', l[i])
    ensures Members(s', l, home) && Chain(s', l)
  {
  }

  ghost predicate QueueFrame(s: State, s': State, q: Qid)
    requires q < |s.queues| == |s'.queues|
  {
    && s'.queues[q] == s.queues[q] && Holder(s', q) == Holder(s, q) && SameCell(s, s', HeadOf(q))
    && forall i :: 0 <= i < |s.queues[q].content| ==> SameNode(s, s', s.queues[q].content[i])
  }

  lemma QueueKept(s: State, s': State, q: Qid)
    requires SameSize(s, s') && q < |s.queues| && QueueInv(s, q) && QueueFrame(s, s', q)
    ensures QueueInv(s', q)
  {
    ChainKept(s, s', s.queues[q].content, In(q));
  }

  /** The queue keeps what the holder of its lock relies on: nodes may only be added behind it. */
  ghost predicate LockFrame(s: State, s': State, q: Qid) {
    && q < |s.queues| == |s'.queues|
    && var v, v' := s.queues[q], s'.queues[q];
    && v'.lock == v.lock && v'.next == v.next && |v.content| <= |v'.content|
    && (forall i :: 0 <= i < |v.content| ==> v'.content[i] == v.content[i])
    && (v.content != [] ==> HeadOf(q) in s'.owed ==> HeadOf(q) in s.owed)
  }

  ghost predicate ThreadFrame(s: State, s': State, t: Tid)
    requires t < |s.threads| == |s'.threads|
  {
    var pc := s.threads[t].pc;
    && s'.threads[t] == s.threads[t]
    && (forall i :: 0 <= i < |s.threads[t].batch| ==> SameNode(s, s', s.threads[t].batch[i]))
    && (pc.Link? ==> pc.prior in s.owed ==> pc.prior in s'.owed && s'.owed[pc.prior] == s.owed[pc.prior])
    && (!pc.Append? && !pc.Link? && !pc.Idle? ==>
          (pc.q < |s.queues| && s.queues[pc.q].lock == By(t) ==> LockFrame(s, s', pc.q)))
    && (pc.Advance? ==> SameCell(s, s', NodeOf(pc.node)))
  }

  lemma ThreadKept(s: State, s': State, t: Tid)
    requires SameSize(s, s') && t < |s.threads| && ThreadInv(s, t) && ThreadFrame(s, s', t)
    ensures ThreadInv(s', t)
  {
    if s.threads[t].pc.Append? { ChainKept(s, s', s.threads[t].batch, With(t)); }
    hide Chain, Members;
  }

  /** A step keeps the invariant if each queue and each thread is aside or is accounted for. */
  lemma StepInv(s: State, s': State)
    requires Inv(s) && SameSize(s, s')
    requires forall q :: 0 <= q < |s.queues| ==> QueueFrame(s, s', q) || QueueInv(s', q)
    requires forall t :: 0 <= t < |s.threads| ==> ThreadFrame(s, s', t) || ThreadInv(s', t)
    requires forall c :: c in s'.owed ==> OwedInv(s', c)
    ensures Inv(s')
  {
    hide QueueFrame, QueueInv, ThreadFrame, ThreadInv, OwedInv;
    forall q | 0 <= q < |s'.queues|
      ensures QueueInv(s', q)
    {
      if QueueFrame(s, s', q) { QueueKept(s, s', q); }
    }
    forall t | 0 <= t < |s'.threads|
      ensures ThreadInv(s', t)
    {
      if ThreadFrame(s, s', t) { ThreadKept(s, s', t); }
    }
  }

  // ---------- steps that move one thread ----------

  /** Only the thread and the head and lock of its queue may change. */
  ghost predicate Local(s: State, s': State, t: Tid, q: Qid) {
    && SameSize(s, s') && t < |s.threads| && q < |s.queues| && !s.threads[t].pc.Link?
    && (forall p :: WorksOn(s.threads[t].pc, p) ==> p == q)
    && s' == State(s.queues[q := s'.queues[q]], s.nodes, s.threads[t := s'.threads[t]], s.owed)
  }

  lemma LocalInv(s: State, s': State, t: Tid, q: Qid)
    requires Inv(s) && Local(s, s', t, q)
    requires s'.queues[q].content == s.queues[q].content && s'.queues[q].tail == s.queues[q].tail
    requires HeadInv(s', q) && ThreadInv(s', t) && (s'.queues[q].lock.By? ==> WorksOn(Holder(s', q), q))
    requires s'.queues[q] != s.queues[q] ==> s.queues[q].lock == Nobody || s.queues[q].lock == By(t)
    ensures Inv(s')
  {
    assert QueueInv(s, q);
    forall n | 0 <= n < |s.nodes|
      ensures SameNode(s, s', n)
    {
      if NodeOf(n) in s.owed { assert OwedInv(s, NodeOf(n)); }
    }
    ChainKept(s, s', s.queues[q].content, In(q));
    forall p | 0 <= p < |s.queues| && p != q
      ensures QueueFrame(s, s', p)
    {
      assert QueueInv(s, p);
      if HeadOf(p) in s.owed { assert OwedInv(s, HeadOf(p)); }
    }
    forall u | 0 <= u < |s.threads| && u != t
      ensures ThreadFrame(s, s', u)
    {
      assert ThreadInv(s, u);
    }
    forall c | c in s'.owed
      ensures OwedInv(s', c)
    {
      assert OwedInv(s, c);
    }
    hide ThreadInv, Chain, Members, HeadInv;
    StepInv(s, s');
  }

  lemma TestInv(s: State, s': State, t: Tid)
    requires Inv(s) && (LoadHead(s, s', t) || LoadTail(s, s', t))
    ensures Inv(s')
  {
    var q := s.threads[t].pc.q;
    assert QueueInv(s, q) && ThreadInv(s, t);
    LocalInv(s, s', t, q);
  }

  lemma StartInv(s: State, s': State, t: Tid, q: Qid, op: Op)
    requires Inv(s) && Start(s, s', t, q, op)
    ensures Inv(s')
  {
    assert QueueInv(s, q) && ThreadInv(s, t);
    LocalInv(s, s', t, q);
  }

  lemma ReadInv(s: State, s': State, t: Tid)
    requires Inv(s) && (AwaitHead(s, s', t) || ReadNext(s, s', t) || AwaitNext(s, s', t))
    ensures Inv(s')
  {
    var q := s.threads[t].pc.q;
    assert ThreadInv(s, t);
    assert QueueInv(s, q);
    LocalInv(s, s', t, q);
  }

  lemma HeadStoreInv(s: State, s': State, t: Tid)
    requires Inv(s) && (StoreNull(s, s', t) || RestoreHead(s, s', t))
    ensures Inv(s')
  {
    var q := s.threads[t].pc.q;
    assert ThreadInv(s, t);
    assert QueueInv(s, q);
    LocalInv(s, s', t, q);
  }

  lemma TakeInv(s: State, s': State, t: Tid)
    requires Inv(s) && (XchgHead(s, s', t) || RetryTail(s, s', t))
    ensures Inv(s')
  {
    var q := s.threads[t].pc.q;
    assert ThreadInv(s, t);
    assert QueueInv(s, q);
    LocalInv(s, s', t, q);
  }

  // ---------- steps that move nodes ----------

  lemma StartEnqueueInv(s: State, s': State, t: Tid, n: Nid, q: Qid)
    requires Inv(s) && StartEnqueue(s, s', t, n, q)
    ensures Inv(s')
  {
    assert ThreadInv(s, t);
    assert NodeOf(n) !in s.owed;
    forall m | 0 <= m < |s.nodes| && m != n
      ensures SameNode(s, s', m)
    {
      if NodeOf(m) in s.owed { assert OwedInv(s, NodeOf(m)); }
    }
    forall p | 0 <= p < |s.queues|
      ensures QueueFrame(s, s', p)
    {
      assert QueueInv(s, p);
      if HeadOf(p) in s.owed { assert OwedInv(s, HeadOf(p)); }
    }
    forall u | 0 <= u < |s.threads| && u != t
      ensures ThreadFrame(s, s', u)
    {
      assert ThreadInv(s, u);
      if s.threads[u].pc.Advance? { assert QueueInv(s, s.threads[u].pc.q); }
    }
    forall c | c in s'.owed
      ensures OwedInv(s', c)
    {
      assert OwedInv(s, c);
    }
    StepInv(s, s');
  }

  lemma LinkStoreInv(s: State, s': State, t: Tid)
    requires Inv(s) && LinkStore(s, s', t)
    ensures Inv(s')
  {
    assert ThreadInv(s, t);
    forall q | 0 <= q < |s.queues|
      ensures QueueInv(s', q)
    {
      assert QueueInv(s, q);
      LinkChain(s, s', t, s.queues[q].content, In(q));
      LinkHead(s, s', t, q);
    }
    forall u | 0 <= u < |s.threads|
      ensures ThreadInv(s', u)
    {
      assert ThreadInv(s, u);
      if s.threads[u].pc.Append? { LinkChain(s, s', t, s.threads[u].batch, With(u)); }
      LinkThread(s, s', t, u);
    }
    forall c | c in s'.owed
      ensures OwedInv(s', c)
    {
      assert OwedInv(s, c);
    }
  }

  lemma LinkEdge(s: State, s': State, t: Tid, c: Cell, n: Nid)
    requires LinkStore(s, s', t) && ThreadInv(s, t) && Edge(s, c, n)
    requires (c.HeadOf? ==> c.q < |s.queues|) && (c.NodeOf? ==> c.n < |s.nodes|)
    ensures Edge(s', c, n)
  {
  }

  lemma LinkChain(s: State, s': State, t: Tid, l: seq<Nid>, home: Home)
    requires LinkStore(s, s', t) && ThreadInv(s, t) && Members(s, l, home) && Chain(s, l)
    ensures Members(s', l, home) && Chain(s', l)
  {
    forall i, j | 0 <= i < j < |l| && j == i + 1
      ensures Edge(s', NodeOf(l[i]), l[j])
    {
      LinkEdge(s, s', t, NodeOf(l[i]), l[j]);
    }
  }

  lemma LinkHead(s: State, s': State, t: Tid, q: Qid)
    requires LinkStore(s, s', t) && ThreadInv(s, t) && q < |s.queues| && QueueInv(s, q)
    ensures HeadInv(s', q) && s'.queues[q].tail == s.queues[q].tail && s'.queues[q].content == s.queues[q].content
    ensures s'.queues[q].lock.By? ==> WorksOn(Holder(s', q), q)
  {
    if s.queues[q].content != [] && !HoldsFirst(s, q) { LinkEdge(s, s', t, HeadOf(q), s.queues[q].content[0]); }
  }

  lemma LinkThread(s: State, s': State, t: Tid, u: Tid)
    requires LinkStore(s, s', t) && ThreadInv(s, t) && u < |s.threads| && ThreadInv(s, u)
    requires s.threads[u].pc.Append? ==> Members(s', s.threads[u].batch, With(u)) && Chain(s', s.threads[u].batch)
    ensures ThreadInv(s', u)
  {
    hide Chain, Members;
  }

  lemma AppendInv(s: State, s': State, t: Tid)
    requires Inv(s) && AppendXchg(s, s', t)
    ensures Inv(s')
  {
    var q := s.threads[t].pc.q;
    assert ThreadInv(s, t) && QueueInv(s, q);
    AppendQueue(s, s', t);
    forall p | 0 <= p < |s.queues| && p != q
      ensures QueueFrame(s, s', p)
    {
      assert QueueInv(s, p);
      AppendOther(s, s', t, p);
    }
    forall u | 0 <= u < |s.threads| && u != t
      ensures ThreadFrame(s, s', u)
    {
      assert ThreadInv(s, u);
      AppendThread(s, s', t, u);
    }
    forall c | c in s'.owed
      ensures OwedInv(s', c)
    {
      if c in s.owed { assert OwedInv(s, c); }
    }
    hide QueueInv, QueueFrame, ThreadFrame, OwedInv;
    StepInv(s, s');
  }

  /**
   After the exchange: the old tail is owed its successor, other cells are as
   before, and the batch is in the queue.
   */
  lemma AppendCells(s: State, s': State, t: Tid, n: Nid)
    requires AppendXchg(s, s', t) && ThreadInv(s, t) && QueueInv(s, s.threads[t].pc.q) && n < |s.nodes|
    requires forall c :: c in s.owed ==> OwedInv(s, c)
    ensures var q, v := s.threads[t].pc.q, s.queues[s.threads[t].pc.q];
            && (n in s.threads[t].batch ==> s'.nodes[n].home == In(q) && SameCell(s, s', NodeOf(n)))
            && (n !in s.threads[t].batch ==> s'.nodes[n].home == s.nodes[n].home)
            && (n !in s.threads[t].batch && NodeOf(n) != v.tail ==> SameCell(s, s', NodeOf(n)))
  {
    var v := s.queues[s.threads[t].pc.q];
    if n in s.threads[t].batch {
      assert s.nodes[n].home == With(t);
      if v.content != [] { assert s.nodes[v.content[|v.content| - 1]].home != With(t); }
      assert NodeOf(n) != v.tail;
    }
  }

  lemma AppendOld(s: State, s': State, t: Tid)
    requires AppendXchg(s, s', t) && ThreadInv(s, t) && QueueInv(s, s.threads[t].pc.q)
    ensures Edge(s', s.queues[s.threads[t].pc.q].tail, s.threads[t].batch[0])
  {
    assert End(s, s.queues[s.threads[t].pc.q].tail);
  }

  lemma AppendMembers(s: State, s': State, t: Tid)
    requires AppendXchg(s, s', t) && ThreadInv(s, t) && QueueInv(s, s.threads[t].pc.q)
    requires forall c :: c in s.owed ==> OwedInv(s, c)
    ensures Members(s', s.queues[s.threads[t].pc.q].content + s.threads[t].batch, In(s.threads[t].pc.q))
  {
    hide Chain, SameCell;
  }

  lemma AppendChain(s: State, s': State, t: Tid)
    requires AppendXchg(s, s', t) && ThreadInv(s, t) && QueueInv(s, s.threads[t].pc.q)
    requires forall c :: c in s.owed ==> OwedInv(s, c)
    ensures Chain(s', s.queues[s.threads[t].pc.q].content + s.threads[t].batch)
  {
    var c, b := s.queues[s.threads[t].pc.q].content, s.threads[t].batch;
    var l := c + b;
    AppendOld(s, s', t);
    forall i, j | 0 <= i < j < |l| && j == i + 1
      ensures Edge(s', NodeOf(l[i]), l[j])
    {
      AppendCells(s, s', t, l[i]);
      if j < |c| {
        assert Edge(s, NodeOf(c[i]), c[j]);
        assert c[i] !in b;
        assert c[i] != c[|c| - 1];
      } else if i >= |c| {
        assert Edge(s, NodeOf(b[i - |c|]), b[j - |c|]);
      }
    }
    AppendCells(s, s', t, l[|l| - 1]);
  }

  lemma AppendQueue(s: State, s': State, t: Tid)
    requires AppendXchg(s, s', t) && ThreadInv(s, t) && QueueInv(s, s.threads[t].pc.q)
    requires forall c :: c in s.owed ==> OwedInv(s, c)
    requires var l := s.queues[s.threads[t].pc.q].lock; l.By? && l.t < |s.threads| ==> ThreadInv(s, l.t)
    ensures QueueInv(s', s.threads[t].pc.q)
  {
    AppendMembers(s, s', t);
    AppendChain(s, s', t);
    AppendOld(s, s', t);
    var q := s.threads[t].pc.q;
    hide Members, Chain;
    if HeadOf(q) in s.owed { assert OwedInv(s, HeadOf(q)); }
    assert Holder(s', q) == Holder(s, q);
    assert HeadInv(s', q);
  }

  lemma AppendOther(s: State, s': State, t: Tid, p: Qid)
    requires AppendXchg(s, s', t) && ThreadInv(s, t) && QueueInv(s, s.threads[t].pc.q)
    requires p < |s.queues| && p != s.threads[t].pc.q && QueueInv(s, p)
    requires forall c :: c in s.owed ==> OwedInv(s, c)
    ensures QueueFrame(s, s', p)
  {
  }

  lemma AppendThread(s: State, s': State, t: Tid, u: Tid)
    requires AppendXchg(s, s', t) && ThreadInv(s, t) && QueueInv(s, s.threads[t].pc.q)
    requires u < |s.threads| && u != t && ThreadInv(s, u)
    requires forall c :: c in s.owed ==> OwedInv(s, c)
    ensures ThreadFrame(s, s', u)
  {
  }

  // ---------- steps that take nodes out ----------

  /** The thread takes `b`, the first nodes of its queue, out of it and leaves `rest`. */
  predicate Takes(s: State, s': State, t: Tid, q: Qid, b: seq<Nid>, rest: seq<Nid>, home: Home) {
    && SameSize(s, s') && t < |s.threads| && q < |s.queues| && s.queues[q].lock == By(t)
    && s.queues[q].content == b + rest && s'.queues[q].content == rest && s'.queues[q].lock == Nobody
    && s' == State(s.queues[q := s'.queues[q]], Rehome(s.nodes, b, home), s.threads[t := s'.threads[t]], s.owed)
  }

  lemma TakesNodes(s: State, s': State, t: Tid, q: Qid, b: seq<Nid>, rest: seq<Nid>, home: Home, n: Nid)
    requires Takes(s, s', t, q, b, rest, home) && n < |s.nodes| && !s.threads[t].pc.Link?
    requires NodeOf(n) in s.owed ==> OwedInv(s, NodeOf(n))
    ensures SameCell(s, s', NodeOf(n)) && (n !in b ==> SameNode(s, s', n)) && (n in b ==> s'.nodes[n].home == home)
  {
  }

  lemma TakesChain(s: State, s': State, l: seq<Nid>, b: seq<Nid>, rest: seq<Nid>, home: Home, home': Home)
    requires Members(s, l, home) && Chain(s, l) && l == b + rest
    requires forall i :: 0 <= i < |rest| ==> SameNode(s, s', rest[i])
    requires forall i :: 0 <= i < |b| ==>
             b[i] < |s'.nodes| && SameCell(s, s', NodeOf(b[i])) && s'.nodes[b[i]].home == home'
    ensures Members(s', rest, home) && Chain(s', rest)
    ensures rest == [] ==> Members(s', b, home') && Chain(s', b)
  {
    forall i | 0 <= i < |b|
      ensures l[i] == b[i]
    {
    }
    forall i | 0 <= i < |rest|
      ensures l[|b| + i] == rest[i]
    {
    }
    forall i, j | 0 <= i < j < |rest| && j == i + 1
      ensures Edge(s', NodeOf(rest[i]), rest[j])
    {
      assert Edge(s, NodeOf(l[|b| + i]), l[|b| + j]);
    }
    if rest == [] { assert l == b; }
  }

  /** Nodes of other queues and batches stay as they are. */
  lemma TakesAway(s: State, s': State, t: Tid, q: Qid, b: seq<Nid>, rest: seq<Nid>, home: Home,
      l: seq<Nid>, home': Home)
    requires Takes(s, s', t, q, b, rest, home) && WorksOn(s.threads[t].pc, q)
    requires Members(s, b + rest, In(q)) && Members(s, l, home') && home' != In(q)
    requires forall c :: c in s.owed ==> OwedInv(s, c)
    ensures forall i :: 0 <= i < |l| ==> SameNode(s, s', l[i])
  {
    Apart(s, l, home', b + rest, In(q));
    hide Takes, SameNode, SameCell, Members;
    forall i | 0 <= i < |l|
      ensures SameNode(s, s', l[i])
    {
      assert l[i] !in b + rest;
      MemberBound(s, l, home', i);
      TakesNodes(s, s', t, q, b, rest, home, l[i]);
    }
  }

  lemma MemberBound(s: State, l: seq<Nid>, home: Home, i: nat)
    requires Members(s, l, home) && i < |l|
    ensures l[i] < |s.nodes| && s.nodes[l[i]].home == home
  {
  }

  lemma TakesOther(s: State, s': State, t: Tid, q: Qid, b: seq<Nid>, rest: seq<Nid>, home: Home, p: Qid)
    requires Takes(s, s', t, q, b, rest, home) && WorksOn(s.threads[t].pc, q) && QueueInv(s, q)
    requires forall c :: c in s.owed ==> OwedInv(s, c)
    requires p < |s.queues| && p != q && QueueInv(s, p)
    ensures QueueFrame(s, s', p)
  {
    TakesAway(s, s', t, q, b, rest, home, s.queues[p].content, In(p));
    hide Chain, Members, HeadInv, SameNode, Rehome;
    assert s'.queues[p] == s.queues[p];
    assert Holder(s', p) == Holder(s, p);
    if HeadOf(p) in s.owed { assert OwedInv(s, HeadOf(p)); }
  }

  lemma TakesLock(s: State, s': State, t: Tid, q: Qid, b: seq<Nid>, rest: seq<Nid>, home: Home, p: Qid, u: Tid)
    requires Takes(s, s', t, q, b, rest, home) && u != t && p < |s.queues| && s.queues[p].lock == By(u)
    ensures LockFrame(s, s', p)
  {
    hide Rehome;
  }

  lemma TakesThread(s: State, s': State, t: Tid, q: Qid, b: seq<Nid>, rest: seq<Nid>, home: Home, u: Tid)
    requires Takes(s, s', t, q, b, rest, home) && WorksOn(s.threads[t].pc, q) && QueueInv(s, q)
    requires forall c :: c in s.owed ==> OwedInv(s, c)
    requires u < |s.threads| && u != t && ThreadInv(s, u)
    requires s.threads[u].pc.Advance? ==> s.threads[u].pc.q < |s.queues| && QueueInv(s, s.threads[u].pc.q)
    ensures ThreadFrame(s, s', u)
  {
    hide Chain, Members, HeadInv, SameNode, SameCell, Rehome, OwedInv, LockFrame;
    var pc := s.threads[u].pc;
    assert s'.threads[u] == s.threads[u];
    if pc.Append? {
      TakesAway(s, s', t, q, b, rest, home, s.threads[u].batch, With(u));
    } else if !pc.Idle? && !pc.Link? {
      if pc.q < |s.queues| && s.queues[pc.q].lock == By(u) { TakesLock(s, s', t, q, b, rest, home, pc.q, u); }
      if pc.Advance? {
        MemberBound(s, s.queues[pc.q].content, In(pc.q), 0);
        TakesNodes(s, s', t, q, b, rest, home, pc.node);
      }
    }
  }

  lemma TakesQueue(s: State, s': State, t: Tid, q: Qid, b: seq<Nid>, rest: seq<Nid>, home: Home)
    requires Takes(s, s', t, q, b, rest, home) && WorksOn(s.threads[t].pc, q) && QueueInv(s, q)
    requires forall c :: c in s.owed ==> OwedInv(s, c)
    requires s'.queues[q].tail == TailOf(q, rest) && HeadInv(s', q)
    ensures QueueInv(s', q) && (rest == [] ==> Members(s', b, home) && Chain(s', b))
  {
    TakesOut(s, b, rest, In(q));
    forall n | 0 <= n < |s.nodes|
      ensures SameCell(s, s', NodeOf(n)) && (n !in b ==> SameNode(s, s', n)) && (n in b ==> s'.nodes[n].home == home)
    {
      TakesNodes(s, s', t, q, b, rest, home, n);
    }
    hide HeadInv, SameCell;
    TakesChain(s, s', s.queues[q].content, b, rest, In(q), home);
  }

  lemma TakesOwed(s: State, s': State, t: Tid, q: Qid, b: seq<Nid>, rest: seq<Nid>, home: Home, c: Cell)
    requires Takes(s, s', t, q, b, rest, home) && WorksOn(s.threads[t].pc, q) && QueueInv(s, q)
    requires c in s.owed && OwedInv(s, c)
    requires home == Free ==> forall i :: 0 <= i < |b| ==> NodeOf(b[i]) !in s.owed
    ensures OwedInv(s', c)
  {
    hide QueueInv;
    if c.NodeOf? { TakesNodes(s, s', t, q, b, rest, home, c.n); }
  }

  lemma TakesInv(s: State, s': State, t: Tid, q: Qid, b: seq<Nid>, rest: seq<Nid>, home: Home)
    requires Inv(s) && Takes(s, s', t, q, b, rest, home) && WorksOn(s.threads[t].pc, q)
    requires s'.queues[q].tail == TailOf(q, rest) && HeadInv(s', q)
    requires home == Free ==> forall i :: 0 <= i < |b| ==> NodeOf(b[i]) !in s.owed
    requires rest == [] && Members(s', b, home) && Chain(s', b) ==> ThreadInv(s', t)
    requires rest != [] ==> ThreadInv(s', t)
    ensures Inv(s')
  {
    hide ThreadInv, Chain, Members, HeadInv, QueueFrame, ThreadFrame, OwedInv, QueueInv;
    assert QueueInv(s, q);
    TakesQueue(s, s', t, q, b, rest, home);
    forall p | 0 <= p < |s.queues| && p != q
      ensures QueueFrame(s, s', p)
    {
      TakesOther(s, s', t, q, b, rest, home, p);
    }
    forall u | 0 <= u < |s.threads| && u != t
      ensures ThreadFrame(s, s', u)
    {
      TakesAside(s, u);
      TakesThread(s, s', t, q, b, rest, home, u);
    }
    forall c | c in s'.owed
      ensures OwedInv(s', c)
    {
      TakesOwed(s, s', t, q, b, rest, home, c);
    }
    StepInv(s, s');
  }

  lemma TakesAside(s: State, u: Tid)
    requires Inv(s) && u < |s.threads|
    ensures s.threads[u].pc.Advance? ==> s.threads[u].pc.q < |s.queues| && QueueInv(s, s.threads[u].pc.q)
  {
    assert ThreadInv(s, u);
  }

  lemma TakesOut(s: State, b: seq<Nid>, rest: seq<Nid>, home: Home)
    requires Members(s, b + rest, home)
    ensures forall i :: 0 <= i < |rest| ==> rest[i] < |s.nodes| && rest[i] !in b
    ensures forall i :: 0 <= i < |b| ==> b[i] < |s.nodes|
  {
    var l := b + rest;
    assert forall i :: 0 <= i < |b| ==> l[i] == b[i];
    assert forall i :: 0 <= i < |rest| ==> l[|b| + i] == rest[i];
  }

  lemma Apart(s: State, k: seq<Nid>, home: Home, l: seq<Nid>, home': Home)
    requires Members(s, k, home) && Members(s, l, home') && home != home'
    ensures forall i :: 0 <= i < |k| ==> k[i] !in l
  {
  }

  lemma CasTailInv(s: State, s': State, t: Tid)
    requires Inv(s) && CasTail(s, s', t)
    ensures Inv(s')
  {
    var pc := s.threads[t].pc;
    assert ThreadInv(s, t);
    assert QueueInv(s, pc.q);
    var c := s.queues[pc.q].content;
    if s.queues[pc.q].tail == NodeOf(pc.node) {
      assert c == [pc.node];
      assert c == c[..1] + c[1..];
      assert End(s, NodeOf(c[0]));
      TakesInv(s, s', t, pc.q, [c[0]], [], Free);
    } else {
      LocalInv(s, s', t, pc.q);
    }
  }

  lemma AdvanceInv(s: State, s': State, t: Tid)
    requires Inv(s) && AdvanceHead(s, s', t)
    ensures Inv(s')
  {
    var pc := s.threads[t].pc;
    assert ThreadInv(s, t);
    assert QueueInv(s, pc.q);
    var c := s.queues[pc.q].content;
    assert c == [c[0]] + c[1..];
    TakesInv(s, s', t, pc.q, [c[0]], c[1..], Free);
  }

  lemma XchgTailInv(s: State, s': State, t: Tid)
    requires Inv(s) && XchgTail(s, s', t)
    ensures Inv(s')
  {
    var pc := s.threads[t].pc;
    assert ThreadInv(s, t);
    assert QueueInv(s, pc.q);
    var c := s.queues[pc.q].content;
    assert c == c + [];
    TakesInv(s, s', t, pc.q, c, [], With(t));
  }

  lemma NextInv(s: State, s': State)
    requires Inv(s) && Moves(s, s')
    ensures Inv(s')
  {
    hide Inv;
    var t :| Step(s, s', t);
    if exists q, op :: Start(s, s', t, q, op) {
      var q, op :| Start(s, s', t, q, op);
      StartInv(s, s', t, q, op);
    } else if exists n, q :: StartEnqueue(s, s', t, n, q) {
      var n, q :| StartEnqueue(s, s', t, n, q);
      StartEnqueueInv(s, s', t, n, q);
    } else if LoadHead(s, s', t) || LoadTail(s, s', t) { TestInv(s, s', t); }
    else if AwaitHead(s, s', t) || ReadNext(s, s', t) || AwaitNext(s, s', t) { ReadInv(s, s', t); }
    else if StoreNull(s, s', t) || RestoreHead(s, s', t) { HeadStoreInv(s, s', t); }
    else if XchgHead(s, s', t) || RetryTail(s, s', t) { TakeInv(s, s', t); }
    else if AppendXchg(s, s', t) { AppendInv(s, s', t); }
    else if LinkStore(s, s', t) { LinkStoreInv(s, s', t); }
    else if CasTail(s, s', t) { CasTailInv(s, s', t); }
    else if AdvanceHead(s, s', t) { AdvanceInv(s, s', t); }
    else { XchgTailInv(s, s', t); }
  }

  lemma {:induction false} RunInv(r: seq<State>, i: nat)
    requires Run(r) && i < |r|
    ensures Inv(r[i])
  {
    hide Inv, Moves;
    if i == 0 {
      InitInv(r[0]);
    } else {
      RunInv(r, i - 1);
      NextInv(r[i - 1], r[i]);
    }
  }

  // ---------- no node is lost ----------

  /** A node that belongs somewhere is there. */
  predicate Placed(s: State, n: Nid)
    requires n < |s.nodes|
  {
    match s.nodes[n].home
    case Free => true
    case In(q) => q < |s.queues| && n in s.queues[q].content
    case With(t) => t < |s.threads| && n in s.threads[t].batch
  }

  predicate AllPlaced(s: State) { forall n :: 0 <= n < |s.nodes| ==> Placed(s, n) }

  predicate SameContents(s: State, s': State) {
    |s'.queues| == |s.queues| && forall q :: 0 <= q < |s.queues| ==> s'.queues[q].content == s.queues[q].content
  }

  lemma MoveKeeps(s: State, s': State, t: Tid)
    requires MoveStep(s, s', t) || LinkStore(s, s', t)
    ensures SameContents(s, s') && |s'.nodes| == |s.nodes| && |s'.threads| == |s.threads|
    ensures forall n :: 0 <= n < |s.nodes| ==> s'.nodes[n].home == s.nodes[n].home
    ensures forall u :: 0 <= u < |s.threads| ==> s'.threads[u].batch == s.threads[u].batch
  {
  }

  ghost predicate HandsOver(s: State, s': State, t: Tid) {
    AppendXchg(s, s', t) || XchgTail(s, s', t) || (exists n, q :: StartEnqueue(s, s', t, n, q))
  }

  lemma StepThread(s: State, s': State, t: Tid)
    requires Step(s, s', t)
    ensures t < |s.threads| && |s'.nodes| == |s.nodes|
    ensures || MoveStep(s, s', t) || LinkStore(s, s', t)
            || CasTail(s, s', t) || AdvanceHead(s, s', t) || HandsOver(s, s', t)
  {
  }

  lemma PlacedKept(s: State, s': State)
    requires Inv(s) && AllPlaced(s) && Moves(s, s')
    ensures AllPlaced(s')
  {
    hide QueueInv, OwedInv, ThreadInv, Step, MoveStep, LinkStore, CasTail, AdvanceHead, HandsOver;
    var t :| Step(s, s', t);
    StepThread(s, s', t);
    assert ThreadInv(s, t);
    hide Inv;
    if MoveStep(s, s', t) || LinkStore(s, s', t) {
      MoveKeeps(s, s', t);
      forall n | 0 <= n < |s'.nodes|
        ensures Placed(s', n)
      {
        assert Placed(s, n);
      }
    } else {
      forall n | 0 <= n < |s'.nodes|
        ensures Placed(s', n)
      {
        assert Placed(s, n);
        if HandsOver(s, s', t) { PlacedMoved(s, s', t, n); } else { PlacedRemoved(s, s', t, n); }
      }
    }
  }

  lemma PlacedMoved(s: State, s': State, t: Tid, n: Nid)
    requires HandsOver(s, s', t) && ThreadInv(s, t) && n < |s.nodes| && Placed(s, n)
    ensures n < |s'.nodes| && Placed(s', n)
  {
  }

  lemma PlacedRemoved(s: State, s': State, t: Tid, n: Nid)
    requires CasTail(s, s', t) || AdvanceHead(s, s', t)
    requires ThreadInv(s, t) && n < |s.nodes| && Placed(s, n)
    ensures n < |s'.nodes| && Placed(s', n)
  {
    var c := s.queues[s.threads[t].pc.q].content;
    assert c == [c[0]] + c[1..];
  }

  lemma {:induction false} RunPlaced(r: seq<State>, i: nat)
    requires Run(r) && i < |r|
    ensures AllPlaced(r[i])
  {
    hide Inv, Moves;
    if i > 0 {
      RunPlaced(r, i - 1);
      RunInv(r, i - 1);
      PlacedKept(r[i - 1], r[i]);
    }
  }

  // ---------- first in, first out ----------

  /** What has left the queue, and then what is in it, is what was appended. */
  predicate InOrder(v: Queue) { v.added == v.taken + v.content }

  /** The histories only grow at the end. */
  predicate Grown(v: Queue, v': Queue) { v.added <= v'.added && v.taken <= v'.taken }

  lemma MoveHistory(s: State, s': State, t: Tid)
    requires MoveStep(s, s', t) || LinkStore(s, s', t) || (exists n, q :: StartEnqueue(s, s', t, n, q))
    ensures |s'.queues| == |s.queues|
    ensures forall q :: 0 <= q < |s.queues| ==>
              var v, v' := s.queues[q], s'.queues[q];
              v'.added == v.added && v'.taken == v.taken && v'.content == v.content
  {
  }

  lemma TakeHistory(s: State, s': State, t: Tid, q: Qid)
    requires CasTail(s, s', t) || AdvanceHead(s, s', t) || XchgTail(s, s', t)
    requires ThreadInv(s, t) && q < |s.queues| && InOrder(s.queues[q])
    ensures |s'.queues| == |s.queues| && InOrder(s'.queues[q]) && Grown(s.queues[q], s'.queues[q])
  {
    var c := s.queues[q].content;
    if c != [] { assert c == [c[0]] + c[1..]; }
  }

  lemma AppendHistory(s: State, s': State, t: Tid, q: Qid)
    requires AppendXchg(s, s', t) && q < |s.queues| && InOrder(s.queues[q])
    ensures |s'.queues| == |s.queues| && InOrder(s'.queues[q]) && Grown(s.queues[q], s'.queues[q])
  {
  }

  lemma HistoryKept(s: State, s': State, q: Qid)
    requires Inv(s) && Moves(s, s') && q < |s.queues| && InOrder(s.queues[q])
    ensures |s'.queues| == |s.queues| && InOrder(s'.queues[q]) && Grown(s.queues[q], s'.queues[q])
  {
    hide QueueInv, OwedInv, ThreadInv, Step, MoveStep, LinkStore;
    hide CasTail, AdvanceHead, XchgTail, AppendXchg, StartEnqueue;
    var t :| Step(s, s', t);
    StepThread(s, s', t);
    assert ThreadInv(s, t);
    hide Inv, InOrder, Grown;
    if AppendXchg(s, s', t) {
      AppendHistory(s, s', t, q);
    } else if CasTail(s, s', t) || AdvanceHead(s, s', t) || XchgTail(s, s', t) {
      TakeHistory(s, s', t, q);
    } else {
      MoveHistory(s, s', t);
      SameHistory(s.queues[q], s'.queues[q]);
    }
  }

  lemma SameHistory(v: Queue, v': Queue)
    requires InOrder(v) && v'.added == v.added && v'.taken == v.taken && v'.content == v.content
    ensures InOrder(v') && Grown(v, v')
  {
  }

  // ---------- theorems ----------

  /**
   In every state of every run, the nodes that dequeues returned and splices
   took, followed by the content, are the nodes appended, in the order of the
   tail exchanges.
   */
  lemma {:induction false} FirstInFirstOut(r: seq<State>, i: nat, q: Qid)
    requires Run(r) && i < |r| && q < |r[0].queues|
    ensures |r[i].queues| == |r[0].queues| && r[i].queues[q].added == r[i].queues[q].taken + r[i].queues[q].content
  {
    hide Inv, Moves;
    if i > 0 {
      FirstInFirstOut(r, i - 1, q);
      RunInv(r, i - 1);
      HistoryKept(r[i - 1], r[i], q);
    }
  }

  /** What was appended or taken is never rewritten. */
  lemma {:induction false} HistoryGrows(r: seq<State>, i: nat, j: nat, q: Qid)
    requires Run(r) && i <= j < |r| && q < |r[0].queues|
    ensures |r[i].queues| == |r[j].queues| == |r[0].queues| && Grown(r[i].queues[q], r[j].queues[q])
  {
    hide Inv, Moves;
    FirstInFirstOut(r, i, q);
    if i < j {
      HistoryGrows(r, i, j - 1, q);
      FirstInFirstOut(r, j - 1, q);
      RunInv(r, j - 1);
      HistoryKept(r[j - 1], r[j], q);
    }
  }

  /** Thread `t` moves from state `i` to the next, and its operation returns `ret`. */
  ghost predicate Returns(r: seq<State>, i: nat, t: Tid, ret: Ret) {
    && Run(r) && i + 1 < |r| && t < |r[i].threads| && t < |r[i + 1].threads|
    && Step(r[i], r[i + 1], t) && !r[i].threads[t].pc.Idle? && r[i + 1].threads[t].pc == Idle(ret)
  }

  lemma ReturnStep(s: State, s': State, t: Tid, ret: Ret)
    requires Step(s, s', t) && t < |s.threads| && t < |s'.threads|
    requires !s.threads[t].pc.Idle? && s'.threads[t].pc == Idle(ret)
    ensures ret.Got? ==> CasTail(s, s', t) || AdvanceHead(s, s', t)
    ensures ret.Empty? ==> LoadTail(s, s', t) || RetryTail(s, s', t)
    ensures ret.WouldBlock? ==> AwaitHead(s, s', t) || RestoreHead(s, s', t) || RetryTail(s, s', t)
    ensures ret.Appended? ==> LinkStore(s, s', t)
  {
  }

  /**
   A dequeue returns the oldest node of the queue and removes just that one; it
   says LAST exactly when it empties the queue.
   */
  lemma DequeuesOldest(r: seq<State>, i: nat, t: Tid, n: Nid, last: bool)
    requires Returns(r, i, t, Got(n, last))
    ensures exists q :: 0 <= q < |r[i].queues| && r[i].queues[q].lock == By(t) && TakesFirst(r[i], r[i + 1], q, n, last)
  {
    RunInv(r, i);
    var s, s' := r[i], r[i + 1];
    ReturnStep(s, s', t, Got(n, last));
    assert ThreadInv(s, t) && QueueInv(s, s.threads[t].pc.q);
    DequeueStep(s, s', t);
  }

  predicate TakesFirst(s: State, s': State, q: Qid, n: Nid, last: bool)
    requires q < |s.queues|
  {
    && s.queues[q].content != [] && s.queues[q].content[0] == n && (last <==> |s.queues[q].content| == 1)
    && |s'.queues| == |s.queues|
    && (forall p :: 0 <= p < |s.queues| ==>
          s'.queues[p].content == if p == q then s.queues[p].content[1..] else s.queues[p].content)
  }

  lemma DequeueStep(s: State, s': State, t: Tid)
    requires CasTail(s, s', t) || AdvanceHead(s, s', t)
    requires ThreadInv(s, t) && QueueInv(s, s.threads[t].pc.q) && s'.threads[t].pc.Idle?
    ensures s'.threads[t].pc.ret.Got?
    ensures TakesFirst(s, s', s.threads[t].pc.q, s'.threads[t].pc.ret.node, s'.threads[t].pc.ret.last)
  {
  }

  /** An operation says the queue is empty only if it is, and changes nothing. */
  lemma EmptyMeansEmpty(r: seq<State>, i: nat, t: Tid)
    requires Returns(r, i, t, Empty)
    ensures var pc := r[i].threads[t].pc;
            (pc.TestTail? || pc.TestAgain?) && pc.q < |r[i].queues| && r[i].queues[pc.q].content == []
    ensures SameContents(r[i], r[i + 1])
  {
    RunInv(r, i);
    ReturnStep(r[i], r[i + 1], t, Empty);
    MoveKeeps(r[i], r[i + 1], t);
    assert ThreadInv(r[i], t) && QueueInv(r[i], r[i].threads[t].pc.q);
  }

  /**
   An operation that would block leaves every queue as it is, releases the
   queue, and the first node is next after the head again.
   */
  lemma WouldBlockChangesNothing(r: seq<State>, i: nat, t: Tid)
    requires Returns(r, i, t, WouldBlock)
    ensures SameContents(r[i], r[i + 1])
    ensures var pc := r[i].threads[t].pc;
            && (pc.SyncHead? || pc.Restore? || pc.TestAgain?) && pc.q < |r[i].queues| && r[i].queues[pc.q].content != []
            && r[i + 1].queues[pc.q].lock == Nobody && Edge(r[i + 1], HeadOf(pc.q), r[i].queues[pc.q].content[0])
  {
    RunInv(r, i);
    var s, s' := r[i], r[i + 1];
    ReturnStep(s, s', t, WouldBlock);
    MoveKeeps(s, s', t);
    var q := s.threads[t].pc.q;
    assert ThreadInv(s, t) && QueueInv(s, q);
    RunInv(r, i + 1);
    assert QueueInv(s', q);
  }

  /** The exchange of an append puts the batch behind what is there, and its result tells whether that was nothing. */
  lemma AppendsInOrder(r: seq<State>, i: nat, t: Tid)
    requires Run(r) && i + 1 < |r| && AppendXchg(r[i], r[i + 1], t)
    ensures var q := r[i].threads[t].pc.q;
            && r[i + 1].queues[q].content == r[i].queues[q].content + r[i].threads[t].batch
            && (r[i + 1].threads[t].pc.nonEmpty <==> r[i].queues[q].content != [])
  {
    RunInv(r, i);
    assert ThreadInv(r[i], t) && QueueInv(r[i], r[i].threads[t].pc.q);
  }

  /**
   A splice that has taken the head finds a node at the tail, and takes exactly
   the content of the queue, in order.
   */
  lemma SpliceTakesAll(r: seq<State>, i: nat, t: Tid)
    requires Run(r) && i < |r| && t < |r[i].threads| && r[i].threads[t].pc.TakeTail?
    ensures var s, pc := r[i], r[i].threads[t].pc;
            && pc.q < |s.queues| && s.queues[pc.q].content != [] && pc.first == s.queues[pc.q].content[0]
            && s.queues[pc.q].tail == NodeOf(s.queues[pc.q].content[|s.queues[pc.q].content| - 1])
  {
    RunInv(r, i);
    assert ThreadInv(r[i], t) && QueueInv(r[i], r[i].threads[t].pc.q);
  }

  /** Every node is free, or once in one queue, or once in the hands of one thread. */
  lemma NoNodeLostOrDuplicated(r: seq<State>, i: nat, n: Nid)
    requires Run(r) && i < |r| && n < |r[i].nodes|
    ensures forall q :: 0 <= q < |r[i].queues| ==>
              multiset(r[i].queues[q].content)[n] == if r[i].nodes[n].home == In(q) then 1 else 0
    ensures forall t :: 0 <= t < |r[i].threads| ==>
              multiset(r[i].threads[t].batch)[n] == if r[i].nodes[n].home == With(t) then 1 else 0
  {
    RunInv(r, i);
    RunPlaced(r, i);
    var s := r[i];
    assert Placed(s, n);
    forall q | 0 <= q < |s.queues|
      ensures multiset(s.queues[q].content)[n] == if s.nodes[n].home == In(q) then 1 else 0
    {
      assert QueueInv(s, q);
      Count(s, s.queues[q].content, In(q), n);
    }
    forall t | 0 <= t < |s.threads|
      ensures multiset(s.threads[t].batch)[n] == if s.nodes[n].home == With(t) then 1 else 0
    {
      assert ThreadInv(s, t);
      Count(s, s.threads[t].batch, With(t), n);
    }
  }

  lemma Count(s: State, l: seq<Nid>, home: Home, n: Nid)
    requires Members(s, l, home)
    ensures n in l ==> multiset(l)[n] == 1
    ensures n !in l ==> multiset(l)[n] == 0
  {
    if n in l {
      var i :| 0 <= i < |l| && l[i] == n;
      assert l == l[..i] + [n] + l[i + 1..];
      assert n !in l[..i] && n !in l[i + 1..];
    }
  }

  /** Nobody will write to a node that is free: it can be reused or freed at once. */
  lemma FreeNodeUntouched(r: seq<State>, i: nat, n: Nid, t: Tid)
    requires Run(r) && i < |r| && n < |r[i].nodes| && r[i].nodes[n].home == Free && t < |r[i].threads|
    ensures r[i].threads[t].pc.Link? ==> r[i].threads[t].pc.prior != NodeOf(n)
    ensures var pc := r[i].threads[t].pc;
            pc.LoadNext? || pc.ClearHead? || pc.MoveTail? || pc.SyncNext? || pc.Restore? || pc.Advance? ==> pc.node != n
  {
    RunInv(r, i);
    var s, pc := r[i], r[i].threads[t].pc;
    assert ThreadInv(s, t);
    if pc.Link? {
      assert OwedInv(s, pc.prior);
    } else if pc.LoadNext? || pc.ClearHead? || pc.MoveTail? || pc.SyncNext? || pc.Restore? || pc.Advance? {
      assert QueueInv(s, pc.q);
      MemberBound(s, s.queues[pc.q].content, In(pc.q), 0);
    }
  }

  /** The nodes found by following next pointers, at most `fuel` of them. */
  function Walk(s: State, p: Ptr, fuel: nat): seq<Nid>
    decreases fuel
  {
    if p.Null? || fuel == 0 then [] else [p.node] + Walk(s, Next(s, NodeOf(p.node)), fuel - 1)
  }

  lemma {:induction false} WalkFrom(s: State, l: seq<Nid>, p: Ptr)
    requires Chain(s, l) && s.owed == map[] && p == (if l == [] then Null else To(l[0]))
    ensures forall fuel :: fuel >= |l| ==> Walk(s, p, fuel) == l
  {
    if l != [] {
      var rest := l[1..];
      assert forall i :: 0 <= i < |rest| ==> rest[i] == l[i + 1];
      var after := Next(s, NodeOf(l[0]));
      if rest != [] { assert Edge(s, NodeOf(l[0]), l[1]); }
      WalkFrom(s, rest, after);
      forall fuel | fuel >= |l|
        ensures Walk(s, p, fuel) == l
      {
        assert Walk(s, after, fuel - 1) == rest;
      }
    }
  }

  /** With no link owed and no operation under way, the memory holds exactly the queue. */
  lemma MemoryHoldsQueue(r: seq<State>, i: nat, q: Qid, fuel: nat)
    requires Run(r) && i < |r| && q < |r[i].queues| && r[i].owed == map[] && r[i].queues[q].lock == Nobody
    requires fuel >= |r[i].queues[q].content|
    ensures Walk(r[i], r[i].queues[q].next, fuel) == r[i].queues[q].content
  {
    RunInv(r, i);
    assert QueueInv(r[i], q);
    WalkFrom(r[i], r[i].queues[q].content, r[i].queues[q].next);
  }
}
