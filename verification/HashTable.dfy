/**
 The lock-free resizable hash table as a state machine. Every load, store, or,
 xchg and cmpxchg on shared memory is one step; any number of threads
 interleave. A thread works inside a read-side section (`inside`) and keeps the
 node pointers it got there (`held`) until it leaves. The resize mutex admits
 one resizer (`rz`); its workers are ordinary threads, each linking or unlinking
 one bucket of the order under work at a time. A grace period is a record of
 the threads that were inside when it started; it has elapsed when none of them
 is left.
 */
module HashTable {
  import opened SplitOrder
  import opened SplitList

  type Tid = nat

  // cds_lfht_add, cds_lfht_add_unique, cds_lfht_add_replace
  datatype Mode = Plain | Unique | Upsert

  datatype Req = AddItem(mode: Mode, key: Key) | AddBucket(index: nat)

  datatype Op = Lookup(key: Key) | Add(req: Req) | Del(node: Node) | Replace(prior: Node, expected: Link, key: Key)

  /** What a thread does once garbage collection of its bucket returns. */
  datatype Then = Own(node: Node) | Swapped(prior: Node, newer: Node) | Unlinked(index: nat)

  /** A running `_cds_lfht_gc_bucket`; `before` records the nodes that were flagged removed when it was called. */
  datatype Gc = Gc(bucket: Node, marker: nat, before: set<Node>, after: Then)

  datatype Ret = Nothing | Found(n: Node) | Missing | Added(n: Node) | Exists(n: Node)
               | Replaced(prior: Node, newer: Node) | Deleted(n: Node) | Refused

  datatype Pc =
    | Idle(ret: Ret)
    | Sizing(op: Op)
    | Start(op: Op, bucket: Node)
    | Look(key: Key, node: Node)
    | Walk(req: Req, bucket: Node, prev: Node, iter: Link)
    | Scan(req: Req, bucket: Node, prev: Node, iter: Link, dup: Node)
    | Insert(req: Req, bucket: Node, prev: Node, iter: Link)
    | Help(req: Req, bucket: Node, prev: Node, iter: Link, next: Link)
    | Swap(key: Key, bucket: Node, prior: Node, expected: Link, retry: bool)
    | Mark(node: Node, bucket: Node)
    | MarkBucket(index: nat, node: Node, bucket: Node)
    | GcStart(gc: Gc)
    | GcWalk(gc: Gc, prev: Node, iter: Link)
    | GcCut(gc: Gc, prev: Node, iter: Link, next: Link)
    | OwnLoad(node: Node)
    | OwnXchg(node: Node, word: Link)

  datatype Thread = Thread(inside: bool, held: set<Node>, pc: Pc)

  datatype Gp = Gp(pending: set<Tid>, covers: set<Node>)

  /**
   The resizer between two stores to `size`. `Sized`: the smaller size is
   stored; `Waiting`: first grace period of a shrink; `Emptied`: all buckets of
   the order unlinked; `LastWait`: the grace period before the last free.
   `stale` is the set of bucket nodes of the table still to be freed.
   */
  datatype Resizer =
    | Steady
    | Growing(claims: map<nat, Tid>)
    | Sized(stale: set<Node>)
    | Waiting(gp: nat, stale: set<Node>)
    | Removing(claims: map<nat, Tid>, done: set<nat>)
    | Emptied(stale: set<Node>)
    | LastWait(gp: nat, stale: set<Node>)

  /**
   `order` is the base-2 logarithm of `ht->size`; `buckets` is `bucket_at`.
   The last five fields are records for the proofs: nodes handed over for
   reclamation, nodes freed, keys ever passed to plain and to unique adds, and
   one entry per removal that reported success.
   */
  datatype State = State(
    bits: nat, h: Heap, order: nat, buckets: map<nat, Node>,
    threads: map<Tid, Thread>, rz: Resizer, gps: map<nat, Gp>,
    retired: set<Node>, freed: set<Node>, plain: set<Key>, uniq: set<Key>, wins: multiset<Node>)

  function HashOf(kind: Kind): nat {
    if kind.Bucket? then kind.index else kind.key.hash
  }

  function RhOf(bits: nat, kind: Kind): nat { Rev(bits, HashOf(kind)) }

  function KindOf(req: Req): Kind {
    if req.AddItem? then Item(req.key) else Bucket(req.index)
  }

  function InsideOf(s: State): set<Tid> { set t | t in s.threads && s.threads[t].inside }

  function RemovedOf(h: Heap): set<Node> { set n | n in h && h[n].next.removed }

  /** The pointers a thread may still dereference. */
  function PcPtrs(pc: Pc): set<Node> {
    match pc
    case Idle(_) => {}
    case Sizing(op) => OpPtrs(op)
    case Start(op, b) => OpPtrs(op) + {b}
    case Look(_, n) => {n}
    case Walk(_, b, prev, iter) => {b, prev, iter.succ}
    case Scan(_, b, prev, iter, dup) => {b, prev, iter.succ, dup}
    case Insert(_, b, prev, iter) => {b, prev, iter.succ}
    case Help(_, b, prev, iter, next) => {b, prev, iter.succ, next.succ}
    case Swap(_, b, prior, _, _) => {b, prior}
    case Mark(n, b) => {n, b}
    case MarkBucket(_, n, b) => {n, b}
    case GcStart(gc) => {gc.bucket} + ThenPtrs(gc.after)
    case GcWalk(gc, prev, iter) => {gc.bucket, prev, iter.succ} + ThenPtrs(gc.after)
    case GcCut(gc, prev, iter, next) => {gc.bucket, prev, iter.succ, next.succ} + ThenPtrs(gc.after)
    case OwnLoad(n) => {n}
    case OwnXchg(n, _) => {n}
  }

  function OpPtrs(op: Op): set<Node> {
    match op
    case Del(n) => {n}
    case Replace(prior, _, _) => {prior}
    case _ => {}
  }

  function ThenPtrs(after: Then): set<Node> {
    match after
    case Own(n) => {n}
    case Swapped(prior, n) => {prior, n}
    case Unlinked(_) => {}
  }

  // ---------- initial states ----------

  /** A table as `cds_lfht_create_bucket` leaves it: the sorted list of its `2^order` buckets, and no thread inside. */
  ghost predicate Init(s: State) {
    && s.order <= s.bits
    && (forall j: nat :: j in s.buckets <==> j < Pow2(s.order))
    && ListInv(s.h, s.buckets[0])
    && (forall n :: n in s.h ==> Live(s.h, n) && s.h[n].kind.Bucket? && s.h[n].rh == RhOf(s.bits, s.h[n].kind))
    && (forall j :: j in s.buckets ==> s.buckets[j] in s.h && s.h[s.buckets[j]].kind == Bucket(j))
    && (forall n :: n in s.h ==> s.h[n].kind.index < Pow2(s.order) && s.buckets[s.h[n].kind.index] == n)
    && (forall t :: t in s.threads ==> s.threads[t] == Thread(false, {}, Idle(Nothing)))
    && s.rz == Steady && s.gps == map[] && s.retired == {} && s.freed == {}
    && s.plain == {} && s.uniq == {} && s.wins == multiset{}
  }

  // ---------- steps of a thread ----------

  function Go(s: State, t: Tid, pc: Pc): State
    requires t in s.threads
  {
    s.(threads := s.threads[t := s.threads[t].(pc := pc)])
  }

  function Return(s: State, t: Tid, ret: Ret, ptrs: set<Node>): State
    requires t in s.threads
  {
    s.(threads := s.threads[t := s.threads[t].(pc := Idle(ret), held := s.threads[t].held + ptrs)])
  }

  predicate At(s: State, t: Tid) { t in s.threads && s.threads[t].inside }

  predicate Enter(s: State, s': State, t: Tid) {
    && t in s.threads && !s.threads[t].inside
    && s' == s.(threads := s.threads[t := Thread(true, {}, Idle(Nothing))])
  }

  /** `rcu_read_unlock`: all running grace periods stop waiting for the thread. */
  predicate Exit(s: State, s': State, t: Tid) {
    && At(s, t) && s.threads[t].pc.Idle?
    && s' == s.(threads := s.threads[t := Thread(false, {}, Idle(Nothing))],
                gps := map g | g in s.gps :: s.gps[g].(pending := s.gps[g].pending - {t}))
  }

  predicate BeginLookup(s: State, s': State, t: Tid, k: Key) {
    && At(s, t) && s.threads[t].pc.Idle? && k.hash < Pow2(s.bits)
    && s' == Go(s, t, Sizing(Lookup(k)))
  }

  predicate BeginAdd(s: State, s': State, t: Tid, mode: Mode, k: Key) {
    && At(s, t) && s.threads[t].pc.Idle? && k.hash < Pow2(s.bits)
    && s' == Go(s, t, Sizing(Add(AddItem(mode, k)))).(
               plain := if mode.Plain? then s.plain + {k} else s.plain,
               uniq := if mode.Plain? then s.uniq else s.uniq + {k})
  }

  /**
   A node the thread may pass to an operation: one it got in this section, or one
   it knows to be in the table, such as one it added earlier and nobody else
   removes.
   */
  predicate MayName(s: State, t: Tid, n: Node)
    requires t in s.threads
  {
    n in s.threads[t].held || (Live(s.h, n) && s.h[n].kind.Item?)
  }

  predicate BeginDel(s: State, s': State, t: Tid, n: Node) {
    && At(s, t) && s.threads[t].pc.Idle? && (n == END || MayName(s, t, n))
    && s' == Go(s, t, Sizing(Del(n)))
  }

  /** `cds_lfht_replace`; `expected` is whatever next word the caller's iterator carries. */
  predicate BeginReplace(s: State, s': State, t: Tid, prior: Node, expected: Link, k: Key) {
    && At(s, t) && s.threads[t].pc.Idle? && (prior == END || MayName(s, t, prior))
    && s' == Go(s, t, Sizing(Replace(prior, expected, k)))
  }

  function OpHash(s: State, op: Op): nat {
    match op
    case Lookup(k) => k.hash
    case Add(req) => HashOf(KindOf(req))
    case Del(n) => if n in s.h then Rev(s.bits, s.h[n].rh) else 0
    case Replace(prior, _, _) => if prior in s.h then Rev(s.bits, s.h[prior].rh) else 0
  }

  /** There is a node to delete or to replace, and the new node has the same key. */
  predicate Fit(s: State, op: Op) {
    match op
    case Del(n) => n != END
    case Replace(prior, _, k) => prior in s.h && s.h[prior].kind == Item(k)
    case _ => true
  }

  /** Load `ht->size` and look the bucket up; without a node or with another key the call is refused. */
  predicate LoadSize(s: State, s': State, t: Tid) {
    && At(s, t) && s.threads[t].pc.Sizing?
    && var op := s.threads[t].pc.op;
    && var j := BucketIndex(s.order, OpHash(s, op));
    && j in s.buckets
    && s' == if !Fit(s, op) then Return(s, t, Refused, {})
             else Go(s, t, if op.Replace? then Swap(op.key, s.buckets[j], op.prior, op.expected, false)
                           else Start(op, s.buckets[j]))
  }

  // cds_lfht_lookup

  predicate LookHead(s: State, s': State, t: Tid) {
    && At(s, t) && s.threads[t].pc.Start? && s.threads[t].pc.op.Lookup?
    && var pc := s.threads[t].pc;
    && pc.bucket in s.h
    && s' == Go(s, t, Look(pc.op.key, s.h[pc.bucket].next.succ))
  }

  predicate LookStep(s: State, s': State, t: Tid) {
    && At(s, t) && s.threads[t].pc.Look?
    && var k := s.threads[t].pc.key;
    && var n := s.threads[t].pc.node;
    && (n != END ==> n in s.h)
    && s' == if n == END || s.h[n].rh > Rev(s.bits, k.hash) then Return(s, t, Missing, {})
             else if !s.h[n].next.removed && !s.h[n].next.bucket
                     && s.h[n].rh == Rev(s.bits, k.hash) && s.h[n].kind == Item(k) then Return(s, t, Found(n), {n})
             else Go(s, t, Look(k, s.h[n].next.succ))
  }

  // _cds_lfht_add

  predicate AddHead(s: State, s': State, t: Tid) {
    && At(s, t) && s.threads[t].pc.Start? && s.threads[t].pc.op.Add?
    && var pc := s.threads[t].pc;
    && pc.bucket in s.h
    && s' == Go(s, t, Walk(pc.op.req, pc.bucket, pc.bucket, s.h[pc.bucket].next))
  }

  predicate AddStep(s: State, s': State, t: Tid) {
    && At(s, t) && s.threads[t].pc.Walk?
    && var pc := s.threads[t].pc;
    && var q := pc.iter.succ;
    && (q != END ==> q in s.h)
    && var rh := RhOf(s.bits, KindOf(pc.req));
    && s' == Go(s, t,
         if q == END || s.h[q].rh > rh || (pc.req.AddBucket? && s.h[q].rh == rh) then
           Insert(pc.req, pc.bucket, pc.prev, pc.iter)
         else if s.h[q].next.removed then
           Help(pc.req, pc.bucket, pc.prev, pc.iter, s.h[q].next)
         else if pc.req.AddItem? && !pc.req.mode.Plain? && !s.h[q].next.bucket && s.h[q].rh == rh then
           Scan(pc.req, pc.bucket, pc.prev, pc.iter, q)
         else
           Walk(pc.req, pc.bucket, q, s.h[q].next))
  }

  /**
   The `cds_lfht_next_duplicate` inside a unique add. A match ends add_unique
   and starts the replace of add_replace.
   */
  predicate ScanStep(s: State, s': State, t: Tid) {
    && At(s, t) && s.threads[t].pc.Scan? && s.threads[t].pc.req.AddItem?
    && var pc := s.threads[t].pc;
    && var d := pc.dup;
    && (d != END ==> d in s.h)
    && s' == if d == END || s.h[d].rh > Rev(s.bits, pc.req.key.hash) then
               Go(s, t, Insert(pc.req, pc.bucket, pc.prev, pc.iter))
             else if !s.h[d].next.removed && !s.h[d].next.bucket && s.h[d].kind == Item(pc.req.key) then
               if pc.req.mode.Upsert? then Go(s, t, Swap(pc.req.key, pc.bucket, d, s.h[d].next, true))
               else Return(s, t, Exists(d), {d})
             else Go(s, t, Scan(pc.req, pc.bucket, pc.prev, pc.iter, s.h[d].next.succ))
  }

  predicate InsertFail(s: State, s': State, t: Tid) {
    && At(s, t) && s.threads[t].pc.Insert?
    && var pc := s.threads[t].pc;
    && pc.prev in s.h && s.h[pc.prev].next != pc.iter
    && s' == Go(s, t, Start(Add(pc.req), pc.bucket))
  }

  /** The cmpxchg that links a new node. */
  predicate InsertOk(s: State, s': State, t: Tid, n: Node) {
    && At(s, t) && s.threads[t].pc.Insert?
    && var pc := s.threads[t].pc;
    && pc.prev in s.h && s.h[pc.prev].next == pc.iter
    && n !in s.h && n != END
    && var kind := KindOf(pc.req);
    && var rh := RhOf(s.bits, kind);
    && s' == Return(s, t, Added(n), if kind.Item? then {n} else {}).(
               h := Publish(s.h, pc.prev, n, rh, kind, RankFor(s.h, pc.prev, rh, kind), false),
               buckets := if kind.Bucket? then s.buckets[kind.index := n] else s.buckets)
  }

  /** Path compression: `prev` skips the removed node it was seen to lead to, if it still leads to it. */
  function Cut(h: Heap, prev: Node, iter: Link, next: Link): Heap
    requires prev in h
  {
    if h[prev].next == iter then h[prev := h[prev].(next := Link(next.succ, false, iter.bucket, false))] else h
  }

  predicate HelpStep(s: State, s': State, t: Tid) {
    && At(s, t) && s.threads[t].pc.Help?
    && var pc := s.threads[t].pc;
    && pc.prev in s.h
    && s' == Go(s, t, Start(Add(pc.req), pc.bucket)).(h := Cut(s.h, pc.prev, pc.iter, pc.next))
  }

  // _cds_lfht_replace

  predicate SwapLate(s: State, s': State, t: Tid) {
    && At(s, t) && s.threads[t].pc.Swap? && s.threads[t].pc.expected.removed
    && var pc := s.threads[t].pc;
    && s' == if pc.retry then Go(s, t, Start(Add(AddItem(Upsert, pc.key)), pc.bucket)) else Return(s, t, Refused, {})
  }

  predicate SwapFail(s: State, s': State, t: Tid) {
    && At(s, t) && s.threads[t].pc.Swap? && !s.threads[t].pc.expected.removed
    && var pc := s.threads[t].pc;
    && pc.prior in s.h && s.h[pc.prior].next != pc.expected
    && s' == Go(s, t, pc.(expected := s.h[pc.prior].next))
  }

  /** The cmpxchg that links the new node behind the old one and removes and owns the old one in the same word. */
  predicate SwapOk(s: State, s': State, t: Tid, n: Node) {
    && At(s, t) && s.threads[t].pc.Swap? && !s.threads[t].pc.expected.removed
    && var pc := s.threads[t].pc;
    && pc.prior in s.h && s.h[pc.prior].next == pc.expected
    && n !in s.h && n != END
    && var kind := Item(pc.key);
    && var rh := RhOf(s.bits, kind);
    && var h' := Publish(s.h, pc.prior, n, rh, kind, RankFor(s.h, pc.prior, rh, kind), true);
    && s' == Go(s, t, GcStart(Gc(pc.bucket, rh, RemovedOf(h'), Swapped(pc.prior, n)))).(
               h := h', wins := s.wins + multiset{pc.prior})
  }

  // _cds_lfht_del

  predicate DelLoad(s: State, s': State, t: Tid) {
    && At(s, t) && s.threads[t].pc.Start? && s.threads[t].pc.op.Del?
    && var pc := s.threads[t].pc;
    && pc.op.node in s.h
    && s' == if s.h[pc.op.node].next.removed then Return(s, t, Refused, {})
             else Go(s, t, Mark(pc.op.node, pc.bucket))
  }

  predicate DelMark(s: State, s': State, t: Tid) {
    && At(s, t) && s.threads[t].pc.Mark?
    && var pc := s.threads[t].pc;
    && pc.node in s.h
    && var h' := Flag(s.h, pc.node, false);
    && s' == Go(s, t, GcStart(Gc(pc.bucket, s.h[pc.node].rh, RemovedOf(h'), Own(pc.node)))).(h := h')
  }

  predicate DelOwnLoad(s: State, s': State, t: Tid) {
    && At(s, t) && s.threads[t].pc.OwnLoad?
    && var n := s.threads[t].pc.node;
    && n in s.h
    && s' == Go(s, t, OwnXchg(n, s.h[n].next))
  }

  /** The xchg that sets REMOVAL_OWNER; whoever found it clear wins the removal. */
  predicate DelOwnXchg(s: State, s': State, t: Tid) {
    && At(s, t) && s.threads[t].pc.OwnXchg?
    && var n := s.threads[t].pc.node;
    && n in s.h
    && var h' := s.h[n := s.h[n].(next := s.threads[t].pc.word.(owner := true))];
    && s' == if s.h[n].next.owner then Return(s, t, Refused, {}).(h := h')
             else Return(s, t, Deleted(n), {}).(h := h', wins := s.wins + multiset{n}, retired := s.retired + {n})
  }

  // _cds_lfht_gc_bucket

  predicate GcHead(s: State, s': State, t: Tid) {
    && At(s, t) && s.threads[t].pc.GcStart?
    && var gc := s.threads[t].pc.gc;
    && gc.bucket in s.h
    && s' == Go(s, t, GcWalk(gc, gc.bucket, s.h[gc.bucket].next))
  }

  predicate GcMore(s: State, pc: Pc)
    requires pc.GcWalk?
  {
    pc.iter.succ in s.h && s.h[pc.iter.succ].rh <= pc.gc.marker
  }

  predicate GcStep(s: State, s': State, t: Tid) {
    && At(s, t) && s.threads[t].pc.GcWalk?
    && var pc := s.threads[t].pc;
    && GcMore(s, pc)
    && var next := s.h[pc.iter.succ].next;
    && s' == Go(s, t, if next.removed then GcCut(pc.gc, pc.prev, pc.iter, next) else GcWalk(pc.gc, pc.iter.succ, next))
  }

  predicate GcCutStep(s: State, s': State, t: Tid) {
    && At(s, t) && s.threads[t].pc.GcCut?
    && var pc := s.threads[t].pc;
    && pc.prev in s.h
    && s' == Go(s, t, GcStart(pc.gc)).(h := Cut(s.h, pc.prev, pc.iter, pc.next))
  }

  /** `_cds_lfht_gc_bucket` returns. */
  predicate GcDone(s: State, s': State, t: Tid) {
    && At(s, t) && s.threads[t].pc.GcWalk?
    && var pc := s.threads[t].pc;
    && (pc.iter.succ == END || (pc.iter.succ in s.h && s.h[pc.iter.succ].rh > pc.gc.marker))
    && match pc.gc.after
       case Own(n) => s' == Go(s, t, OwnLoad(n))
       case Swapped(prior, n) => s' == Return(s, t, Replaced(prior, n), {prior, n}).(retired := s.retired + {prior})
       case Unlinked(j) => s.rz.Removing? && s' == Return(s, t, Nothing, {}).(rz := s.rz.(done := s.rz.done + {j}))
  }

  // ---------- resizing ----------

  predicate InOrder(s: State, j: nat) { Pow2(s.order) <= j < Pow2(s.order + 1) }

  /** `init_table`: allocate the table of the next order. */
  predicate GrowStart(s: State, s': State) {
    s.rz.Steady? && s.order < s.bits && s' == s.(rz := Growing(map[]))
  }

  /** A worker of `init_table_populate` takes up bucket `j`. */
  predicate BeginLink(s: State, s': State, t: Tid, j: nat) {
    && At(s, t) && s.threads[t].pc.Idle?
    && s.rz.Growing? && InOrder(s, j) && j !in s.rz.claims
    && var p := BucketIndex(s.order, j);
    && p in s.buckets
    && s' == Go(s, t, Start(Add(AddBucket(j)), s.buckets[p])).(rz := Growing(s.rz.claims[j := t]))
  }

  /** All buckets of the order are linked: store the larger size. */
  ghost predicate GrowPublish(s: State, s': State) {
    && s.rz.Growing? && (forall j :: InOrder(s, j) ==> j in s.buckets)
    && s' == s.(rz := Steady, order := s.order + 1)
  }

  /** `fini_table`: store the smaller size, on the first or on a later iteration. */
  predicate ShrinkSize(s: State, s': State) {
    && (s.rz.Steady? || s.rz.Emptied?) && s.order > 0
    && s' == s.(rz := Sized(if s.rz.Emptied? then s.rz.stale else {}), order := s.order - 1)
  }

  predicate ShrinkWait(s: State, s': State, g: nat) {
    && s.rz.Sized? && g !in s.gps
    && s' == s.(rz := Waiting(g, s.rz.stale), gps := s.gps[g := Gp(InsideOf(s), s.retired)])
  }

  /** The first grace period elapsed: free the table of the previous iteration and start removing buckets. */
  predicate ShrinkRemove(s: State, s': State) {
    && s.rz.Waiting? && s.rz.gp in s.gps && s.gps[s.rz.gp].pending == {}
    && s' == s.(rz := Removing(map[], {}), freed := s.freed + s.rz.stale)
  }

  /** A worker of `remove_table` takes up bucket `j`. */
  predicate BeginUnlink(s: State, s': State, t: Tid, j: nat) {
    && At(s, t) && s.threads[t].pc.Idle?
    && s.rz.Removing? && InOrder(s, j) && j !in s.rz.claims
    && j in s.buckets && j - Pow2(s.order) in s.buckets
    && s' == Go(s, t, MarkBucket(j, s.buckets[j], s.buckets[j - Pow2(s.order)])).(
               rz := s.rz.(claims := s.rz.claims[j := t]))
  }

  predicate BucketMark(s: State, s': State, t: Tid) {
    && At(s, t) && s.threads[t].pc.MarkBucket?
    && var pc := s.threads[t].pc;
    && pc.node in s.h
    && var h' := Flag(s.h, pc.node, false);
    && s' == Go(s, t, GcStart(Gc(pc.bucket, s.h[pc.node].rh, RemovedOf(h'), Unlinked(pc.index)))).(h := h')
  }

  ghost predicate ShrinkEmptied(s: State, s': State) {
    && s.rz.Removing? && (forall j :: InOrder(s, j) ==> j in s.rz.done && j in s.buckets)
    && var stale := set j | j in s.buckets && InOrder(s, j) :: s.buckets[j];
    && s' == s.(rz := Emptied(stale), retired := s.retired + stale,
                buckets := map j | j in s.buckets && !InOrder(s, j) :: s.buckets[j])
  }

  /** Leaving the loop, on the target order or on any early exit. */
  predicate ShrinkLastWait(s: State, s': State, g: nat) {
    && s.rz.Emptied? && g !in s.gps
    && s' == s.(rz := LastWait(g, s.rz.stale), gps := s.gps[g := Gp(InsideOf(s), s.retired)])
  }

  predicate ShrinkFree(s: State, s': State) {
    && s.rz.LastWait? && s.rz.gp in s.gps && s.gps[s.rz.gp].pending == {}
    && s' == s.(rz := Steady, freed := s.freed + s.rz.stale)
  }

  // ---------- reclaiming items ----------

  predicate StartGp(s: State, s': State, g: nat) {
    g !in s.gps && s' == s.(gps := s.gps[g := Gp(InsideOf(s), s.retired)])
  }

  /** The owner of a removed item frees it after a grace period. */
  predicate FreeItem(s: State, s': State, g: nat, w: Node) {
    && g in s.gps && s.gps[g].pending == {} && w in s.gps[g].covers
    && w in s.h && s.h[w].kind.Item?
    && s' == s.(freed := s.freed + {w})
  }

  // ---------- the machine ----------

  ghost predicate UserStep(s: State, s': State, t: Tid) {
    || Enter(s, s', t) || Exit(s, s', t)
    || (exists k :: BeginLookup(s, s', t, k))
    || (exists mode, k :: BeginAdd(s, s', t, mode, k))
    || (exists n :: BeginDel(s, s', t, n))
    || (exists prior, expected, k :: BeginReplace(s, s', t, prior, expected, k))
    || (exists j :: BeginLink(s, s', t, j))
    || (exists j :: BeginUnlink(s, s', t, j))
  }

  ghost predicate CodeStep(s: State, s': State, t: Tid) {
    || LoadSize(s, s', t) || LookHead(s, s', t) || LookStep(s, s', t)
    || AddHead(s, s', t) || AddStep(s, s', t) || ScanStep(s, s', t) || InsertFail(s, s', t)
    || (exists n :: InsertOk(s, s', t, n)) || HelpStep(s, s', t)
    || SwapLate(s, s', t) || SwapFail(s, s', t) || (exists n :: SwapOk(s, s', t, n))
    || DelLoad(s, s', t) || DelMark(s, s', t) || DelOwnLoad(s, s', t) || DelOwnXchg(s, s', t)
    || BucketMark(s, s', t)
    || GcHead(s, s', t) || GcStep(s, s', t) || GcCutStep(s, s', t) || GcDone(s, s', t)
  }

  ghost predicate ResizeStep(s: State, s': State) {
    || GrowStart(s, s') || GrowPublish(s, s') || ShrinkSize(s, s')
    || (exists g :: ShrinkWait(s, s', g)) || ShrinkRemove(s, s') || ShrinkEmptied(s, s')
    || (exists g :: ShrinkLastWait(s, s', g)) || ShrinkFree(s, s')
    || (exists g :: StartGp(s, s', g)) || (exists g, w :: FreeItem(s, s', g, w))
  }

  ghost predicate Next(s: State, s': State) {
    || (exists t :: UserStep(s, s', t))
    || (exists t :: CodeStep(s, s', t))
    || ResizeStep(s, s')
  }

  /** A run: a sequence of states from an initial one, each a step away from the one before. */
  ghost predicate Run(r: seq<State>) {
    && |r| > 0 && Init(r[0])
    && forall i :: 0 <= i < |r| - 1 ==> Next(r[i], r[i + 1])
  }
}
