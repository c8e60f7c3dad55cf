/**
 The inductive invariant of the hash table: what holds of the list, of the
 bucket array, of each thread at its program point, of unique keys, of removal
 ownership and of reclamation.
 */
module HashTableInv {
  import opened SplitOrder
  import opened SplitList
  import opened HashTable

  function Root(s: State): Node { if 0 in s.buckets then s.buckets[0] else END }

  /** Buckets below this index are linked and unremoved, and a thread inside may still be using them. */
  function Limit(s: State): nat {
    if s.rz.Sized? || s.rz.Waiting? then Pow2(s.order + 1) else Pow2(s.order)
  }

  predicate BucketOk(s: State, b: Node) {
    && b in s.h && s.h[b].kind.Bucket?
    && s.h[b].kind.index < Limit(s)
    && s.h[b].kind.index in s.buckets && s.buckets[s.h[b].kind.index] == b
  }

  // ---------- the bucket array and the resizer ----------

  predicate IndexBound(s: State, j: nat) {
    j < (if s.rz.Growing? || s.rz.Sized? || s.rz.Waiting? || s.rz.Removing? then Pow2(s.order + 1) else Pow2(s.order))
  }

  predicate HashInv(s: State) {
    forall n :: n in s.h ==> s.h[n].rh == RhOf(s.bits, s.h[n].kind) && HashOf(s.h[n].kind) < Pow2(s.bits)
  }

  ghost predicate TableInv(s: State) {
    && s.order <= s.bits
    && (!s.rz.Steady? && !s.rz.Emptied? && !s.rz.LastWait? ==> s.order < s.bits)
    && (forall j :: 0 <= j < Limit(s) ==> j in s.buckets && Live(s.h, s.buckets[j]))
    && (forall j :: j in s.buckets ==> s.buckets[j] in s.h && s.h[s.buckets[j]].kind == Bucket(j) && IndexBound(s, j))
    && HashInv(s)
  }

  ghost predicate ResizerInv(s: State) {
    match s.rz
    case Growing(claims) => GrowInv(s, claims)
    case Removing(claims, done) =>
      && RemoveInv(s, claims)
      && forall j :: j in done ==> j in claims && InOrder(s, j) && j in s.buckets && Gone(s, s.buckets[j])
    case Sized(stale) => stale <= s.retired
    case Emptied(stale) => stale <= s.retired
    case Waiting(g, stale) => g in s.gps && stale <= s.gps[g].covers && WaitInv(s, g)
    case LastWait(g, stale) => g in s.gps && stale <= s.gps[g].covers
    case _ => true
  }

  /** While the table grows no bucket is removed, and every bucket of the new order was linked by a worker. */
  predicate GrowInv(s: State, claims: map<nat, Tid>) {
    forall j :: j in s.buckets ==> Live(s.h, s.buckets[j]) && (InOrder(s, j) ==> j in claims)
  }

  /** While buckets are removed, those no worker has taken up are still live. */
  predicate RemoveInv(s: State, claims: map<nat, Tid>) {
    forall j :: j in s.buckets && j !in claims ==> Live(s.h, s.buckets[j])
  }

  /** Removed and out of the list for good. */
  ghost predicate Gone(s: State, n: Node) { Removed(s.h, n) && !Reach(s.h, Root(s), n) }

  function PcBuckets(pc: Pc): set<Node> {
    match pc
    case Start(_, b) => {b}
    case Walk(_, b, _, _) => {b}
    case Scan(_, b, _, _, _) => {b}
    case Insert(_, b, _, _) => {b}
    case Help(_, b, _, _, _) => {b}
    case Swap(_, b, _, _, _) => {b}
    case Mark(_, b) => {b}
    case MarkBucket(_, _, b) => {b}
    case GcStart(gc) => {gc.bucket}
    case GcWalk(gc, _, _) => {gc.bucket}
    case GcCut(gc, _, _, _) => {gc.bucket}
    case _ => {}
  }

  /** A bucket whose index the stored size no longer covers. */
  predicate OuterBucket(s: State, b: Node) {
    b in s.h && s.h[b].kind.Bucket? && s.h[b].kind.index >= Pow2(s.order)
  }

  /** While a shrink waits, only threads it waits for use a bucket of the order to be removed. */
  ghost predicate WaitInv(s: State, g: nat)
    requires g in s.gps
  {
    forall t, b :: t in s.threads && b in PcBuckets(s.threads[t].pc) && OuterBucket(s, b) ==> t in s.gps[g].pending
  }

  // ---------- a thread at its program point ----------

  predicate LinkClaim(s: State, j: nat, t: Tid) {
    s.rz.Growing? && InOrder(s, j) && j in s.rz.claims && s.rz.claims[j] == t && j !in s.buckets
  }

  predicate UnlinkClaim(s: State, j: nat, t: Tid) {
    s.rz.Removing? && InOrder(s, j) && j in s.rz.claims && s.rz.claims[j] == t && j !in s.rz.done && j in s.buckets
  }

  predicate ReqOk(s: State, t: Tid, req: Req) {
    match req
    case AddItem(mode, k) => k.hash < Pow2(s.bits) && (if mode.Plain? then k in s.plain else k in s.uniq)
    case AddBucket(j) => LinkClaim(s, j, t)
  }

  function ReqClass(s: State, req: Req): nat { Class(RhOf(s.bits, KindOf(req)), KindOf(req)) }

  /** A node behind which the request may still insert. */
  predicate PrevOk(s: State, req: Req, p: Node) {
    && p in s.h
    && ClassOf(s.h[p]) <= ReqClass(s, req)
    && ((req.AddItem? && req.mode.Plain?) || ClassOf(s.h[p]) < ReqClass(s, req))
  }

  predicate IterOk(h: Heap, iter: Link) { !iter.removed && !iter.owner && NodeOrEnd(h, iter.succ) }

  predicate ItemNode(s: State, n: Node) { n in s.h && s.h[n].kind.Item? }

  /** A unique add that scanned from `q` up to `d` has not missed a live node with its key, unless `q` left the list. */
  ghost predicate ScanInv(s: State, k: Key, q: Node, d: Node)
    requires q in s.h
  {
    k !in s.plain && Reach(s.h, Root(s), q) ==>
      forall y :: LiveKey(s.h, y, k) ==> Before(s.h, y, q) || Reach(s.h, d, y)
  }

  ghost predicate AddInv(s: State, t: Tid, req: Req, b: Node, prev: Node, iter: Link) {
    BucketOk(s, b) && ReqOk(s, t, req) && PrevOk(s, req, b) && PrevOk(s, req, prev) && IterOk(s.h, iter)
  }

  /** A removed node that a thread saw behind `iter` still has the successor it saw. */
  predicate CutOk(h: Heap, prev: Node, iter: Link, next: Link) {
    && prev in h && IterOk(h, iter) && Removed(h, iter.succ)
    && h[iter.succ].next.succ == next.succ && NodeOrEnd(h, next.succ)
  }

  ghost predicate ThenInv(s: State, t: Tid, gc: Gc) {
    && BucketOk(s, gc.bucket)
    && (forall w :: w in gc.before ==> Removed(s.h, w))
    && match gc.after
       case Own(n) => n in gc.before && s.h[n].kind.Item? && s.h[gc.bucket].rh <= s.h[n].rh && gc.marker == s.h[n].rh
       case Swapped(prior, n) =>
         && prior in gc.before && s.h[prior].kind.Item? && s.h[prior].next.owner
         && s.h[gc.bucket].rh <= s.h[prior].rh && gc.marker == s.h[prior].rh && ItemNode(s, n)
       case Unlinked(j) =>
         && UnlinkClaim(s, j, t) && s.buckets[j] in gc.before
         && s.h[gc.bucket].rh < s.h[s.buckets[j]].rh && gc.marker == s.h[s.buckets[j]].rh
  }

  /** Garbage collection that arrived at `q` left none of the nodes it must unlink behind. */
  ghost predicate GcSeen(s: State, gc: Gc, q: Node)
    requires gc.bucket in s.h && forall w :: w in gc.before ==> w in s.h
  {
    forall w :: w in gc.before && Before(s.h, gc.bucket, w) && Reach(s.h, Root(s), w) ==>
      q in s.h && (q == w || Before(s.h, q, w))
  }

  ghost predicate OpInv(s: State, t: Tid, op: Op) {
    match op
    case Lookup(k) => k.hash < Pow2(s.bits)
    case Add(req) => ReqOk(s, t, req) && req.AddItem?
    case Del(n) => n == END || ItemNode(s, n)
    case Replace(prior, _, _) => prior == END || ItemNode(s, prior)
  }

  ghost predicate StartInv(s: State, t: Tid, op: Op, b: Node) {
    && BucketOk(s, b)
    && match op
       case Lookup(k) => k.hash < Pow2(s.bits) && s.h[b].rh <= Rev(s.bits, k.hash)
       case Add(req) => ReqOk(s, t, req) && PrevOk(s, req, b)
       case Del(n) => ItemNode(s, n) && s.h[b].rh <= s.h[n].rh
       case Replace(_, _, _) => false
  }

  ghost predicate PcInv(s: State, t: Tid, pc: Pc) {
    match pc
    case Idle(_) => true
    case Sizing(op) => OpInv(s, t, op)
    case Start(op, b) => StartInv(s, t, op, b)
    case Look(k, n) => k.hash < Pow2(s.bits) && NodeOrEnd(s.h, n)
    case Walk(req, b, prev, iter) => AddInv(s, t, req, b, prev, iter)
    case Scan(req, b, prev, iter, d) =>
      && AddInv(s, t, req, b, prev, iter) && req.AddItem? && !req.mode.Plain?
      && iter.succ in s.h && ClassOf(s.h[iter.succ]) == ReqClass(s, req)
      && NodeOrEnd(s.h, d) && ScanInv(s, req.key, iter.succ, d)
    case Insert(req, b, prev, iter) =>
      && AddInv(s, t, req, b, prev, iter)
      && (iter.succ != END ==> ReqClass(s, req) <= ClassOf(s.h[iter.succ]))
      && (req.AddItem? && req.mode.Plain? && iter.succ != END ==> ReqClass(s, req) < ClassOf(s.h[iter.succ]))
      && (req.AddItem? && !req.mode.Plain? && iter.succ != END && ClassOf(s.h[iter.succ]) == ReqClass(s, req) ==>
            ScanInv(s, req.key, iter.succ, END))
    case Help(req, b, prev, iter, next) => AddInv(s, t, req, b, prev, iter) && CutOk(s.h, prev, iter, next)
    case Swap(k, b, prior, _, retry) =>
      && BucketOk(s, b) && prior in s.h && s.h[prior].kind == Item(k) && k.hash < Pow2(s.bits)
      && s.h[b].rh <= s.h[prior].rh && (retry ==> k in s.uniq)
    case Mark(n, b) => BucketOk(s, b) && ItemNode(s, n) && s.h[b].rh <= s.h[n].rh
    case MarkBucket(j, n, b) =>
      BucketOk(s, b) && UnlinkClaim(s, j, t) && n == s.buckets[j] && n in s.h && s.h[b].rh < s.h[n].rh
    case GcStart(gc) => ThenInv(s, t, gc)
    case GcWalk(gc, prev, iter) =>
      && ThenInv(s, t, gc) && prev in s.h && IterOk(s.h, iter) && GcSeen(s, gc, iter.succ)
    case GcCut(gc, prev, iter, next) => ThenInv(s, t, gc) && CutOk(s.h, prev, iter, next)
    case OwnLoad(n) => ItemNode(s, n) && Gone(s, n)
    case OwnXchg(n, w) =>
      && ItemNode(s, n) && Gone(s, n)
      && w.removed && !w.bucket && w.succ == s.h[n].next.succ && (w.owner ==> s.h[n].next.owner)
  }

  ghost predicate ThreadInv(s: State, t: Tid)
    requires t in s.threads
  {
    && PcInv(s, t, s.threads[t].pc)
    && (forall n :: n in s.threads[t].held ==> ItemNode(s, n))
    && (!s.threads[t].inside ==> s.threads[t] == Thread(false, {}, Idle(Nothing)))
  }

  // ---------- unique keys, ownership, reclamation ----------

  ghost predicate UniqueInv(s: State) {
    forall k, x, y :: k !in s.plain && LiveKey(s.h, x, k) && LiveKey(s.h, y, k) ==> x == y
  }

  /** A thread that set REMOVED on `n` and has not yet settled the ownership of `n`. */
  predicate Committed(pc: Pc, n: Node) {
    match pc
    case GcStart(gc) => gc.after == Own(n)
    case GcWalk(gc, _, _) => gc.after == Own(n)
    case GcCut(gc, _, _, _) => gc.after == Own(n)
    case OwnLoad(m) => m == n
    case OwnXchg(m, _) => m == n
    case _ => false
  }

  predicate OwnedItem(s: State, n: Node) { ItemNode(s, n) && s.h[n].next.owner }

  ghost predicate OwnerInv(s: State) {
    && (forall n :: s.wins[n] == if OwnedItem(s, n) then 1 else 0)
    && (forall n :: ItemNode(s, n) && s.h[n].next.removed && !s.h[n].next.owner ==>
          exists t :: t in s.threads && Committed(s.threads[t].pc, n))
  }

  function Ptrs(th: Thread): set<Node> { th.held + PcPtrs(th.pc) }

  /** No pointer of the thread leads to `w`. */
  ghost predicate Clean(h: Heap, th: Thread, w: Node) {
    forall p :: p in Ptrs(th) ==> !Reach(h, p, w)
  }

  ghost predicate ReclaimInv(s: State) {
    && (forall w :: w in s.retired ==> Gone(s, w))
    && s.freed <= s.retired
    && (forall g :: g in s.gps ==> s.gps[g].covers <= s.retired)
    && (forall g, w, t :: g in s.gps && w in s.gps[g].covers && t in s.threads && t !in s.gps[g].pending ==>
          Clean(s.h, s.threads[t], w))
    && (forall w, t :: w in s.freed && t in s.threads ==> Clean(s.h, s.threads[t], w))
  }

  ghost predicate Inv(s: State) {
    && TableInv(s)
    && ListInv(s.h, Root(s))
    && ResizerInv(s)
    && (forall t :: t in s.threads ==> ThreadInv(s, t))
    && UniqueInv(s)
    && OwnerInv(s)
    && ReclaimInv(s)
  }
}
