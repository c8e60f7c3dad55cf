/**
 What one thread's step does to the others: the relation `Calm` between the
 states before and after, and the proof that a thread's own invariant survives
 every calm step of somebody else.
 */
module HashTableStable {
  import opened SplitList
  import opened HashTable
  import opened HashTableInv

  /** A node that appeared ahead of all listed nodes of its class. */
  ghost predicate AtFront(h: Heap, h': Heap, root: Node, y: Node) {
    && y in h'
    && forall q :: q in h && q in h' && Reach(h, root, q) && ClassOf(h[q]) == ClassOf(h'[y]) ==> Before(h', y, q)
  }

  /** A node that appeared in the place of `o`. */
  ghost predicate TakesOver(h: Heap, h': Heap, root: Node, o: Node, y: Node) {
    && o in h && y in h'
    && (forall d :: Reach(h, d, o) ==> Reach(h', d, y))
    && (forall q :: q in h && q in h' && Reach(h, root, q) && Before(h, o, q) ==> Before(h', y, q))
  }

  /** New live nodes of a key appear at the front of their class or replace a live node of the key. */
  ghost predicate KeyCalm(h: Heap, h': Heap, root: Node, k: Key) {
    forall y :: LiveKey(h', y, k) ==>
      || LiveKey(h, y, k)
      || AtFront(h, h', root, y)
      || exists o :: LiveKey(h, o, k) && TakesOver(h, h', root, o, y)
  }

  ghost predicate Calm(s: State, s': State) {
    && s'.bits == s.bits && Root(s') == Root(s)
    && Evolves(s.h, s'.h, Root(s))
    && s.plain <= s'.plain && s.uniq <= s'.uniq
    && (forall k :: k !in s'.plain ==> KeyCalm(s.h, s'.h, Root(s), k))
  }

  ghost predicate BucketsKept(s: State, s': State, pc: Pc) {
    forall b :: b in PcBuckets(pc) && BucketOk(s, b) ==> BucketOk(s', b)
  }

  ghost predicate ClaimsKept(s: State, s': State, u: Tid) {
    && (forall j :: LinkClaim(s, j, u) ==> LinkClaim(s', j, u))
    && (forall j :: UnlinkClaim(s, j, u) ==> UnlinkClaim(s', j, u) && s'.buckets[j] == s.buckets[j])
  }

  lemma ScanStable(s: State, s': State, k: Key, q: Node, d: Node)
    requires Calm(s, s') && q in s.h && ScanInv(s, k, q, d)
    requires s.h[q].kind.Item? && s.h[q].rh == RhOf(s.bits, Item(k))
    requires HashInv(s')
    ensures ScanInv(s', k, q, d)
  {
    if k !in s'.plain && Reach(s'.h, Root(s'), q) {
      var root := Root(s);
      assert KeyCalm(s.h, s'.h, root, k);
      assert Reach(s.h, root, q) by { RootOld(s, s', q); }
      forall y | LiveKey(s'.h, y, k)
        ensures Before(s'.h, y, q) || Reach(s'.h, d, y)
      {
        if LiveKey(s.h, y, k) {
        } else if AtFront(s.h, s'.h, root, y) {
          assert ClassOf(s.h[q]) == ClassOf(s'.h[y]);
        } else {
          var o :| LiveKey(s.h, o, k) && TakesOver(s.h, s'.h, root, o, y);
        }
      }
    }
  }

  lemma RootOld(s: State, s': State, q: Node)
    requires Calm(s, s') && q in s.h && Reach(s'.h, Root(s), q)
    ensures Reach(s.h, Root(s), q)
  {
  }

  lemma AddStable(s: State, s': State, u: Tid, req: Req, b: Node, prev: Node, iter: Link)
    requires Calm(s, s') && ClaimsKept(s, s', u) && BucketOk(s', b)
    requires AddInv(s, u, req, b, prev, iter)
    ensures AddInv(s', u, req, b, prev, iter) && ReqClass(s', req) == ReqClass(s, req)
  {
  }

  lemma GcStable(s: State, s': State, u: Tid, gc: Gc)
    requires Calm(s, s') && ClaimsKept(s, s', u) && BucketOk(s', gc.bucket)
    requires ThenInv(s, u, gc)
    ensures ThenInv(s', u, gc)
  {
  }

  lemma SeenStable(s: State, s': State, gc: Gc, q: Node)
    requires Calm(s, s') && gc.bucket in s.h && (forall w :: w in gc.before ==> w in s.h)
    requires GcSeen(s, gc, q)
    ensures GcSeen(s', gc, q)
  {
    forall w | w in gc.before && Before(s'.h, gc.bucket, w) && Reach(s'.h, Root(s'), w)
      ensures q in s'.h && (q == w || Before(s'.h, q, w))
    {
      RootOld(s, s', w);
    }
  }

  lemma GoneStable(s: State, s': State, n: Node)
    requires Calm(s, s') && Gone(s, n)
    ensures Gone(s', n)
  {
    if Reach(s'.h, Root(s'), n) { RootOld(s, s', n); }
  }

  lemma ScanPcStable(s: State, s': State, u: Tid, pc: Pc)
    requires HashInv(s') && Calm(s, s') && pc.Scan?
    requires BucketOk(s', pc.bucket) && ClaimsKept(s, s', u) && PcInv(s, u, pc)
    ensures PcInv(s', u, pc)
  {
    AddStable(s, s', u, pc.req, pc.bucket, pc.prev, pc.iter);
    ScanStable(s, s', pc.req.key, pc.iter.succ, pc.dup);
  }

  lemma InsertPcStable(s: State, s': State, u: Tid, pc: Pc)
    requires HashInv(s') && Calm(s, s') && pc.Insert?
    requires BucketOk(s', pc.bucket) && ClaimsKept(s, s', u) && PcInv(s, u, pc)
    ensures PcInv(s', u, pc)
  {
    AddStable(s, s', u, pc.req, pc.bucket, pc.prev, pc.iter);
    if pc.req.AddItem? && !pc.req.mode.Plain? && pc.iter.succ != END
       && ClassOf(s.h[pc.iter.succ]) == ReqClass(s, pc.req) {
      ScanStable(s, s', pc.req.key, pc.iter.succ, END);
    }
  }

  lemma GcPcStable(s: State, s': State, u: Tid, pc: Pc)
    requires Calm(s, s')
    requires pc.GcStart? || pc.GcWalk? || pc.GcCut?
    requires BucketOk(s', pc.gc.bucket) && ClaimsKept(s, s', u) && PcInv(s, u, pc)
    ensures PcInv(s', u, pc)
  {
    GcStable(s, s', u, pc.gc);
    if pc.GcWalk? {
      SeenStable(s, s', pc.gc, pc.iter.succ);
    }
  }

  lemma OtherPcStable(s: State, s': State, u: Tid, pc: Pc)
    requires Calm(s, s')
    requires !(pc.Walk? || pc.Scan? || pc.Insert? || pc.Help? || pc.GcStart? || pc.GcWalk? || pc.GcCut?)
    requires BucketsKept(s, s', pc) && ClaimsKept(s, s', u) && PcInv(s, u, pc)
    ensures PcInv(s', u, pc)
  {
    match pc
    case Start(_, b) => assert b in PcBuckets(pc);
    case Swap(_, b, _, _, _) => assert b in PcBuckets(pc);
    case Mark(_, b) => assert b in PcBuckets(pc);
    case MarkBucket(_, _, b) => assert b in PcBuckets(pc);
    case OwnLoad(n) => GoneStable(s, s', n);
    case OwnXchg(n, _) => GoneStable(s, s', n);
    case _ =>
  }

  /** The invariant of a thread that does not move survives a calm step. */
  lemma PcStable(s: State, s': State, u: Tid, pc: Pc)
    requires HashInv(s') && Calm(s, s')
    requires BucketsKept(s, s', pc) && ClaimsKept(s, s', u) && PcInv(s, u, pc)
    ensures PcInv(s', u, pc)
  {
    if pc.Scan? {
      assert pc.bucket in PcBuckets(pc);
      ScanPcStable(s, s', u, pc);
    } else if pc.Insert? {
      assert pc.bucket in PcBuckets(pc);
      InsertPcStable(s, s', u, pc);
    } else if pc.Walk? || pc.Help? {
      assert pc.bucket in PcBuckets(pc);
      AddStable(s, s', u, pc.req, pc.bucket, pc.prev, pc.iter);
    } else if pc.GcStart? || pc.GcWalk? || pc.GcCut? {
      assert pc.gc.bucket in PcBuckets(pc);
      GcPcStable(s, s', u, pc);
    } else {
      OtherPcStable(s, s', u, pc);
    }
  }
}
