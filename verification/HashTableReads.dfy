/**
 The steps that only read shared memory keep the invariant.
 */
module HashTableReads {
  import opened SplitOrder
  import opened SplitList
  import opened HashTable
  import opened HashTableInv
  import opened HashTableStable
  import opened HashTableFrame

  /** A step that keeps the records of used keys. */
  lemma GoInv(s: State, s': State, t: Tid)
    requires Inv(s) && LocalMove(s, s', t) && At(s, t) && At(s', t) && s'.plain == s.plain && s'.uniq == s.uniq
    requires PcInv(s, t, s'.threads[t].pc)
    requires forall n :: Committed(s.threads[t].pc, n) ==> Committed(s'.threads[t].pc, n)
    requires forall p :: p in PcPtrs(s'.threads[t].pc) ==> PtrFrom(s, s, s.threads[t], p)
    requires forall p :: p in s'.threads[t].held ==>
             p in s.threads[t].held || (ItemNode(s, p) && PtrFrom(s, s, s.threads[t], p))
    requires PcBuckets(s'.threads[t].pc) <= PcBuckets(s.threads[t].pc)
             || (forall b :: b in PcBuckets(s'.threads[t].pc) ==> b in s.h && !OuterBucket(s, b))
    ensures Inv(s')
  {
    hide PcInv, PcBuckets, PcPtrs;
    LocalCalm(s, s', t);
    PcStable(s, s', t, s'.threads[t].pc);
    assert ThreadInv(s, t);
    assert ThreadInv(s', t);
    LocalInv(s, s', t);
  }

  lemma SuccFrom(s: State, t: Tid, q: Node)
    requires t in s.threads && q in s.h && q in PcPtrs(s.threads[t].pc)
    ensures PtrFrom(s, s, s.threads[t], s.h[q].next.succ)
  {
    assert q in Ptrs(s.threads[t]);
  }

  lemma UnfitInv(s: State, s': State, t: Tid)
    requires Inv(s) && LoadSize(s, s', t) && !Fit(s, s.threads[t].pc.op)
    ensures Inv(s')
  {
    hide ReclaimInv, OwnerInv, UniqueInv, ResizerInv, Reach, TableInv, ListInv, OpHash;
    GoInv(s, s', t);
  }

  /** The bucket of an operation that is not refused is one the size covers, and no later than what it is for. */
  lemma BucketFits(s: State, t: Tid, op: Op)
    requires Inv(s) && t in s.threads && OpInv(s, t, op) && Fit(s, op)
    ensures OpHash(s, op) < Pow2(s.bits)
    ensures var j := BucketIndex(s.order, OpHash(s, op));
            && j in s.buckets && BucketOk(s, s.buckets[j]) && !OuterBucket(s, s.buckets[j])
            && s.h[s.buckets[j]].rh <= Rev(s.bits, OpHash(s, op)) && Live(s.h, s.buckets[j])
    ensures op.Del? ==> Rev(s.bits, OpHash(s, op)) == s.h[op.node].rh
    ensures op.Replace? ==> Rev(s.bits, OpHash(s, op)) == s.h[op.prior].rh
  {
    hide ReclaimInv, OwnerInv, UniqueInv, ResizerInv, Reach, PcInv, ListInv;
    if op.Del? { RevInvolution(s.bits, HashOf(s.h[op.node].kind)); }
    if op.Replace? { RevInvolution(s.bits, HashOf(s.h[op.prior].kind)); }
    var hash := OpHash(s, op);
    assert hash < Pow2(s.bits);
    BucketPrecedes(s.bits, s.order, hash);
    Pow2Monotone(s.order, s.order + 1);
  }

  lemma LoadSizeInv(s: State, s': State, t: Tid)
    requires Inv(s) && LoadSize(s, s', t)
    ensures Inv(s')
  {
    hide ReclaimInv, OwnerInv, UniqueInv, ResizerInv, Reach;
    var op := s.threads[t].pc.op;
    if !Fit(s, op) {
      UnfitInv(s, s', t);
    } else {
      assert ThreadInv(s, t);
      BucketFits(s, t, op);
      hide OpHash;
      GoInv(s, s', t);
    }
  }

  lemma LookHeadInv(s: State, s': State, t: Tid)
    requires Inv(s) && LookHead(s, s', t)
    ensures Inv(s')
  {
    hide ReclaimInv, OwnerInv, UniqueInv, ResizerInv, Reach;
    assert ThreadInv(s, t);
    SuccFrom(s, t, s.threads[t].pc.bucket);
    GoInv(s, s', t);
  }

  lemma LookStepInv(s: State, s': State, t: Tid)
    requires Inv(s) && LookStep(s, s', t)
    ensures Inv(s')
  {
    hide ReclaimInv, OwnerInv, UniqueInv, ResizerInv, Reach;
    assert ThreadInv(s, t);
    var n := s.threads[t].pc.node;
    if n in s.h { SuccFrom(s, t, n); }
    GoInv(s, s', t);
  }

  lemma AddHeadInv(s: State, s': State, t: Tid)
    requires Inv(s) && AddHead(s, s', t)
    ensures Inv(s')
  {
    hide ReclaimInv, OwnerInv, UniqueInv, ResizerInv, Reach;
    assert ThreadInv(s, t);
    var b := s.threads[t].pc.bucket;
    SuccFrom(s, t, b);
    assert BucketOk(s, b) && Live(s.h, b);
    GoInv(s, s', t);
  }

  /** Entering the scan for a duplicate at `q`: whatever live node has the key lies before `q` or behind it. */
  lemma ScanStart(s: State, k: Key, q: Node)
    requires Inv(s) && q in s.h
    ensures ScanInv(s, k, q, q)
  {
    if Reach(s.h, Root(s), q) {
      forall y | LiveKey(s.h, y, k)
        ensures Before(s.h, y, q) || Reach(s.h, q, y)
      {
        var i: nat :| ReachIn(s.h, Root(s), q, i);
        ReachLinearIn(s.h, Root(s), q, y, i);
        if !Reach(s.h, q, y) { ReachOrder(s.h, y, q); }
        if y == q { ReachSelf(s.h, q); }
      }
    }
  }

  lemma AddStepInv(s: State, s': State, t: Tid)
    requires Inv(s) && AddStep(s, s', t)
    ensures Inv(s')
  {
    hide ReclaimInv, OwnerInv, UniqueInv, ResizerInv, Reach;
    assert ThreadInv(s, t);
    var pc := s.threads[t].pc;
    var q := pc.iter.succ;
    if q in s.h { SuccFrom(s, t, q); }
    if s'.threads[t].pc.Scan? { ScanStart(s, pc.req.key, q); }
    GoInv(s, s', t);
  }

  lemma ScanAdvance(s: State, k: Key, q: Node, d: Node)
    requires q in s.h && ScanInv(s, k, q, d) && d in s.h && !LiveKey(s.h, d, k)
    ensures ScanInv(s, k, q, s.h[d].next.succ)
  {
    if k !in s.plain && Reach(s.h, Root(s), q) {
      forall y | LiveKey(s.h, y, k)
        ensures Before(s.h, y, q) || Reach(s.h, s.h[d].next.succ, y)
      {
        if !Before(s.h, y, q) { ReachRest(s.h, d, y); }
      }
    }
  }

  lemma ScanEnd(s: State, k: Key, q: Node, d: Node)
    requires Inv(s) && q in s.h && ScanInv(s, k, q, d)
    requires d == END || (d in s.h && s.h[d].rh > Rev(s.bits, k.hash))
    ensures ScanInv(s, k, q, END)
  {
    if k !in s.plain && Reach(s.h, Root(s), q) {
      forall y | LiveKey(s.h, y, k)
        ensures Before(s.h, y, q) || Reach(s.h, END, y)
      {
        if d != END && Reach(s.h, d, y) { ReachOrder(s.h, d, y); }
      }
    }
  }

  lemma ScanStepInv(s: State, s': State, t: Tid)
    requires Inv(s) && ScanStep(s, s', t)
    ensures Inv(s')
  {
    hide ReclaimInv, OwnerInv, UniqueInv, ResizerInv, Reach;
    assert ThreadInv(s, t);
    var pc := s.threads[t].pc;
    var pc' := s'.threads[t].pc;
    var d := pc.dup;
    if d in s.h { SuccFrom(s, t, d); }
    if pc'.Insert? {
      ScanEnd(s, pc.req.key, pc.iter.succ, d);
    } else if pc'.Scan? {
      ScanAdvance(s, pc.req.key, pc.iter.succ, d);
    }
    GoInv(s, s', t);
  }

  lemma InsertFailInv(s: State, s': State, t: Tid)
    requires Inv(s) && InsertFail(s, s', t)
    ensures Inv(s')
  {
    hide ReclaimInv, OwnerInv, UniqueInv, ResizerInv, Reach;
    assert ThreadInv(s, t);
    GoInv(s, s', t);
  }

  lemma SwapRetryInv(s: State, s': State, t: Tid)
    requires Inv(s) && (SwapLate(s, s', t) || SwapFail(s, s', t))
    ensures Inv(s')
  {
    hide ReclaimInv, OwnerInv, UniqueInv, ResizerInv, Reach;
    assert ThreadInv(s, t);
    GoInv(s, s', t);
  }

  lemma DelFlagLoadInv(s: State, s': State, t: Tid)
    requires Inv(s) && DelLoad(s, s', t)
    ensures Inv(s')
  {
    hide ReclaimInv, OwnerInv, UniqueInv, ResizerInv, Reach, ListInv;
    assert ThreadInv(s, t);
    GoInv(s, s', t);
  }

  lemma DelOwnLoadPc(s: State, s': State, t: Tid)
    requires At(s, t) && FlagsOk(s.h) && PcInv(s, t, s.threads[t].pc) && DelOwnLoad(s, s', t)
    ensures PcInv(s, t, s'.threads[t].pc)
    ensures forall p :: p in PcPtrs(s'.threads[t].pc) ==> PtrFrom(s, s, s.threads[t], p)
  {
    hide Reach;
  }

  lemma DelOwnLoadInv(s: State, s': State, t: Tid)
    requires Inv(s) && DelOwnLoad(s, s', t)
    ensures Inv(s')
  {
    assert FlagsOk(s.h);
    hide ReclaimInv, OwnerInv, UniqueInv, ResizerInv, Reach, ListInv, PcInv, PtrFrom, FlagsOk;
    assert ThreadInv(s, t);
    DelOwnLoadPc(s, s', t);
    GoInv(s, s', t);
  }

  lemma DelLoadInv(s: State, s': State, t: Tid)
    requires Inv(s) && (DelLoad(s, s', t) || DelOwnLoad(s, s', t))
    ensures Inv(s')
  {
    hide Inv;
    if DelLoad(s, s', t) { DelFlagLoadInv(s, s', t); } else { DelOwnLoadInv(s, s', t); }
  }

  /** The node behind the bucket is no later than any listed node after the bucket. */
  lemma SeenFromBucket(s: State, gc: Gc)
    requires Inv(s) && Live(s.h, gc.bucket) && (forall w :: w in gc.before ==> w in s.h)
    ensures GcSeen(s, gc, s.h[gc.bucket].next.succ)
  {
    var q := s.h[gc.bucket].next.succ;
    forall w | w in gc.before && Before(s.h, gc.bucket, w) && Reach(s.h, Root(s), w)
      ensures q in s.h && (q == w || Before(s.h, q, w))
    {
      ChainOrder(s.h, Root(s), gc.bucket, w);
      ReachOrder(s.h, q, w);
    }
  }

  lemma GcHeadInv(s: State, s': State, t: Tid)
    requires Inv(s) && GcHead(s, s', t)
    ensures Inv(s')
  {
    hide ReclaimInv, OwnerInv, UniqueInv, ResizerInv, Reach;
    assert ThreadInv(s, t);
    var gc := s.threads[t].pc.gc;
    assert BucketOk(s, gc.bucket) && Live(s.h, gc.bucket);
    SuccFrom(s, t, gc.bucket);
    SeenFromBucket(s, gc);
    GoInv(s, s', t);
  }

  lemma SeenAdvance(s: State, gc: Gc, q: Node)
    requires Inv(s) && gc.bucket in s.h && (forall w :: w in gc.before ==> w in s.h)
    requires (forall w :: w in gc.before ==> Removed(s.h, w)) && Live(s.h, q) && GcSeen(s, gc, q)
    ensures GcSeen(s, gc, s.h[q].next.succ)
  {
    forall w | w in gc.before && Before(s.h, gc.bucket, w) && Reach(s.h, Root(s), w)
      ensures s.h[q].next.succ in s.h && (s.h[q].next.succ == w || Before(s.h, s.h[q].next.succ, w))
    {
      ChainOrder(s.h, Root(s), q, w);
      ReachOrder(s.h, s.h[q].next.succ, w);
    }
  }

  lemma GcStepPc(s: State, t: Tid, pc: Pc)
    requires Inv(s) && pc.GcWalk? && PcInv(s, t, pc) && GcMore(s, pc)
    ensures var next := s.h[pc.iter.succ].next;
            PcInv(s, t, if next.removed then GcCut(pc.gc, pc.prev, pc.iter, next)
                else GcWalk(pc.gc, pc.iter.succ, next))
  {
    hide ReclaimInv, OwnerInv, UniqueInv, ResizerInv, Reach, TableInv;
    if !s.h[pc.iter.succ].next.removed { SeenAdvance(s, pc.gc, pc.iter.succ); }
  }

  lemma GcStepInv(s: State, s': State, t: Tid)
    requires Inv(s) && GcStep(s, s', t)
    ensures Inv(s')
  {
    hide PcInv, ReclaimInv, OwnerInv, UniqueInv, ResizerInv, Reach, TableInv;
    assert ThreadInv(s, t);
    GcStepPc(s, t, s.threads[t].pc);
    SuccFrom(s, t, s.threads[t].pc.iter.succ);
    GoInv(s, s', t);
  }

  lemma BeginLookupInv(s: State, s': State, t: Tid, k: Key)
    requires Inv(s) && BeginLookup(s, s', t, k)
    ensures Inv(s')
  {
    hide ReclaimInv, OwnerInv, UniqueInv, ResizerInv, Reach;
    GoInv(s, s', t);
  }

  lemma BeginDelInv(s: State, s': State, t: Tid, n: Node)
    requires Inv(s) && BeginDel(s, s', t, n)
    ensures Inv(s')
  {
    hide ReclaimInv, OwnerInv, UniqueInv, ResizerInv, Reach;
    assert ThreadInv(s, t);
    GoInv(s, s', t);
  }

  lemma BeginReplaceInv(s: State, s': State, t: Tid, prior: Node, expected: Link, k: Key)
    requires Inv(s) && BeginReplace(s, s', t, prior, expected, k)
    ensures Inv(s')
  {
    hide ReclaimInv, OwnerInv, UniqueInv, ResizerInv, Reach;
    assert ThreadInv(s, t);
    GoInv(s, s', t);
  }

  lemma BeginAddInv(s: State, s': State, t: Tid, mode: Mode, k: Key)
    requires Inv(s) && BeginAdd(s, s', t, mode, k)
    ensures Inv(s')
  {
    hide ReclaimInv, OwnerInv, UniqueInv, ResizerInv, Reach;
    assert ThreadInv(s, t);
    LocalInv(s, s', t);
  }
}
