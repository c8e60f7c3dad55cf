/**
 The resizer's own steps (`init_table` and `fini_table`) and reclamation keep
 the invariant.
 */
module HashTableOrders {
  import opened SplitOrder
  import opened SplitList
  import opened HashTable
  import opened HashTableInv
  import opened HashTableStable
  import opened HashTableResize

  /** Everything but the resizer, the order, the buckets, the grace periods and the reclaimed sets is unchanged. */
  predicate ResizerMove(s: State, s': State) {
    s' == s.(rz := s'.rz, order := s'.order, buckets := s'.buckets,
        gps := s'.gps, retired := s'.retired, freed := s'.freed)
  }

  lemma SameOwner(s: State, s': State)
    requires OwnerInv(s) && s'.h == s.h && s'.wins == s.wins && s'.threads == s.threads
    ensures OwnerInv(s')
  {
    forall n
      ensures s'.wins[n] == if OwnedItem(s', n) then 1 else 0
    {
      assert OwnedItem(s', n) == OwnedItem(s, n);
    }
    forall n | ItemNode(s', n) && s'.h[n].next.removed && !s'.h[n].next.owner
      ensures exists u :: u in s'.threads && Committed(s'.threads[u].pc, n)
    {
      assert ItemNode(s, n);
      var u :| u in s.threads && Committed(s.threads[u].pc, n);
      assert Committed(s'.threads[u].pc, n);
    }
  }

  /** The frame of a resizer step. */
  lemma ResizerFrame(s: State, s': State)
    requires Inv(s) && ResizerMove(s, s') && Root(s') == Root(s)
    requires TableInv(s') && ResizerInv(s') && ReclaimInv(s')
    requires forall u :: u in s.threads ==> BucketsKept(s, s', s.threads[u].pc) && ClaimsKept(s, s', u)
    ensures Inv(s')
  {
    hide PcInv, PcBuckets, Reach, ReclaimInv, ResizerInv, OwnerInv, UniqueInv, ThreadInv, BucketsKept, ClaimsKept;
    SameHeapCalm(s, s');
    ThreadsKept(s, s');
    SameOwner(s, s');
    SameUnique(s, s');
  }

  lemma SameReclaim(s: State, s': State)
    requires ReclaimInv(s) && ResizerMove(s, s') && Root(s') == Root(s)
    requires s'.gps == s.gps && s'.freed == s.freed && s.retired <= s'.retired
    requires forall w :: w in s'.retired && w !in s.retired ==> Gone(s, w)
    ensures ReclaimInv(s')
  {
    hide Reach, Clean;
    forall w | w in s'.retired
      ensures Gone(s', w)
    {
      assert Gone(s, w);
    }
  }

  lemma GrowStartInv(s: State, s': State)
    requires Inv(s) && GrowStart(s, s')
    ensures Inv(s')
  {
    hide PcInv, PcBuckets, Reach, ReclaimInv, OwnerInv, UniqueInv, ThreadInv;
    SameReclaim(s, s');
    Pow2Strict(s.order, s.order + 1);
    ResizerFrame(s, s');
  }

  lemma GrowPublishInv(s: State, s': State)
    requires Inv(s) && GrowPublish(s, s')
    ensures Inv(s')
  {
    hide PcInv, PcBuckets, Reach, ReclaimInv, OwnerInv, UniqueInv, ThreadInv;
    SameReclaim(s, s');
    Pow2Strict(s.order, s.order + 1);
    forall j | 0 <= j < Limit(s')
      ensures j in s'.buckets && Live(s'.h, s'.buckets[j])
    {
      if j >= Pow2(s.order) { assert InOrder(s, j); }
    }
    ResizerFrame(s, s');
  }

  lemma ShrinkSizeInv(s: State, s': State)
    requires Inv(s) && ShrinkSize(s, s')
    ensures Inv(s')
  {
    hide PcInv, PcBuckets, Reach, ReclaimInv, OwnerInv, UniqueInv, ThreadInv;
    SameReclaim(s, s');
    ResizerFrame(s, s');
  }

  /** A new grace period covers what is retired: threads outside hold no pointers. */
  lemma GpReclaim(s: State, s': State, g: nat)
    requires Inv(s) && ResizerMove(s, s') && s'.buckets == s.buckets
    requires g !in s.gps && s'.gps == s.gps[g := Gp(InsideOf(s), s.retired)]
    requires s'.freed == s.freed && s'.retired == s.retired
    ensures ReclaimInv(s')
  {
    hide PcInv, Reach;
    forall w | w in s'.retired
      ensures Gone(s', w)
    {
      assert Gone(s, w);
    }
    forall t, w | t in s.threads && t !in InsideOf(s)
      ensures Clean(s.h, s.threads[t], w)
    {
      assert ThreadInv(s, t);
      assert Ptrs(s.threads[t]) == {};
    }
  }

  lemma ShrinkWaitInv(s: State, s': State, g: nat)
    requires Inv(s) && ShrinkWait(s, s', g)
    ensures Inv(s')
  {
    hide PcInv, Reach, ReclaimInv, OwnerInv, UniqueInv;
    GpReclaim(s, s', g);
    forall t, b | t in s'.threads && b in PcBuckets(s'.threads[t].pc) && OuterBucket(s', b)
      ensures t in s'.gps[g].pending
    {
      assert ThreadInv(s, t);
    }
    ResizerFrame(s, s');
  }

  /** After a grace period elapsed, what it covers may be freed. */
  lemma FreeReclaim(s: State, s': State, g: nat, ws: set<Node>)
    requires Inv(s) && ResizerMove(s, s') && s'.buckets == s.buckets && s'.gps == s.gps && s'.retired == s.retired
    requires g in s.gps && s.gps[g].pending == {} && ws <= s.gps[g].covers && s'.freed == s.freed + ws
    ensures ReclaimInv(s')
  {
    hide PcInv, Reach, Clean;
    forall w | w in s'.retired
      ensures Gone(s', w)
    {
      assert Gone(s, w);
    }
  }

  lemma ShrinkRemoveInv(s: State, s': State)
    requires Inv(s) && ShrinkRemove(s, s')
    ensures Inv(s')
  {
    hide PcInv, PcBuckets, Reach, ReclaimInv, OwnerInv, UniqueInv, ThreadInv;
    FreeReclaim(s, s', s.rz.gp, s.rz.stale);
    Pow2Strict(s.order, s.order + 1);
    forall u | u in s.threads
      ensures BucketsKept(s, s', s.threads[u].pc)
    {
      forall b | b in PcBuckets(s.threads[u].pc) && BucketOk(s, b)
        ensures BucketOk(s', b)
      {
        assert !OuterBucket(s, b);
      }
    }
    ResizerFrame(s, s');
  }

  lemma ShrinkEmptiedInv(s: State, s': State)
    requires Inv(s) && ShrinkEmptied(s, s')
    ensures Inv(s')
  {
    hide PcInv, PcBuckets, Reach, ReclaimInv, OwnerInv, UniqueInv, ThreadInv;
    Pow2Strict(s.order, s.order + 1);
    assert 0 < Limit(s) && !InOrder(s, 0);
    assert Root(s') == Root(s);
    forall w | w in s'.retired && w !in s.retired
      ensures Gone(s, w)
    {
      var j :| j in s.buckets && InOrder(s, j) && s.buckets[j] == w;
    }
    SameReclaim(s, s');
    forall j | j in s'.buckets
      ensures IndexBound(s', j)
    {
      assert IndexBound(s, j) && !InOrder(s, j);
    }
    ResizerFrame(s, s');
  }

  lemma ShrinkLastWaitInv(s: State, s': State, g: nat)
    requires Inv(s) && ShrinkLastWait(s, s', g)
    ensures Inv(s')
  {
    hide PcInv, PcBuckets, Reach, ReclaimInv, OwnerInv, UniqueInv, ThreadInv;
    GpReclaim(s, s', g);
    ResizerFrame(s, s');
  }

  lemma ShrinkFreeInv(s: State, s': State)
    requires Inv(s) && ShrinkFree(s, s')
    ensures Inv(s')
  {
    hide PcInv, PcBuckets, Reach, ReclaimInv, OwnerInv, UniqueInv, ThreadInv;
    FreeReclaim(s, s', s.rz.gp, s.rz.stale);
    ResizerFrame(s, s');
  }

  lemma SameResizer(s: State, s': State)
    requires ResizerInv(s) && ResizerMove(s, s') && s'.rz == s.rz && s'.buckets == s.buckets && s'.order == s.order
    requires s.retired <= s'.retired && (forall g :: g in s.gps ==> g in s'.gps && s'.gps[g] == s.gps[g])
    ensures ResizerInv(s')
  {
    hide Reach, PcBuckets;
    if s.rz.Removing? {
      forall j | j in s.rz.done
        ensures Gone(s', s'.buckets[j])
      {
        assert Gone(s, s.buckets[j]);
      }
    } else if s.rz.Waiting? {
      forall t, b | t in s'.threads && b in PcBuckets(s'.threads[t].pc) && OuterBucket(s', b)
        ensures t in s'.gps[s.rz.gp].pending
      {
        assert OuterBucket(s, b);
      }
    }
  }

  lemma StartGpInv(s: State, s': State, g: nat)
    requires Inv(s) && StartGp(s, s', g)
    ensures Inv(s')
  {
    hide PcInv, PcBuckets, Reach, ReclaimInv, OwnerInv, UniqueInv, ThreadInv, ResizerInv;
    GpReclaim(s, s', g);
    SameResizer(s, s');
    ResizerFrame(s, s');
  }

  lemma FreeItemInv(s: State, s': State, g: nat, w: Node)
    requires Inv(s) && FreeItem(s, s', g, w)
    ensures Inv(s')
  {
    hide PcInv, PcBuckets, Reach, ReclaimInv, OwnerInv, UniqueInv, ThreadInv, ResizerInv;
    FreeReclaim(s, s', g, {w});
    SameResizer(s, s');
    ResizerFrame(s, s');
  }
}
