/**
 Read-side sections, the end of garbage collection, the resizer and its
 workers, and reclamation keep the invariant.
 */
module HashTableResize {
  import opened SplitOrder
  import opened SplitList
  import opened HashTable
  import opened HashTableInv
  import opened HashTableStable
  import opened HashTableFrame

  // ---------- read-side sections ----------

  lemma EnterInv(s: State, s': State, t: Tid)
    requires Inv(s) && Enter(s, s', t)
    ensures Inv(s')
  {
    hide ReclaimInv, OwnerInv, UniqueInv, ResizerInv, Reach;
    assert ThreadInv(s, t);
    LocalInv(s, s', t);
  }

  /** A step that leaves list, table and used keys alone and keeps what the threads rely on. */
  lemma ThreadsKept(s: State, s': State)
    requires Inv(s) && HashInv(s') && Calm(s, s')
    requires forall u :: u in s.threads ==> BucketsKept(s, s', s.threads[u].pc) && ClaimsKept(s, s', u)
    requires forall u :: u in s'.threads ==>
               u in s.threads && (s'.threads[u] == s.threads[u] || s'.threads[u] == Thread(false, {}, Idle(Nothing)))
    ensures forall u :: u in s'.threads ==> ThreadInv(s', u)
  {
    forall u | u in s'.threads
      ensures ThreadInv(s', u)
    {
      assert ThreadInv(s, u);
      if s'.threads[u] == s.threads[u] { PcStable(s, s', u, s.threads[u].pc); }
    }
  }

  lemma SameHeapCalm(s: State, s': State)
    requires s'.h == s.h && s'.bits == s.bits && Root(s') == Root(s) && s'.plain == s.plain && s'.uniq == s.uniq
    ensures Calm(s, s')
  {
    EvolvesSame(s.h, Root(s));
  }

  lemma ExitInv(s: State, s': State, t: Tid)
    requires Inv(s) && Exit(s, s', t)
    ensures Inv(s')
  {
    hide PcInv, PcPtrs, Reach;
    SameHeapCalm(s, s');
    ThreadsKept(s, s') by { hide ThreadInv, ReclaimInv, OwnerInv; }
    ExitOwner(s, s', t);
    ExitReclaim(s, s', t);
    ExitResizer(s, s', t);
  }

  lemma ExitOwner(s: State, s': State, t: Tid)
    requires OwnerInv(s) && Exit(s, s', t)
    ensures OwnerInv(s')
  {
    forall n
      ensures s'.wins[n] == if OwnedItem(s', n) then 1 else 0
    {
      assert OwnedItem(s', n) == OwnedItem(s, n);
    }
    forall n | ItemNode(s', n) && s'.h[n].next.removed && !s'.h[n].next.owner
      ensures exists u :: u in s'.threads && Committed(s'.threads[u].pc, n)
    {
      assert ItemNode(s, n);
      var u :| u in s.threads && Committed(s.threads[u].pc, n);
      assert Committed(s'.threads[u].pc, n);
    }
  }

  lemma ExitReclaim(s: State, s': State, t: Tid)
    requires ReclaimInv(s) && Exit(s, s', t)
    ensures ReclaimInv(s')
  {
    hide Reach;
    assert Ptrs(s'.threads[t]) == {};
    forall w | w in s'.retired
      ensures Gone(s', w)
    {
      assert Gone(s, w);
    }
  }

  lemma ExitResizer(s: State, s': State, t: Tid)
    requires ResizerInv(s) && Exit(s, s', t)
    ensures ResizerInv(s')
  {
    hide Reach;
    if s.rz.Removing? {
      forall j | j in s.rz.done
        ensures Gone(s', s'.buckets[j])
      {
        assert Gone(s, s.buckets[j]);
      }
    } else if s.rz.Waiting? {
      assert PcBuckets(s'.threads[t].pc) == {};
      forall u, b | u in s'.threads && b in PcBuckets(s'.threads[u].pc) && OuterBucket(s', b)
        ensures u in s'.gps[s.rz.gp].pending
      {
        assert OuterBucket(s, b);
      }
    }
  }

  // ---------- the end of garbage collection ----------

  /** When garbage collection returns, every node it had to unlink is out of the list. */
  lemma GcDoneGone(s: State, pc: Pc, w: Node)
    requires Inv(s) && pc.GcWalk? && pc.gc.bucket in s.h && (forall x :: x in pc.gc.before ==> x in s.h)
    requires GcSeen(s, pc.gc, pc.iter.succ)
    requires pc.iter.succ == END || (pc.iter.succ in s.h && s.h[pc.iter.succ].rh > pc.gc.marker)
    requires w in pc.gc.before && Removed(s.h, w) && Before(s.h, pc.gc.bucket, w) && s.h[w].rh <= pc.gc.marker
    ensures Gone(s, w)
  {
  }

  lemma OwnDoneInv(s: State, s': State, t: Tid, n: Node)
    requires Inv(s) && GcDone(s, s', t) && s.threads[t].pc.gc.after == Own(n) && ItemNode(s, n) && Gone(s, n)
    ensures Inv(s')
  {
    hide ReclaimInv, OwnerInv, UniqueInv, ResizerInv, Reach, GcSeen, TableInv, ListInv;
    assert ThreadInv(s, t);
    LocalInv(s, s', t);
  }

  lemma GcDoneInv(s: State, s': State, t: Tid)
    requires Inv(s) && GcDone(s, s', t)
    ensures Inv(s')
  {
    hide ReclaimInv, OwnerInv, UniqueInv, ResizerInv, Reach, GcSeen;
    assert ThreadInv(s, t);
    var pc := s.threads[t].pc;
    match pc.gc.after
    case Own(n) =>
      GcDoneGone(s, pc, n);
      hide Inv, GcSeen, ThenInv;
      OwnDoneInv(s, s', t, n);
    case Swapped(prior, n) =>
      GcDoneGone(s, pc, prior);
      SwappedInv(s, s', t, prior);
    case Unlinked(j) =>
      GcDoneGone(s, pc, s.buckets[j]);
      UnlinkedInv(s, s', t, j);
  }

  lemma DoneOwner(s: State, s': State, t: Tid)
    requires OwnerInv(s) && s'.h == s.h && s'.wins == s.wins
    requires t in s.threads && t in s'.threads && s'.threads == s.threads[t := s'.threads[t]]
    requires forall n :: !Committed(s.threads[t].pc, n)
    ensures OwnerInv(s')
  {
    forall n
      ensures s'.wins[n] == if OwnedItem(s', n) then 1 else 0
    {
      assert OwnedItem(s', n) == OwnedItem(s, n);
    }
    forall n | ItemNode(s', n) && s'.h[n].next.removed && !s'.h[n].next.owner
      ensures exists u :: u in s'.threads && Committed(s'.threads[u].pc, n)
    {
      assert ItemNode(s, n);
      var u :| u in s.threads && Committed(s.threads[u].pc, n);
      assert Committed(s'.threads[u].pc, n);
    }
  }

  lemma SwappedEnd(s: State, s': State, t: Tid)
    requires Inv(s) && GcDone(s, s', t) && s.threads[t].pc.gc.after.Swapped?
    ensures ThreadInv(s', t) && PtrsFrom(s, s', t)
  {
    hide ReclaimInv, UniqueInv, ResizerInv, Reach, GcSeen, OwnerInv, TableInv, ListInv;
    assert ThreadInv(s, t);
  }

  lemma SwappedInv(s: State, s': State, t: Tid, prior: Node)
    requires Inv(s) && GcDone(s, s', t) && s.threads[t].pc.gc.after.Swapped? && s.threads[t].pc.gc.after.prior == prior
    requires Gone(s, prior)
    ensures Inv(s')
  {
    hide PcInv, ThreadInv, PtrsFrom, ReclaimInv, UniqueInv, ResizerInv, Reach, GcSeen, OwnerInv, RzMoved;
    SameHeapCalm(s, s');
    DoneOwner(s, s', t);
    SameUnique(s, s');
    SwappedEnd(s, s', t);
    SameRz(s, s');
    assert Gone(s', prior);
    MoveInv(s, s', t);
  }

  lemma SameUnique(s: State, s': State)
    requires UniqueInv(s) && s'.h == s.h && s'.plain == s.plain
    ensures UniqueInv(s')
  {
  }

  lemma SameRz(s: State, s': State)
    requires Inv(s) && s'.rz == s.rz && s'.h == s.h && s'.buckets == s.buckets && s'.order == s.order
    ensures RzMoved(s, s')
  {
    hide ReclaimInv, UniqueInv, OwnerInv, PcInv, Reach;
  }

  lemma UnlinkedInv(s: State, s': State, t: Tid, j: nat)
    requires Inv(s) && GcDone(s, s', t) && s.threads[t].pc.gc.after == Unlinked(j)
    requires UnlinkClaim(s, j, t) && Gone(s, s.buckets[j])
    ensures Inv(s')
  {
    hide PcInv, UniqueInv, Reach, GcSeen, OwnerInv;
    SameHeapCalm(s, s');
    DoneOwner(s, s', t);
    assert UniqueInv(s') by { SameUnique(s, s'); }
    assert ThreadInv(s, t);
    assert ThreadInv(s', t) by { IdleInv(s', t, Nothing); }
    OthersKept(s, s', t) by {
      forall u | u in s.threads && u != t
        ensures BucketsKept(s, s', s.threads[u].pc) && ClaimsKept(s, s', u)
      {
        UnlinkedOthers(s, s', t, j, u);
      }
    }
    ReclaimKept(s, s', t);
    forall i | i in s'.rz.done
      ensures i in s'.rz.claims && InOrder(s', i) && i in s'.buckets && Gone(s', s'.buckets[i])
    {
      assert i in s.rz.done ==> Gone(s, s.buckets[i]);
    }
  }

  lemma IdleInv(s: State, t: Tid, ret: Ret)
    ensures PcInv(s, t, Idle(ret))
  {
  }

  lemma UnlinkedOthers(s: State, s': State, t: Tid, j: nat, u: Tid)
    requires Inv(s) && GcDone(s, s', t) && s.threads[t].pc.gc.after == Unlinked(j) && UnlinkClaim(s, j, t) && u != t
    ensures u in s.threads ==> BucketsKept(s, s', s.threads[u].pc)
    ensures ClaimsKept(s, s', u)
  {
    hide PcInv, UniqueInv, Reach, GcSeen, OwnerInv, PcBuckets, ReclaimInv, TableInv, ListInv;
  }

  // ---------- workers ----------

  lemma BeginLinkPc(s: State, s': State, t: Tid, j: nat)
    requires Inv(s) && BeginLink(s, s', t, j)
    ensures ThreadInv(s', t) && PtrsFrom(s, s', t)
  {
    hide ReclaimInv, UniqueInv, Reach, GcSeen, OwnerInv;
    var b := s.buckets[BucketIndex(s.order, j)];
    ParentPrecedes(s.bits, s.order, j);
    assert BucketOk(s', b) && Live(s.h, b);
    assert ThreadInv(s, t);
  }

  lemma BeginLinkInv(s: State, s': State, t: Tid, j: nat)
    requires Inv(s) && BeginLink(s, s', t, j)
    ensures Inv(s')
  {
    hide ReclaimInv, UniqueInv, Reach, GcSeen, OwnerInv, PcInv;
    SameHeapCalm(s, s');
    DoneOwner(s, s', t);
    assert UniqueInv(s') by { SameUnique(s, s'); }
    BeginLinkPc(s, s', t, j);
    MoveInv(s, s', t);
  }

  lemma BeginUnlinkPc(s: State, s': State, t: Tid, j: nat)
    requires Inv(s) && BeginUnlink(s, s', t, j)
    ensures ThreadInv(s', t) && PtrsFrom(s, s', t)
  {
    hide ReclaimInv, UniqueInv, Reach, OwnerInv, ListInv;
    var b := s.buckets[j - Pow2(s.order)];
    ParentPrecedes(s.bits, s.order, j);
    assert BucketOk(s', b) && Live(s.h, b);
    assert ThreadInv(s, t);
  }

  lemma BeginUnlinkRz(s: State, s': State, t: Tid, j: nat)
    requires Inv(s) && BeginUnlink(s, s', t, j)
    ensures RzMoved(s, s')
    ensures forall u :: u in s.threads && u != t ==> BucketsKept(s, s', s.threads[u].pc) && ClaimsKept(s, s', u)
  {
    hide PcInv, PcBuckets, ReclaimInv, UniqueInv, Reach, OwnerInv, ListInv, TableInv;
  }

  lemma BeginUnlinkInv(s: State, s': State, t: Tid, j: nat)
    requires Inv(s) && BeginUnlink(s, s', t, j)
    ensures Inv(s')
  {
    hide PcInv, PtrsFrom, RzMoved, BucketsKept, ClaimsKept, ReclaimInv, UniqueInv, Reach, OwnerInv, ResizerInv;
    SameHeapCalm(s, s');
    DoneOwner(s, s', t);
    SameUnique(s, s');
    BeginUnlinkPc(s, s', t, j);
    BeginUnlinkRz(s, s', t, j);
    MoveInv(s, s', t);
  }
}
