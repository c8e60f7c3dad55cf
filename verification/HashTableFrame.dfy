/**
 The frame of a thread step: everything the step leaves alone keeps its
 invariant, so that each step only has to account for what it changes.
 */
module HashTableFrame {
  import opened SplitList
  import opened HashTable
  import opened HashTableInv
  import opened HashTableStable

  /** Where a thread may get a pointer from in one step. */
  ghost predicate PtrFrom(s: State, s': State, th: Thread, p: Node) {
    || p == END
    || p in Ptrs(th)
    || (exists q :: q in Ptrs(th) && q in s.h && p == s.h[q].next.succ)
    || Live(s.h, p)
    || (p !in s.h && p in s'.h)
  }

  ghost predicate PtrsFrom(s: State, s': State, t: Tid)
    requires t in s.threads && t in s'.threads
  {
    forall p :: p in Ptrs(s'.threads[t]) ==> PtrFrom(s, s', s.threads[t], p)
  }

  /** Only thread `t` moved. */
  predicate Moved(s: State, s': State, t: Tid) {
    && t in s.threads && t in s'.threads && s'.threads == s.threads[t := s'.threads[t]]
    && s'.order == s.order && s'.gps == s.gps && s'.freed == s.freed && s'.bits == s.bits
    && s.retired <= s'.retired
  }

  lemma CleanKept(s: State, s': State, th: Thread, w: Node)
    requires Calm(s, s') && Clean(s.h, th, w) && Gone(s, w)
    ensures Clean(s'.h, th, w)
  {
  }

  lemma CleanMove(s: State, s': State, th: Thread, th': Thread, w: Node)
    requires Calm(s, s') && ListInv(s.h, Root(s)) && Clean(s.h, th, w) && Gone(s, w)
    requires forall p :: p in Ptrs(th') ==> PtrFrom(s, s', th, p)
    requires END !in s'.h
    ensures Clean(s'.h, th', w)
  {
    forall p | p in Ptrs(th')
      ensures !Reach(s'.h, p, w)
    {
      if Reach(s'.h, p, w) {
        assert p in s.h && Reach(s.h, p, w);
        if Live(s.h, p) {
          ReachTrans(s.h, Root(s), p, w);
        } else if p !in Ptrs(th) {
          var q :| q in Ptrs(th) && q in s.h && p == s.h[q].next.succ;
          ReachStep(s.h, q, w);
        }
      }
    }
  }

  lemma ReclaimKept(s: State, s': State, t: Tid)
    requires Inv(s) && Calm(s, s') && Moved(s, s', t) && PtrsFrom(s, s', t) && END !in s'.h
    requires forall w :: w in s'.retired && w !in s.retired ==> Gone(s', w)
    ensures ReclaimInv(s')
  {
    forall w | w in s'.retired
      ensures Gone(s', w)
    {
      if w in s.retired { GoneStable(s, s', w); }
    }
    forall u, w | u in s.threads && w in s.retired && Clean(s.h, s.threads[u], w)
      ensures Clean(s'.h, s'.threads[u], w)
    {
      if u == t {
        CleanMove(s, s', s.threads[t], s'.threads[t], w);
      } else {
        CleanKept(s, s', s.threads[u], w);
      }
    }
  }

  lemma OthersKept(s: State, s': State, t: Tid)
    requires Inv(s) && Calm(s, s') && Moved(s, s', t) && HashInv(s')
    requires forall u :: u in s.threads && u != t ==> BucketsKept(s, s', s.threads[u].pc) && ClaimsKept(s, s', u)
    ensures forall u :: u in s.threads && u != t ==> ThreadInv(s', u)
  {
    forall u | u in s.threads && u != t
      ensures ThreadInv(s', u)
    {
      assert ThreadInv(s, u);
      PcStable(s, s', u, s.threads[u].pc);
    }
  }

  /** While a shrink waits, a moving thread outside the waited-for set picks up no outer bucket. */
  ghost predicate NoOuterPickup(s: State, s': State, t: Tid)
    requires t in s.threads && t in s'.threads
  {
    s.rz.Waiting? ==>
      forall b :: b in PcBuckets(s'.threads[t].pc) ==>
          b in PcBuckets(s.threads[t].pc) || (b in s.h && !OuterBucket(s, b))
  }

  /** What a moving thread may do to the resizer and to the bucket array. */
  ghost predicate RzMoved(s: State, s': State) {
    && (s'.rz == s.rz || (s.rz.Growing? && s'.rz.Growing?)
        || (s.rz.Removing? && s'.rz.Removing? && s'.rz.done == s.rz.done && s.rz.claims.Keys <= s'.rz.claims.Keys))
    && (s'.rz.Growing? ==> GrowInv(s', s'.rz.claims))
    && (s'.rz.Removing? ==> RemoveInv(s', s'.rz.claims))
    && (forall j :: j in s.buckets ==> j in s'.buckets && s'.buckets[j] == s.buckets[j])
  }

  lemma ResizerKept(s: State, s': State, t: Tid)
    requires Inv(s) && Calm(s, s') && Moved(s, s', t) && NoOuterPickup(s, s', t) && RzMoved(s, s')
    ensures ResizerInv(s')
  {
    hide PcInv, PcBuckets;
    BucketsListed(s);
    if s.rz.Removing? {
      forall j | j in s.rz.done
        ensures Gone(s', s'.buckets[j])
      {
        GoneStable(s, s', s.buckets[j]);
      }
    } else if s.rz.Waiting? {
      var g := s.rz.gp;
      forall u, b | u in s'.threads && b in PcBuckets(s'.threads[u].pc) && OuterBucket(s', b)
        ensures u in s'.gps[g].pending
      {
        assert b in PcBuckets(s.threads[u].pc) ==> BucketOk(s, b);
        assert b in s.h;
        assert OuterBucket(s, b);
      }
    }
  }

  lemma PcBucketListed(s: State, u: Tid, pc: Pc, b: Node)
    requires PcInv(s, u, pc) && b in PcBuckets(pc)
    ensures BucketOk(s, b)
  {
  }

  /** The frame: a step of one thread that does all of the following keeps the invariant. */
  ghost predicate Frame(s: State, s': State, t: Tid) {
    && Calm(s, s') && Moved(s, s', t)
    && PtrsFrom(s, s', t) && NoOuterPickup(s, s', t) && RzMoved(s, s')
    && (forall u :: u in s.threads && u != t ==> BucketsKept(s, s', s.threads[u].pc) && ClaimsKept(s, s', u))
    && (forall w :: w in s'.retired && w !in s.retired ==> Gone(s', w))
  }

  lemma MoveInv(s: State, s': State, t: Tid)
    requires Inv(s) && Frame(s, s', t)
    requires TableInv(s') && ListInv(s'.h, Root(s')) && UniqueInv(s') && OwnerInv(s') && ThreadInv(s', t)
    ensures Inv(s')
  {
    hide PcInv, PtrsFrom, UniqueInv, OwnerInv, RzMoved, NoOuterPickup, ReclaimInv, ResizerInv;
    OthersKept(s, s', t);
    ReclaimKept(s, s', t);
    ResizerKept(s, s', t);
  }

  // ---------- steps that only read ----------

  /** A step of `t` that changes nothing but the thread itself and the records of used keys. */
  predicate LocalMove(s: State, s': State, t: Tid) {
    && t in s.threads && t in s'.threads && s.plain <= s'.plain && s.uniq <= s'.uniq
    && s' == s.(threads := s.threads[t := s'.threads[t]], plain := s'.plain, uniq := s'.uniq)
  }

  lemma LocalCalm(s: State, s': State, t: Tid)
    requires Inv(s) && LocalMove(s, s', t)
    ensures Calm(s, s') && Moved(s, s', t)
    ensures forall u :: BucketsKept(s, s', s'.threads[t].pc) && ClaimsKept(s, s', u)
    ensures forall u :: u in s.threads ==> BucketsKept(s, s', s.threads[u].pc)
  {
    EvolvesSame(s.h, Root(s));
    hide PcInv, ReclaimInv, OwnerInv, UniqueInv, ResizerInv, Reach, PcBuckets, Evolves;
    assert BucketsKept(s, s', s'.threads[t].pc);
    forall u
      ensures ClaimsKept(s, s', u)
    {
    }
  }

  lemma LocalOwner(s: State, s': State, t: Tid)
    requires OwnerInv(s) && LocalMove(s, s', t)
    requires forall n :: Committed(s.threads[t].pc, n) ==> Committed(s'.threads[t].pc, n)
    ensures OwnerInv(s')
  {
    forall n | ItemNode(s', n) && s'.h[n].next.removed && !s'.h[n].next.owner
      ensures exists u :: u in s'.threads && Committed(s'.threads[u].pc, n)
    {
      assert ItemNode(s, n);
      var u :| u in s.threads && Committed(s.threads[u].pc, n);
      assert Committed(s'.threads[u].pc, n);
    }
    forall n
      ensures s'.wins[n] == if OwnedItem(s', n) then 1 else 0
    {
      assert OwnedItem(s', n) == OwnedItem(s, n);
    }
  }

  /** A reading step keeps the invariant if its new program point and pointers are accounted for. */
  lemma LocalInv(s: State, s': State, t: Tid)
    requires Inv(s) && LocalMove(s, s', t)
    requires ThreadInv(s', t) && PtrsFrom(s, s', t) && NoOuterPickup(s, s', t)
    requires forall n :: Committed(s.threads[t].pc, n) ==> Committed(s'.threads[t].pc, n)
    ensures Inv(s')
  {
    hide PcInv, PtrFrom;
    LocalCalm(s, s', t);
    LocalOwner(s, s', t);
    MoveInv(s, s', t);
  }

  lemma BucketsListed(s: State)
    requires Inv(s)
    ensures forall u, b :: u in s.threads && b in PcBuckets(s.threads[u].pc) ==> BucketOk(s, b)
  {
    hide PcInv, PcBuckets;
    forall u, b | u in s.threads && b in PcBuckets(s.threads[u].pc)
      ensures BucketOk(s, b)
    {
      assert ThreadInv(s, u);
      PcBucketListed(s, u, s.threads[u].pc, b);
    }
  }
}
