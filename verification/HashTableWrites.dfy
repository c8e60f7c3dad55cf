/**
 The steps that write next words keep the invariant: insertion, replacement,
 the two removal flags and path compression.
 */
module HashTableWrites {
  import opened SplitList
  import opened HashTable
  import opened HashTableInv
  import opened HashTableStable
  import opened HashTableFrame

  // ---------- heaps with no new live node ----------

  ghost predicate NoNewLive(h: Heap, h': Heap) {
    && h'.Keys == h.Keys
    && forall n :: n in h ==>
             h'[n].rh == h[n].rh && h'[n].kind == h[n].kind && (h[n].next.removed ==> h'[n].next.removed)
  }

  lemma QuietCalm(s: State, s': State)
    requires s'.bits == s.bits && s'.buckets == s.buckets && s.plain <= s'.plain && s.uniq <= s'.uniq
    requires Evolves(s.h, s'.h, Root(s)) && NoNewLive(s.h, s'.h)
    ensures Calm(s, s')
  {
    forall k, y | LiveKey(s'.h, y, k)
      ensures LiveKey(s.h, y, k)
    {
    }
  }

  lemma QuietUnique(s: State, s': State)
    requires UniqueInv(s) && s.plain <= s'.plain && NoNewLive(s.h, s'.h)
    ensures UniqueInv(s')
  {
    forall k, x, y | k !in s'.plain && LiveKey(s'.h, x, k) && LiveKey(s'.h, y, k)
      ensures x == y
    {
      assert LiveKey(s.h, x, k) && LiveKey(s.h, y, k);
    }
  }

  /** Of the removed flags only `n`'s changes, and `n` is no bucket in use. */
  lemma QuietTable(s: State, s': State, n: Node)
    requires TableInv(s) && NoNewLive(s.h, s'.h)
    requires s' == s.(h := s'.h, threads := s'.threads, wins := s'.wins, retired := s'.retired)
    requires forall m :: m in s.h && m != n ==> s'.h[m].next.removed == s.h[m].next.removed
    requires n in s.h
    requires s.h[n].next.removed == s'.h[n].next.removed || s.h[n].kind.Item? || s.h[n].kind.index >= Limit(s)
    ensures TableInv(s')
  {
    assert Limit(s') == Limit(s);
    forall j | 0 <= j < Limit(s)
      ensures j in s'.buckets && Live(s'.h, s'.buckets[j])
    {
      assert Live(s.h, s.buckets[j]);
    }
    assert HashInv(s');
  }

  /** A bucket that a worker of a shrink has taken up. */
  predicate FreeToMark(s: State, j: nat) { s.rz.Removing? && j in s.rz.claims }

  lemma QuietGrow(s: State, s': State, n: Node)
    requires Inv(s) && NoNewLive(s.h, s'.h) && s'.rz == s.rz && s'.buckets == s.buckets && s'.order == s.order
    requires forall m :: m in s.h && m != n ==> s'.h[m].next.removed == s.h[m].next.removed
    requires n in s.h
    requires s.h[n].next.removed == s'.h[n].next.removed || s.h[n].kind.Item? || FreeToMark(s, s.h[n].kind.index)
    ensures RzMoved(s, s')
  {
    hide ReclaimInv, UniqueInv, OwnerInv, PcInv;
  }

  // ---------- path compression ----------

  lemma CutIsUnlink(h: Heap, root: Node, prev: Node, iter: Link, next: Link)
    requires ListInv(h, root) && CutOk(h, prev, iter, next)
    ensures Cut(h, prev, iter, next) == h || (CanUnlink(h, prev) && Cut(h, prev, iter, next) == Unlink(h, prev))
  {
  }

  lemma CutEffect(h: Heap, root: Node, prev: Node, iter: Link, next: Link)
    requires ListInv(h, root) && CutOk(h, prev, iter, next)
    ensures var h' := Cut(h, prev, iter, next);
            && ListInv(h', root) && Evolves(h, h', root) && NoNewLive(h, h')
            && forall m :: m in h ==> h'[m].next.removed == h[m].next.removed && h'[m].next.owner == h[m].next.owner
  {
    hide Reach;
    CutIsUnlink(h, root, prev, iter, next);
    if Cut(h, prev, iter, next) == h {
      EvolvesSame(h, root);
    } else {
      UnlinkInv(h, root, prev);
      UnlinkEvolves(h, root, prev);
    }
  }

  lemma CutOwner(s: State, s': State, t: Tid)
    requires OwnerInv(s) && t in s.threads && t in s'.threads && s'.threads == s.threads[t := s'.threads[t]]
    requires s'.wins == s.wins && NoNewLive(s.h, s'.h)
    requires forall m :: m in s.h ==>
             s'.h[m].next.removed == s.h[m].next.removed && s'.h[m].next.owner == s.h[m].next.owner
    requires forall n :: Committed(s.threads[t].pc, n) ==> Committed(s'.threads[t].pc, n)
    ensures OwnerInv(s')
  {
    forall n
      ensures s'.wins[n] == if OwnedItem(s', n) then 1 else 0
    {
      assert OwnedItem(s', n) == OwnedItem(s, n);
    }
    forall n | ItemNode(s', n) && s'.h[n].next.removed && !s'.h[n].next.owner
      ensures exists u :: u in s'.threads && Committed(s'.threads[u].pc, n)
    {
      assert ItemNode(s, n);
      var u :| u in s.threads && Committed(s.threads[u].pc, n);
      assert Committed(s'.threads[u].pc, n);
    }
  }

  lemma CutInv(s: State, s': State, t: Tid, prev: Node, iter: Link, next: Link)
    requires Inv(s) && At(s, t) && At(s', t) && CutOk(s.h, prev, iter, next)
    requires s' == s.(threads := s.threads[t := s.threads[t].(pc := s'.threads[t].pc)], h := Cut(s.h, prev, iter, next))
    requires PcInv(s, t, s'.threads[t].pc)
    requires PcPtrs(s'.threads[t].pc) <= PcPtrs(s.threads[t].pc)
    requires PcBuckets(s'.threads[t].pc) <= PcBuckets(s.threads[t].pc)
    requires forall n :: Committed(s.threads[t].pc, n) ==> Committed(s'.threads[t].pc, n)
    ensures Inv(s')
  {
    hide PcInv, PcBuckets, PcPtrs, Committed, Evolves, Reach, Cut, CutOk;
    hide ReclaimInv, ResizerInv, OwnerInv, UniqueInv, RzMoved;
    CutEffect(s.h, Root(s), prev, iter, next);
    QuietCalm(s, s');
    QuietUnique(s, s');
    CutPrev(s.h, prev, iter, next);
    QuietTable(s, s', prev);
    QuietGrow(s, s', prev);
    CutOwner(s, s', t);
    assert ClaimsKept(s, s', t) && BucketsKept(s, s', s'.threads[t].pc);
    PcStable(s, s', t, s'.threads[t].pc);
    assert ThreadInv(s, t);
    assert ThreadInv(s', t);
    assert PtrsFrom(s, s', t);
    MoveInv(s, s', t);
  }

  lemma CutPrev(h: Heap, prev: Node, iter: Link, next: Link)
    requires CutOk(h, prev, iter, next)
    ensures prev in h
  {
  }

  lemma HelpInv(s: State, s': State, t: Tid)
    requires Inv(s) && HelpStep(s, s', t)
    ensures Inv(s')
  {
    hide ReclaimInv, OwnerInv, UniqueInv, ResizerInv, Reach;
    assert ThreadInv(s, t);
    var pc := s.threads[t].pc;
    CutInv(s, s', t, pc.prev, pc.iter, pc.next);
  }

  lemma GcCutInv(s: State, s': State, t: Tid)
    requires Inv(s) && GcCutStep(s, s', t)
    ensures Inv(s')
  {
    hide ReclaimInv, OwnerInv, UniqueInv, ResizerInv, Reach;
    assert ThreadInv(s, t);
    var pc := s.threads[t].pc;
    CutInv(s, s', t, pc.prev, pc.iter, pc.next);
  }

  // ---------- the removal flags ----------

  lemma FlagEffect(h: Heap, root: Node, n: Node, own: bool)
    requires ListInv(h, root) && n in h && n != root
    ensures var h' := Flag(h, n, own);
            && ListInv(h', root) && Evolves(h, h', root) && NoNewLive(h, h') && Removed(h', n)
            && forall m :: m in h && m != n ==> h'[m] == h[m]
  {
    hide Reach;
    FlagInv(h, root, n, own);
    FlagEvolves(h, root, n, own);
  }

  lemma NotRoot(s: State, n: Node)
    requires Inv(s) && n in s.h && (s.h[n].kind.Item? || s.h[n].kind.index >= Limit(s))
    ensures n != Root(s)
  {
    assert 0 < Limit(s);
  }

  lemma FlagInvStep(s: State, s': State, t: Tid, n: Node, own: bool)
    requires Inv(s) && At(s, t) && At(s', t) && n in s.h
    requires s.h[n].kind.Item? || (s.h[n].kind.index >= Limit(s) && FreeToMark(s, s.h[n].kind.index))
    requires s' == s.(threads := s.threads[t := s.threads[t].(pc := s'.threads[t].pc)], h := Flag(s.h, n, own),
                      wins := s'.wins, retired := s'.retired)
    requires s.retired <= s'.retired <= s.retired + {n} && (n in s'.retired && n !in s.retired ==> Gone(s, n))
    requires BucketsKept(s, s', s.threads[t].pc) && ClaimsKept(s, s', t) ==> PcInv(s', t, s'.threads[t].pc)
    requires PcPtrs(s'.threads[t].pc) <= PcPtrs(s.threads[t].pc)
    requires PcBuckets(s'.threads[t].pc) <= PcBuckets(s.threads[t].pc)
    requires OwnerInv(s')
    ensures Inv(s')
  {
    hide PcInv, PcBuckets, PcPtrs, Committed, Evolves, Reach, OwnerInv, ReclaimInv, ResizerInv, UniqueInv, RzMoved;
    NotRoot(s, n);
    FlagEffect(s.h, Root(s), n, own);
    QuietCalm(s, s');
    QuietUnique(s, s');
    QuietTable(s, s', n);
    QuietGrow(s, s', n);
    assert ThreadInv(s, t);
    assert ThreadInv(s', t);
    assert PtrsFrom(s, s', t);
    if n in s'.retired && n !in s.retired { GoneStable(s, s', n); }
    MoveInv(s, s', t);
  }

  lemma MarkOwner(s: State, s': State, t: Tid, n: Node)
    requires OwnerInv(s) && t in s.threads && t in s'.threads && s'.threads == s.threads[t := s'.threads[t]]
    requires n in s.h && s'.h == Flag(s.h, n, false) && s'.wins == s.wins
    requires forall m :: !Committed(s.threads[t].pc, m)
    requires s.h[n].kind.Item? ==> Committed(s'.threads[t].pc, n)
    ensures OwnerInv(s')
  {
    forall m
      ensures s'.wins[m] == if OwnedItem(s', m) then 1 else 0
    {
      assert OwnedItem(s', m) == OwnedItem(s, m);
    }
    forall m | ItemNode(s', m) && s'.h[m].next.removed && !s'.h[m].next.owner
      ensures exists u :: u in s'.threads && Committed(s'.threads[u].pc, m)
    {
      if m != n {
        assert ItemNode(s, m);
        var u :| u in s.threads && Committed(s.threads[u].pc, m);
        assert Committed(s'.threads[u].pc, m);
      }
    }
  }

  lemma DelMarkInv(s: State, s': State, t: Tid)
    requires Inv(s) && DelMark(s, s', t)
    ensures Inv(s')
  {
    hide ReclaimInv, UniqueInv, ResizerInv, Reach, OwnerInv;
    assert ThreadInv(s, t);
    var n := s.threads[t].pc.node;
    MarkOwner(s, s', t, n);
    FlagInvStep(s, s', t, n, false);
  }

  lemma BucketMarkInv(s: State, s': State, t: Tid)
    requires Inv(s) && BucketMark(s, s', t)
    ensures Inv(s')
  {
    hide ReclaimInv, UniqueInv, ResizerInv, Reach, OwnerInv;
    assert ThreadInv(s, t);
    var n := s.threads[t].pc.node;
    MarkOwner(s, s', t, n);
    FlagInvStep(s, s', t, n, false);
  }

  lemma XchgOwner(s: State, s': State, t: Tid, n: Node)
    requires OwnerInv(s) && t in s.threads && t in s'.threads && s'.threads == s.threads[t := s'.threads[t]]
    requires ItemNode(s, n) && s'.h == Flag(s.h, n, true)
    requires s'.wins == if s.h[n].next.owner then s.wins else s.wins + multiset{n}
    requires forall m :: m != n ==> !Committed(s.threads[t].pc, m)
    ensures OwnerInv(s')
  {
    forall m
      ensures s'.wins[m] == if OwnedItem(s', m) then 1 else 0
    {
      assert m != n ==> OwnedItem(s', m) == OwnedItem(s, m);
      assert s.wins[m] == if OwnedItem(s, m) then 1 else 0;
    }
    forall m | ItemNode(s', m) && s'.h[m].next.removed && !s'.h[m].next.owner
      ensures exists u :: u in s'.threads && Committed(s'.threads[u].pc, m)
    {
      assert ItemNode(s, m);
      var u :| u in s.threads && Committed(s.threads[u].pc, m);
      assert Committed(s'.threads[u].pc, m);
    }
  }

  lemma OwnXchgInv(s: State, s': State, t: Tid)
    requires Inv(s) && DelOwnXchg(s, s', t)
    ensures Inv(s')
  {
    hide ReclaimInv, UniqueInv, ResizerInv, Reach, OwnerInv;
    assert ThreadInv(s, t);
    var n := s.threads[t].pc.node;
    assert s'.h == Flag(s.h, n, true);
    XchgOwner(s, s', t, n);
    assert s'.threads[t] == s.threads[t].(pc := s'.threads[t].pc);
    FlagInvStep(s, s', t, n, true);
  }
}
