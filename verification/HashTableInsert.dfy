/**
 The cmpxchg that links a new node and the cmpxchg that replaces one keep the
 invariant; in particular they keep the keys of unique adds unique.
 */
module HashTableInsert {
  import opened SplitOrder
  import opened SplitList
  import opened HashTable
  import opened HashTableInv
  import opened HashTableStable
  import opened HashTableFrame

  /** A listed node of a class above that of live `p` is at or behind the successor of `p`. */
  lemma BehindSucc(h: Heap, root: Node, p: Node, q: Node)
    requires ListInv(h, root) && Live(h, p) && q in h && Reach(h, root, q) && Before(h, p, q)
    ensures h[p].next.succ in h && Reach(h, h[p].next.succ, q)
    ensures h[p].next.succ == q || Before(h, h[p].next.succ, q)
  {
    ChainOrder(h, root, p, q);
    ReachOrder(h, h[p].next.succ, q);
  }

  // ---------- insertion ----------

  /** The guard of a successful insertion, spelled out on the heap. */
  lemma InsertFits(s: State, t: Tid, n: Node)
    requires Inv(s) && At(s, t) && s.threads[t].pc.Insert? && n !in s.h && n != END
    requires s.threads[t].pc.prev in s.h && s.h[s.threads[t].pc.prev].next == s.threads[t].pc.iter
    ensures var pc := s.threads[t].pc;
            var kind := KindOf(pc.req);
            CanPublish(s.h, pc.prev, n, RhOf(s.bits, kind), kind, RankFor(s.h, pc.prev, RhOf(s.bits, kind), kind))
  {
    hide ReclaimInv, OwnerInv, UniqueInv, ResizerInv, Reach;
    assert ThreadInv(s, t);
    var pc := s.threads[t].pc;
    RankFits(s.h, pc.prev, n, RhOf(s.bits, KindOf(pc.req)), KindOf(pc.req));
  }

  /** A unique insertion lands ahead of every listed node of its class. */
  lemma InsertFront(h: Heap, root: Node, p: Node, n: Node, rh: nat, kind: Kind, rank: real)
    requires ListInv(h, root) && CanPublish(h, p, n, rh, kind, rank) && ClassOf(h[p]) < Class(rh, kind)
    ensures AtFront(h, Publish(h, p, n, rh, kind, rank, false), root, n)
  {
    var h' := Publish(h, p, n, rh, kind, rank, false);
    forall q | q in h && q in h' && Reach(h, root, q) && ClassOf(h[q]) == ClassOf(h'[n])
      ensures Before(h', n, q)
    {
      BehindSucc(h, root, p, q);
    }
  }

  /** A unique insertion that succeeds finds no live node with its key. */
  lemma InsertAlone(s: State, t: Tid, x: Node)
    requires Inv(s) && At(s, t) && s.threads[t].pc.Insert?
    requires s.threads[t].pc.prev in s.h && s.h[s.threads[t].pc.prev].next == s.threads[t].pc.iter
    requires s.threads[t].pc.req.AddItem? && !s.threads[t].pc.req.mode.Plain? && s.threads[t].pc.req.key !in s.plain
    ensures !LiveKey(s.h, x, s.threads[t].pc.req.key)
  {
    hide ReclaimInv, OwnerInv, UniqueInv, ResizerInv;
    assert ThreadInv(s, t);
    var pc := s.threads[t].pc;
    var q := pc.iter.succ;
    if LiveKey(s.h, x, pc.req.key) {
      assert ClassOf(s.h[x]) == ReqClass(s, pc.req);
      BehindSucc(s.h, Root(s), pc.prev, x);
      ReachSelf(s.h, q);
      ReachStep(s.h, pc.prev, q);
      ReachTrans(s.h, Root(s), pc.prev, q);
      NoneBehindEnd(s.h, x);
    }
  }

  lemma NoneBehindEnd(h: Heap, x: Node)
    requires END !in h
    ensures !Reach(h, END, x)
  {
  }

  /** What the state looks like after a new node was published. */
  predicate Published(s: State, s': State, p: Node, n: Node, kind: Kind, take: bool)
    requires p in s.h
  {
    && s'.bits == s.bits && s'.order == s.order && s'.plain == s.plain && s'.uniq == s.uniq
    && var rh := RhOf(s.bits, kind);
    && CanPublish(s.h, p, n, rh, kind, RankFor(s.h, p, rh, kind))
    && s'.h == Publish(s.h, p, n, rh, kind, RankFor(s.h, p, rh, kind), take)
  }

  lemma PublishedTable(s: State, s': State, p: Node, n: Node, kind: Kind, take: bool)
    requires TableInv(s) && p in s.h && Published(s, s', p, n, kind, take) && (take ==> s.h[p].kind.Item?)
    requires HashOf(kind) < Pow2(s.bits) && s'.rz == s.rz
    requires s'.buckets == if kind.Bucket? then s.buckets[kind.index := n] else s.buckets
    requires kind.Bucket? ==> kind.index !in s.buckets && InOrder(s, kind.index) && s.rz.Growing?
    ensures TableInv(s') && Root(s') == Root(s)
  {
    assert HashInv(s');
    assert Limit(s') == Limit(s) > 0;
    forall j | 0 <= j < Limit(s)
      ensures j in s'.buckets && Live(s'.h, s'.buckets[j])
    {
      assert Live(s.h, s.buckets[j]);
    }
  }

  lemma PublishedOwner(s: State, s': State, t: Tid, p: Node, n: Node, kind: Kind, take: bool)
    requires OwnerInv(s) && FlagsOk(s.h) && p in s.h
    requires Published(s, s', p, n, kind, take) && (take ==> s.h[p].kind.Item?)
    requires t in s.threads && t in s'.threads && s'.threads == s.threads[t := s'.threads[t]]
    requires s'.wins == if take then s.wins + multiset{p} else s.wins
    requires forall m :: !Committed(s.threads[t].pc, m)
    ensures OwnerInv(s')
  {
    forall m
      ensures s'.wins[m] == if OwnedItem(s', m) then 1 else 0
    {
      assert m != p ==> OwnedItem(s', m) == OwnedItem(s, m);
      assert s.wins[m] == if OwnedItem(s, m) then 1 else 0;
    }
    forall m | ItemNode(s', m) && s'.h[m].next.removed && !s'.h[m].next.owner
      ensures exists u :: u in s'.threads && Committed(s'.threads[u].pc, m)
    {
      assert ItemNode(s, m);
      var u :| u in s.threads && Committed(s.threads[u].pc, m);
      assert Committed(s'.threads[u].pc, m);
    }
  }

  lemma InsertUnique(s: State, s': State, t: Tid, n: Node)
    requires Inv(s) && InsertOk(s, s', t, n)
    ensures UniqueInv(s')
  {
    hide ReclaimInv, OwnerInv, ResizerInv, TableInv, ScanInv;
    assert ThreadInv(s, t);
    var req := s.threads[t].pc.req;
    forall k, x, y | k !in s'.plain && LiveKey(s'.h, x, k) && LiveKey(s'.h, y, k)
      ensures x == y
    {
      if x != n && y != n {
        assert LiveKey(s.h, x, k) && LiveKey(s.h, y, k);
      } else if x != y {
        var z := if x == n then y else x;
        assert LiveKey(s.h, z, k);
        InsertAlone(s, t, z);
      }
    }
  }

  lemma InsertCalm(s: State, s': State, t: Tid, n: Node)
    requires Inv(s) && InsertOk(s, s', t, n) && Root(s') == Root(s)
    ensures Calm(s, s') && ListInv(s'.h, Root(s))
  {
    hide ReclaimInv, OwnerInv, ResizerInv, UniqueInv, TableInv, ScanInv;
    assert ThreadInv(s, t);
    InsertFits(s, t, n);
    var pc := s.threads[t].pc;
    var kind := KindOf(pc.req);
    var rh := RhOf(s.bits, kind);
    PublishInv(s.h, Root(s), pc.prev, n, rh, kind, RankFor(s.h, pc.prev, rh, kind), false);
    PublishEvolves(s.h, Root(s), pc.prev, n, rh, kind, RankFor(s.h, pc.prev, rh, kind), false);
    if pc.req.AddItem? && !pc.req.mode.Plain? {
      InsertFront(s.h, Root(s), pc.prev, n, rh, kind, RankFor(s.h, pc.prev, rh, kind));
    }
    forall k, y | k !in s'.plain && LiveKey(s'.h, y, k)
      ensures LiveKey(s.h, y, k) || AtFront(s.h, s'.h, Root(s), y)
    {
    }
  }

  lemma InsertRequest(s: State, t: Tid)
    requires Inv(s) && At(s, t) && s.threads[t].pc.Insert?
    ensures ReqOk(s, t, s.threads[t].pc.req)
    ensures s.threads[t].pc.req.AddBucket? ==> s.threads[t].pc.req.index < Pow2(s.bits)
  {
    hide ReclaimInv, OwnerInv, UniqueInv, ListInv, ResizerInv, ScanInv;
    assert ThreadInv(s, t);
    if s.threads[t].pc.req.AddBucket? { Pow2Monotone(s.order + 1, s.bits); }
  }

  lemma InsertClaims(s: State, s': State, t: Tid, n: Node, u: Tid)
    requires Inv(s) && InsertOk(s, s', t, n) && u in s.threads && u != t
    ensures ClaimsKept(s, s', u) && BucketsKept(s, s', s.threads[u].pc)
  {
    hide PcInv, ReclaimInv, OwnerInv, UniqueInv, ListInv, ResizerInv, PcBuckets;
    InsertRequest(s, t);
  }

  lemma InsertGrow(s: State, s': State, t: Tid, n: Node)
    requires Inv(s) && InsertOk(s, s', t, n)
    ensures RzMoved(s, s')
  {
    hide PcInv, ReclaimInv, OwnerInv, UniqueInv, ListInv, PcBuckets;
    InsertRequest(s, t);
  }

  lemma InsertEnd(s: State, s': State, t: Tid, n: Node)
    requires Inv(s) && InsertOk(s, s', t, n)
    ensures ThreadInv(s', t) && PtrsFrom(s, s', t)
  {
    hide ScanInv, ReclaimInv, OwnerInv, UniqueInv, ListInv, ResizerInv;
    assert ThreadInv(s, t);
  }

  lemma InsertOkInv(s: State, s': State, t: Tid, n: Node)
    requires Inv(s) && InsertOk(s, s', t, n)
    ensures Inv(s')
  {
    hide PcInv, ReclaimInv, OwnerInv, UniqueInv, ResizerInv, Reach, Calm;
    hide RzMoved, ListInv, ClaimsKept, BucketsKept, PtrsFrom, ThreadInv;
    var pc := s.threads[t].pc;
    var kind := KindOf(pc.req);
    InsertFits(s, t, n);
    InsertRequest(s, t);
    assert Published(s, s', pc.prev, n, kind, false);
    PublishedTable(s, s', pc.prev, n, kind, false);
    InvFlags(s);
    PublishedOwner(s, s', t, pc.prev, n, kind, false);
    InsertUnique(s, s', t, n);
    InsertCalm(s, s', t, n);
    InsertGrow(s, s', t, n);
    forall u | u in s.threads && u != t
      ensures BucketsKept(s, s', s.threads[u].pc) && ClaimsKept(s, s', u)
    {
      InsertClaims(s, s', t, n, u);
    }
    InsertEnd(s, s', t, n);
    MoveInv(s, s', t);
  }

  lemma InvFlags(s: State)
    requires Inv(s)
    ensures FlagsOk(s.h)
  {
  }

  // ---------- replacement ----------

  lemma SwapTakesOver(h: Heap, root: Node, p: Node, n: Node, rh: nat, kind: Kind, rank: real)
    requires ListInv(h, root) && CanPublish(h, p, n, rh, kind, rank)
    ensures TakesOver(h, Publish(h, p, n, rh, kind, rank, true), root, p, n)
  {
    var h' := Publish(h, p, n, rh, kind, rank, true);
    forall d | Reach(h, d, p)
      ensures Reach(h', d, n)
    {
      var i: nat :| ReachIn(h, d, p, i);
      PublishKeepsIn(h, h', p, n, d, p, i);
      ReachSelf(h', n);
      ReachStep(h', p, n);
      ReachTrans(h', d, p, n);
    }
    forall q | q in h && q in h' && Reach(h, root, q) && Before(h, p, q)
      ensures Before(h', n, q)
    {
      BehindSucc(h, root, p, q);
    }
  }

  lemma SwapFits(s: State, t: Tid, n: Node)
    requires Inv(s) && At(s, t) && s.threads[t].pc.Swap? && !s.threads[t].pc.expected.removed && n !in s.h && n != END
    requires s.threads[t].pc.prior in s.h && s.h[s.threads[t].pc.prior].next == s.threads[t].pc.expected
    ensures var pc := s.threads[t].pc;
            var kind := Item(pc.key);
            && CanPublish(s.h, pc.prior, n, RhOf(s.bits, kind), kind, RankFor(s.h, pc.prior, RhOf(s.bits, kind), kind))
            && LiveKey(s.h, pc.prior, pc.key)
  {
    hide ReclaimInv, OwnerInv, UniqueInv, ResizerInv, Reach;
    assert ThreadInv(s, t);
    var pc := s.threads[t].pc;
    RankFits(s.h, pc.prior, n, RhOf(s.bits, Item(pc.key)), Item(pc.key));
  }

  lemma SwapUnique(s: State, s': State, t: Tid, n: Node)
    requires Inv(s) && SwapOk(s, s', t, n)
    ensures UniqueInv(s')
  {
    hide ReclaimInv, OwnerInv, ResizerInv, TableInv, ScanInv, Reach;
    SwapFits(s, t, n);
    var pc := s.threads[t].pc;
    forall k, x, y | k !in s'.plain && LiveKey(s'.h, x, k) && LiveKey(s'.h, y, k)
      ensures x == y
    {
      assert x != n ==> LiveKey(s.h, x, k);
      assert y != n ==> LiveKey(s.h, y, k);
      if x == n || y == n { assert LiveKey(s.h, pc.prior, k); }
    }
  }

  lemma SwapCalm(s: State, s': State, t: Tid, n: Node)
    requires Inv(s) && SwapOk(s, s', t, n)
    ensures Calm(s, s') && ListInv(s'.h, Root(s))
  {
    hide ReclaimInv, OwnerInv, ResizerInv, UniqueInv, ScanInv;
    SwapFits(s, t, n);
    var pc := s.threads[t].pc;
    var kind := Item(pc.key);
    var rh := RhOf(s.bits, kind);
    var rank := RankFor(s.h, pc.prior, rh, kind);
    assert pc.prior != Root(s) by { assert 0 < Limit(s); }
    PublishInv(s.h, Root(s), pc.prior, n, rh, kind, rank, true);
    PublishEvolves(s.h, Root(s), pc.prior, n, rh, kind, rank, true);
    SwapTakesOver(s.h, Root(s), pc.prior, n, rh, kind, rank);
    forall k | k !in s'.plain
      ensures KeyCalm(s.h, s'.h, Root(s), k)
    {
      forall y | LiveKey(s'.h, y, k)
        ensures LiveKey(s.h, y, k) || exists o :: LiveKey(s.h, o, k) && TakesOver(s.h, s'.h, Root(s), o, y)
      {
        if y == n { assert LiveKey(s.h, pc.prior, k); }
      }
    }
  }

  lemma SwapRz(s: State, s': State, t: Tid, n: Node)
    requires Inv(s) && SwapOk(s, s', t, n)
    ensures RzMoved(s, s')
    ensures forall u :: ClaimsKept(s, s', u)
    ensures forall pc :: BucketsKept(s, s', pc)
  {
    hide ReclaimInv, OwnerInv, UniqueInv, ListInv, ScanInv, PcBuckets;
    assert ThreadInv(s, t);
  }

  lemma SwapPc(s: State, s': State, t: Tid, n: Node)
    requires Inv(s) && SwapOk(s, s', t, n)
    ensures ThreadInv(s', t)
  {
    hide ReclaimInv, OwnerInv, UniqueInv, ListInv, ResizerInv, ScanInv, Reach;
    assert ThreadInv(s, t);
  }

  lemma SwapPtrs(s: State, s': State, t: Tid, n: Node)
    requires Inv(s) && SwapOk(s, s', t, n)
    ensures PtrsFrom(s, s', t)
  {
    hide PcInv, ReclaimInv, OwnerInv, UniqueInv, ResizerInv, ScanInv, Reach, ListInv;
  }

  lemma SwapOkInv(s: State, s': State, t: Tid, n: Node)
    requires Inv(s) && SwapOk(s, s', t, n)
    ensures Inv(s')
  {
    hide PcInv, ReclaimInv, OwnerInv, UniqueInv, ResizerInv, ScanInv, Reach;
    hide Calm, RzMoved, ListInv, ClaimsKept, BucketsKept;
    var pc := s.threads[t].pc;
    SwapFits(s, t, n);
    assert Published(s, s', pc.prior, n, Item(pc.key), true);
    PublishedTable(s, s', pc.prior, n, Item(pc.key), true);
    PublishedOwner(s, s', t, pc.prior, n, Item(pc.key), true) by { InvFlags(s); }
    SwapUnique(s, s', t, n);
    SwapCalm(s, s', t, n);
    SwapRz(s, s', t, n);
    SwapPc(s, s', t, n);
    SwapPtrs(s, s', t, n);
    hide SwapOk, PtrsFrom, ThreadInv, Published, TableInv;
    MoveInv(s, s', t);
  }
}
