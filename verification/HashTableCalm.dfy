/**
 What each step does to reachability and to the live nodes of a key.
 */
module HashTableCalm {
  import opened SplitList
  import opened HashTable
  import opened HashTableInv
  import opened HashTableStable
  import opened HashTableWrites
  import opened HashTableInsert

  /** From wherever `o` was reachable, `y` now is. */
  ghost predicate Follows(h: Heap, h': Heap, o: Node, y: Node) {
    forall d :: Reach(h, d, o) ==> Reach(h', d, y)
  }

  /** While the key has a live node, a further one only appears where a live one was or behind one. */
  ghost predicate LookCalm(h: Heap, h': Heap, k: Key) {
    forall x, y :: LiveKey(h, x, k) && LiveKey(h', y, k) ==>
      LiveKey(h, y, k) || exists o :: LiveKey(h, o, k) && Follows(h, h', o, y)
  }

  /** Thread `t` inserts a node by a unique add, of a key that plain adds use too. */
  predicate MixedInsert(s: State, s': State, t: Tid, n: Node, k: Key) {
    && InsertOk(s, s', t, n)
    && var req := s.threads[t].pc.req;
    && req.AddItem? && !req.mode.Plain? && req.key == k && k in s.plain
  }

  /** The step is such an insertion. */
  ghost predicate InsertsMixed(s: State, s': State, k: Key) { exists t, n :: MixedInsert(s, s', t, n, k) }

  ghost predicate StepCalm(s: State, s': State) {
    Calm(s, s') && forall k :: !InsertsMixed(s, s', k) ==> LookCalm(s.h, s'.h, k)
  }

  lemma QuietStep(s: State, s': State)
    requires s'.bits == s.bits && Root(s') == Root(s) && s.plain <= s'.plain && s.uniq <= s'.uniq
    requires Evolves(s.h, s'.h, Root(s)) && NoNewLive(s.h, s'.h)
    ensures StepCalm(s, s')
  {
    hide Evolves;
    forall k, y | LiveKey(s'.h, y, k)
      ensures LiveKey(s.h, y, k)
    {
    }
  }

  lemma SameHeapStep(s: State, s': State)
    requires s'.h == s.h && s'.bits == s.bits && Root(s') == Root(s) && s.plain <= s'.plain && s.uniq <= s'.uniq
    ensures StepCalm(s, s')
  {
    hide Reach;
    EvolvesSame(s.h, Root(s));
    QuietStep(s, s');
  }

  /** A plain insertion lands behind every live node of its key. */
  lemma PlainBehind(h: Heap, root: Node, p: Node, n: Node, rh: nat, kind: Kind, rank: real, x: Node)
    requires ListInv(h, root) && CanPublish(h, p, n, rh, kind, rank) && Live(h, x) && ClassOf(h[x]) == Class(rh, kind)
    requires h[p].next.succ != END ==> Class(rh, kind) < ClassOf(h[h[p].next.succ])
    ensures Follows(h, Publish(h, p, n, rh, kind, rank, false), x, n)
  {
    var h' := Publish(h, p, n, rh, kind, rank, false);
    if !Reach(h, x, p) {
      var i: nat :| ReachIn(h, root, x, i);
      ReachLinearIn(h, root, x, p, i);
      ReachOrder(h, p, x);
      if p == x { ReachSelf(h, x); }
      else { BehindSucc(h, root, p, x); }
    }
    assert Reach(h, x, p);
    PublishEvolves(h, root, p, n, rh, kind, rank, false);
    forall d | Reach(h, d, x)
      ensures Reach(h', d, n)
    {
      ReachTrans(h, d, x, p);
      assert Live(h', p);
      ReachTrans(h', d, p, n);
    }
  }

  lemma InsertLook(s: State, s': State, t: Tid, n: Node, k: Key, x: Node)
    requires Inv(s) && InsertOk(s, s', t, n) && LiveKey(s.h, x, k) && LiveKey(s'.h, n, k)
    requires !MixedInsert(s, s', t, n, k)
    ensures Follows(s.h, s'.h, x, n)
  {
    hide ReclaimInv, OwnerInv, UniqueInv, ResizerInv, Reach, ScanInv, Follows;
    assert ThreadInv(s, t);
    var pc := s.threads[t].pc;
    InsertFits(s, t, n);
    var kind := KindOf(pc.req);
    var rh := RhOf(s.bits, kind);
    if pc.req.mode.Plain? {
      PlainBehind(s.h, Root(s), pc.prev, n, rh, kind, RankFor(s.h, pc.prev, rh, kind), x);
    } else {
      InsertAlone(s, t, x);
    }
  }

  lemma InsertStep(s: State, s': State, t: Tid, n: Node)
    requires Inv(s) && InsertOk(s, s', t, n)
    ensures StepCalm(s, s')
  {
    hide ReclaimInv, OwnerInv, UniqueInv, ResizerInv, Reach, ScanInv, Follows, Calm;
    assert Root(s') == Root(s) by { InsertOkRoot(s, s', t, n); }
    InsertCalm(s, s', t, n);
    forall k, x, y | !InsertsMixed(s, s', k) && LiveKey(s.h, x, k) && LiveKey(s'.h, y, k)
      ensures LiveKey(s.h, y, k) || exists o :: LiveKey(s.h, o, k) && Follows(s.h, s'.h, o, y)
    {
      if y == n { InsertLook(s, s', t, n, k, x); }
    }
  }

  lemma InsertOkRoot(s: State, s': State, t: Tid, n: Node)
    requires Inv(s) && InsertOk(s, s', t, n)
    ensures Root(s') == Root(s)
  {
    hide PcInv, ReclaimInv, OwnerInv, UniqueInv, ResizerInv, ListInv;
    InsertRequest(s, t);
    assert 0 < Limit(s);
  }

  lemma SwapStep(s: State, s': State, t: Tid, n: Node)
    requires Inv(s) && SwapOk(s, s', t, n)
    ensures StepCalm(s, s')
  {
    hide ReclaimInv, OwnerInv, UniqueInv, ResizerInv, ScanInv, Calm, PcInv;
    SwapCalm(s, s', t, n);
    SwapFits(s, t, n);
    var pc := s.threads[t].pc;
    var rh := RhOf(s.bits, Item(pc.key));
    SwapTakesOver(s.h, Root(s), pc.prior, n, rh, Item(pc.key), RankFor(s.h, pc.prior, rh, Item(pc.key)));
    forall k, x, y | LiveKey(s.h, x, k) && LiveKey(s'.h, y, k)
      ensures LiveKey(s.h, y, k) || exists o :: LiveKey(s.h, o, k) && Follows(s.h, s'.h, o, y)
    {
      if y == n { assert LiveKey(s.h, pc.prior, k) && Follows(s.h, s'.h, pc.prior, y); }
    }
  }

  lemma CutStep(s: State, s': State, t: Tid)
    requires Inv(s) && (HelpStep(s, s', t) || GcCutStep(s, s', t))
    ensures StepCalm(s, s')
  {
    hide ReclaimInv, OwnerInv, UniqueInv, ResizerInv, ScanInv, Reach, Evolves;
    assert ThreadInv(s, t);
    var pc := s.threads[t].pc;
    CutEffect(s.h, Root(s), pc.prev, pc.iter, pc.next);
    QuietStep(s, s');
  }

  lemma MarkStep(s: State, s': State, t: Tid)
    requires Inv(s) && (DelMark(s, s', t) || BucketMark(s, s', t) || DelOwnXchg(s, s', t))
    ensures StepCalm(s, s')
  {
    hide ReclaimInv, OwnerInv, UniqueInv, ResizerInv, ScanInv, Reach, Evolves;
    assert ThreadInv(s, t);
    var n := s.threads[t].pc.node;
    NotRoot(s, n);
    if DelOwnXchg(s, s', t) {
      assert s'.h == Flag(s.h, n, true);
      FlagEffect(s.h, Root(s), n, true);
    } else {
      FlagEffect(s.h, Root(s), n, false);
    }
    QuietStep(s, s');
  }

  lemma ResizeCalm(s: State, s': State)
    requires Inv(s) && ResizeStep(s, s')
    ensures StepCalm(s, s')
  {
    hide ReclaimInv, OwnerInv, UniqueInv, ResizerInv, PcInv, StepCalm, ListInv;
    assert 0 < Limit(s) && 0 in s.buckets;
    assert !InOrder(s, 0);
    SameHeapStep(s, s');
  }

  lemma UserCalm(s: State, s': State, t: Tid)
    requires UserStep(s, s', t)
    ensures StepCalm(s, s')
  {
    hide StepCalm;
    SameHeapStep(s, s');
  }

  lemma ReadCalm(s: State, s': State, t: Tid)
    requires LoadSize(s, s', t) || LookHead(s, s', t) || LookStep(s, s', t) || SwapLate(s, s', t) || SwapFail(s, s', t)
             || DelLoad(s, s', t) || DelOwnLoad(s, s', t)
    ensures StepCalm(s, s')
  {
    hide StepCalm;
    SameHeapStep(s, s');
  }

  lemma WalkCalm(s: State, s': State, t: Tid)
    requires AddHead(s, s', t) || AddStep(s, s', t) || ScanStep(s, s', t) || InsertFail(s, s', t)
             || GcHead(s, s', t) || GcStep(s, s', t)
    ensures StepCalm(s, s')
  {
    hide StepCalm;
    SameHeapStep(s, s');
  }

  lemma GcDoneCalm(s: State, s': State, t: Tid)
    requires GcDone(s, s', t)
    ensures StepCalm(s, s')
  {
    hide StepCalm;
    SameHeapStep(s, s');
  }

  lemma NextCalm(s: State, s': State)
    requires Inv(s) && Next(s, s')
    ensures StepCalm(s, s')
  {
    hide StepCalm, Inv, UserStep, ResizeStep, InsertOk, SwapOk, HelpStep, GcCutStep, DelMark, BucketMark, DelOwnXchg,
      LoadSize, LookHead, LookStep, AddHead, AddStep, ScanStep, InsertFail, SwapLate, SwapFail, DelLoad, DelOwnLoad,
      GcHead, GcStep, GcDone;
    if t :| UserStep(s, s', t) { UserCalm(s, s', t); }
    else if ResizeStep(s, s') { ResizeCalm(s, s'); }
    else {
      var t :| CodeStep(s, s', t);
      if n :| InsertOk(s, s', t, n) { InsertStep(s, s', t, n); }
      else if n :| SwapOk(s, s', t, n) { SwapStep(s, s', t, n); }
      else if HelpStep(s, s', t) || GcCutStep(s, s', t) { CutStep(s, s', t); }
      else if DelMark(s, s', t) || BucketMark(s, s', t) || DelOwnXchg(s, s', t) { MarkStep(s, s', t); }
      else if GcDone(s, s', t) { GcDoneCalm(s, s', t); }
      else if AddHead(s, s', t) || AddStep(s, s', t) || ScanStep(s, s', t) || InsertFail(s, s', t)
              || GcHead(s, s', t) || GcStep(s, s', t) { WalkCalm(s, s', t); }
      else { ReadCalm(s, s', t); }
    }
  }
}
