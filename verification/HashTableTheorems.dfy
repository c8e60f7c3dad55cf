/**
 What the hash table promises over whole runs.
 */
module HashTableTheorems {
  import opened SplitOrder
  import opened SplitList
  import opened HashTable
  import opened HashTableInv
  import opened HashTableStable
  import opened HashTableResize
  import opened HashTableMoves
  import opened HashTableRuns
  import opened HashTableCalm

  // ---------- the list ----------

  /** In every state of every run the list ascends in split order, has no loop, and holds every unremoved node. */
  lemma ListIsSound(r: seq<State>, i: nat)
    requires Run(r) && i < |r|
    ensures Sorted(r[i].h) && FlagsOk(r[i].h)
    ensures forall n :: Live(r[i].h, n) ==> Reach(r[i].h, Root(r[i]), n)
    ensures forall n :: n in r[i].h ==> !Reach(r[i].h, r[i].h[n].next.succ, n)
  {
    hide Run;
    RunInv(r, i);
    var h := r[i].h;
    forall n | n in h
      ensures !Reach(h, h[n].next.succ, n)
    {
      if Reach(h, h[n].next.succ, n) { ReachOrder(h, h[n].next.succ, n); }
    }
  }

  lemma RunCalm(r: seq<State>, i: nat)
    requires Run(r) && i + 1 < |r|
    ensures Inv(r[i]) && Inv(r[i + 1]) && StepCalm(r[i], r[i + 1])
  {
    hide Inv, Next, StepCalm, Init;
    RunInv(r, i);
    RunInv(r, i + 1);
    assert Next(r[i], r[i + 1]);
    NextCalm(r[i], r[i + 1]);
  }

  /** Once a node is flagged removed its successor never changes again, and the flags stay. */
  lemma {:induction false} RemovedIsFrozen(r: seq<State>, i: nat, j: nat, n: Node)
    requires Run(r) && i <= j < |r| && Removed(r[i].h, n)
    ensures Removed(r[j].h, n) && r[j].h[n].next.succ == r[i].h[n].next.succ
    ensures r[i].h[n].next.owner ==> r[j].h[n].next.owner
    decreases j
  {
    hide Run;
    if i < j {
      RemovedIsFrozen(r, i, j - 1, n);
      FrozenStep(r, j - 1);
    }
  }

  lemma FrozenStep(r: seq<State>, i: nat)
    requires Run(r) && i + 1 < |r|
    ensures Frozen(r[i].h, r[i + 1].h)
  {
    hide Run, Inv;
    RunCalm(r, i);
  }

  // ---------- garbage collection ----------

  lemma GoneStep(r: seq<State>, i: nat, w: Node)
    requires Run(r) && i + 1 < |r| && Gone(r[i], w)
    ensures Gone(r[i + 1], w)
  {
    hide Run, Inv, Gone, Calm;
    RunCalm(r, i);
    GoneStable(r[i], r[i + 1], w);
  }

  /** A removed node that left the list never comes back. */
  lemma {:induction false} GoneForever(r: seq<State>, i: nat, j: nat, w: Node)
    requires Run(r) && i <= j < |r| && Gone(r[i], w)
    ensures Gone(r[j], w)
    decreases j
  {
    hide Run, Gone;
    if i < j {
      GoneForever(r, i, j - 1, w);
      GoneStep(r, j - 1, w);
    }
  }

  predicate Collecting(pc: Pc, gc: Gc) {
    (pc.GcStart? || pc.GcWalk? || pc.GcCut?) && pc.gc == gc
  }

  /** The step calls `_cds_lfht_gc_bucket`. */
  ghost predicate GcCalled(s: State, s': State, t: Tid) {
    DelMark(s, s', t) || BucketMark(s, s', t) || exists n :: SwapOk(s, s', t, n)
  }

  /**
   When a call of `_cds_lfht_gc_bucket` returns, every node that was flagged
   removed at the call and sorts between the bucket and the marker is out of
   the list, now and in every later state.
   */
  lemma GcUnlinks(r: seq<State>, c: nat, i: nat, j: nat, t: Tid, gc: Gc, w: Node)
    requires Run(r) && 0 < c <= i < j < |r| && GcCalled(r[c - 1], r[c], t)
    requires forall m :: c <= m <= i ==> t in r[m].threads && Collecting(r[m].threads[t].pc, gc)
    requires GcDone(r[i], r[i + 1], t)
    requires Removed(r[c].h, w) && gc.bucket in r[c].h && Before(r[c].h, gc.bucket, w) && r[c].h[w].rh <= gc.marker
    ensures Gone(r[j], w)
  {
    hide Run, Inv, Gone, Reach, GcDone;
    assert gc.before == RemovedOf(r[c].h) by { hide PcInv; }
    KeptCells(r, c, i, gc.bucket);
    KeptCells(r, c, i, w);
    RemovedIsFrozen(r, c, i, w);
    RunInv(r, i);
    GcReturns(r[i], r[i + 1], t, w);
    GoneForever(r, i, j, w);
  }

  lemma GcReturns(s: State, s': State, t: Tid, w: Node)
    requires Inv(s) && GcDone(s, s', t) && w in s.threads[t].pc.gc.before && Removed(s.h, w)
    requires s.threads[t].pc.gc.bucket in s.h && Before(s.h, s.threads[t].pc.gc.bucket, w)
    requires s.h[w].rh <= s.threads[t].pc.gc.marker
    ensures Gone(s, w)
  {
    hide ReclaimInv, OwnerInv, UniqueInv, ResizerInv, Reach, TableInv, Gone;
    assert ThreadInv(s, t);
    GcDoneGone(s, s.threads[t].pc, w);
  }

  lemma {:induction false} KeptCells(r: seq<State>, i: nat, j: nat, n: Node)
    requires Run(r) && i <= j < |r| && n in r[i].h
    ensures n in r[j].h && r[j].h[n].rh == r[i].h[n].rh
    ensures r[j].h[n].kind == r[i].h[n].kind && r[j].h[n].rank == r[i].h[n].rank
    decreases j
  {
    hide Run;
    if i < j {
      KeptCells(r, i, j - 1, n);
      FrozenStep(r, j - 1);
    }
  }

  // ---------- unique keys ----------

  /** A key that only unique adds and replacements use never has two unremoved nodes. */
  lemma KeysStayUnique(r: seq<State>, i: nat, k: Key, x: Node, y: Node)
    requires Run(r) && i < |r| && k !in r[i].plain && LiveKey(r[i].h, x, k) && LiveKey(r[i].h, y, k)
    ensures x == y
  {
    hide Run;
    RunInv(r, i);
  }

  // ---------- removal ownership ----------

  /**
   Of all removals of an item at most one reports success; the item is owned
   exactly when one did; and once no remover is between its flag and its verdict
   a removed item has its one owner.
   */
  lemma OneRemovalWins(r: seq<State>, i: nat, n: Node)
    requires Run(r) && i < |r|
    ensures r[i].wins[n] <= 1
    ensures r[i].wins[n] == 1 <==> OwnedItem(r[i], n)
    ensures OwnedItem(r[i], n) ==> Removed(r[i].h, n)
    ensures ItemNode(r[i], n) && Removed(r[i].h, n) ==>
              (forall t :: t in r[i].threads ==> !Committed(r[i].threads[t].pc, n)) ==> r[i].wins[n] == 1
  {
    hide Run;
    RunInv(r, i);
  }

  // ---------- reclamation ----------

  /**
   No pointer of a running operation, and nothing it leads to, is freed:
   neither an item nor a bucket of a freed table.
   */
  lemma NothingFreedIsUsed(r: seq<State>, i: nat, t: Tid, p: Node, w: Node)
    requires Run(r) && i < |r| && t in r[i].threads && p in Ptrs(r[i].threads[t]) && w in r[i].freed
    ensures p != w && !Reach(r[i].h, p, w) && !Reach(r[i].h, Root(r[i]), w)
  {
    hide Run;
    RunInv(r, i);
    assert Clean(r[i].h, r[i].threads[t], w) && Gone(r[i], w);
    if p == w { ReachSelf(r[i].h, w); }
  }

  /** Nor does the bucket array lead to freed memory: the buckets of the stored size are live. */
  lemma BucketsStayUsable(r: seq<State>, i: nat, j: nat)
    requires Run(r) && i < |r| && j < Pow2(r[i].order)
    ensures j in r[i].buckets && Live(r[i].h, r[i].buckets[j]) && r[i].buckets[j] !in r[i].freed
  {
    hide Run;
    RunInv(r, i);
    Pow2Monotone(r[i].order, r[i].order + 1);
    assert r[i].buckets[j] in r[i].freed ==> Gone(r[i], r[i].buckets[j]);
  }

  // ---------- lookups ----------

  ghost predicate Present(s: State, k: Key) { exists y :: LiveKey(s.h, y, k) }

  /** A lookup under way has every live node with its key ahead of it. */
  ghost predicate LookAhead(s: State, t: Tid, k: Key) {
    && t in s.threads
    && (s.threads[t].pc.Look? ==> forall y :: LiveKey(s.h, y, k) ==> Reach(s.h, s.threads[t].pc.node, y))
  }

  /** A unique add inserts the key, which plain adds use too, at a place the lookup of `t` has already passed. */
  ghost predicate InsertsBehind(s: State, s': State, t: Tid, k: Key) {
    && t in s.threads && s.threads[t].pc.Look?
    && exists u, n :: MixedInsert(s, s', u, n, k) && !Reach(s'.h, s.threads[t].pc.node, n)
  }

  /** The inserted node is the only one that becomes live. */
  lemma OnlyInserted(s: State, s': State, u: Tid, n: Node, k: Key, y: Node)
    requires Inv(s) && MixedInsert(s, s', u, n, k) && LiveKey(s'.h, y, k) && !LiveKey(s.h, y, k)
    ensures y == n
  {
    hide ReclaimInv, OwnerInv, UniqueInv, ResizerInv, ListInv, ScanInv;
    assert ThreadInv(s, u);
  }

  lemma AheadKept(s: State, s': State, t: Tid, k: Key)
    requires Inv(s) && StepCalm(s, s') && !InsertsBehind(s, s', t, k) && Present(s, k)
    requires LookAhead(s, t, k) && t in s'.threads && s'.threads[t].pc == s.threads[t].pc
    ensures LookAhead(s', t, k)
  {
    hide Inv, Reach, MixedInsert;
    if s.threads[t].pc.Look? {
      var d := s.threads[t].pc.node;
      var x :| LiveKey(s.h, x, k);
      forall y | LiveKey(s'.h, y, k)
        ensures Reach(s'.h, d, y)
      {
        if !LiveKey(s.h, y, k) {
          if InsertsMixed(s, s', k) {
            var u, n :| MixedInsert(s, s', u, n, k);
            OnlyInserted(s, s', u, n, k, y);
          } else {
            var o :| LiveKey(s.h, o, k) && Follows(s.h, s'.h, o, y);
          }
        }
      }
    }
  }

  lemma AheadHead(s: State, s': State, t: Tid, k: Key)
    requires Inv(s) && LookHead(s, s', t) && Serving(s.threads[t].pc, Lookup(k))
    ensures LookAhead(s', t, k)
  {
    hide ReclaimInv, OwnerInv, UniqueInv, ResizerInv, Reach;
    assert ThreadInv(s, t);
    var b := s.threads[t].pc.bucket;
    assert Live(s.h, b);
    forall y | LiveKey(s.h, y, k)
      ensures Reach(s.h, s.h[b].next.succ, y)
    {
      ChainOrder(s.h, Root(s), b, y);
    }
  }

  lemma AheadStep(s: State, s': State, t: Tid, k: Key)
    requires Inv(s) && LookStep(s, s', t) && Serving(s.threads[t].pc, Lookup(k)) && LookAhead(s, t, k) && Present(s, k)
    ensures LookAhead(s', t, k)
    ensures s'.threads[t].pc.Idle? ==> s'.threads[t].pc.ret.Found? && LiveKey(s.h, s'.threads[t].pc.ret.n, k)
  {
    hide ReclaimInv, OwnerInv, UniqueInv, ResizerInv;
    var n := s.threads[t].pc.node;
    var x :| LiveKey(s.h, x, k);
    assert n in s.h;
    ReachOrder(s.h, n, x);
    forall y | LiveKey(s.h, y, k) && n != y
      ensures Reach(s.h, s.h[n].next.succ, y)
    {
      ReachRest(s.h, n, y);
    }
  }

  /** A thread inside a lookup only moves by the lookup's own steps. */
  lemma LookerMoves(s: State, s': State, t: Tid, k: Key)
    requires Next(s, s') && At(s, t) && Serving(s.threads[t].pc, Lookup(k))
    ensures t in s'.threads
    ensures s'.threads[t].pc == s.threads[t].pc || LoadSize(s, s', t) || LookHead(s, s', t) || LookStep(s, s', t)
  {
    hide Next, UserStep, CodeStep, LoadSize, LookHead, LookStep;
    Mover(s, s', t);
    if UserStep(s, s', t) { UserMoves(s, s', t); }
    else if CodeStep(s, s', t) { ByPc(s, s', t); }
  }

  /** From state `i` to state `j` no such insertion takes place. */
  ghost predicate NeverBehind(r: seq<State>, t: Tid, k: Key, i: nat, j: nat)
    requires j < |r|
  {
    forall m, m' :: i <= m < m' <= j && m' == m + 1 ==> !InsertsBehind(r[m], r[m'], t, k)
  }

  lemma {:induction false} LookupStaysAhead(r: seq<State>, t: Tid, k: Key, i: nat, j: nat, m: nat)
    requires Run(r) && Call(r, t, Lookup(k), i, j) && i <= m < j
    requires forall l :: i <= l <= j ==> Present(r[l], k)
    requires NeverBehind(r, t, k, i, j)
    ensures LookAhead(r[m], t, k)
    decreases m
  {
    hide Run, Inv, Next, Reach, StepCalm, InsertsBehind;
    if i < m {
      LookupStaysAhead(r, t, k, i, j, m - 1);
      InCall(r, t, Lookup(k), i, j, m - 1);
      LookupAdvance(r, t, k, m - 1);
    }
  }

  lemma LookupAdvance(r: seq<State>, t: Tid, k: Key, m: nat)
    requires Run(r) && m + 1 < |r| && !InsertsBehind(r[m], r[m + 1], t, k) && Present(r[m], k)
    requires At(r[m], t) && At(r[m + 1], t) && Serving(r[m].threads[t].pc, Lookup(k)) && LookAhead(r[m], t, k)
    ensures LookAhead(r[m + 1], t, k)
    ensures r[m + 1].threads[t].pc.Idle? ==>
              r[m + 1].threads[t].pc.ret.Found? && LiveKey(r[m].h, r[m + 1].threads[t].pc.ret.n, k)
  {
    hide Inv, Reach, StepCalm, InsertsBehind, Present, LookAhead;
    hide LookHead, LookStep, Init, UserStep, CodeStep, ResizeStep;
    var s, s' := r[m], r[m + 1];
    RunCalm(r, m);
    assert Next(s, s');
    LookerMoves(s, s', t, k);
    if s'.threads[t].pc == s.threads[t].pc {
      AheadKept(s, s', t, k);
    } else if LookHead(s, s', t) {
      AheadHead(s, s', t, k);
      assert !s'.threads[t].pc.Idle? by { HeadLooks(s, s', t); }
    } else if LookStep(s, s', t) {
      AheadStep(s, s', t, k);
    } else {
      assert LookAhead(s', t, k) by { StartAhead(s', t, k); }
    }
  }

  lemma HeadLooks(s: State, s': State, t: Tid)
    requires LookHead(s, s', t)
    ensures s'.threads[t].pc.Look?
  {
  }

  lemma StartAhead(s: State, t: Tid, k: Key)
    requires t in s.threads && !s.threads[t].pc.Look?
    ensures LookAhead(s, t, k)
  {
  }

  /**
   If the key has an unremoved node in every state of a lookup, whichever node
   that is at each moment, the lookup finds a node with that key that was
   unremoved when it was read. The exception is a lookup during which a unique
   add inserts the key at a place it has passed, although plain adds use the key
   too; `LookupCanMiss` shows for every key that such a lookup can fail.
   */
  lemma LookupFindsPresentKey(r: seq<State>, t: Tid, k: Key, i: nat, j: nat)
    requires Run(r) && Call(r, t, Lookup(k), i, j)
    requires forall m :: i <= m <= j ==> Present(r[m], k)
    requires NeverBehind(r, t, k, i, j)
    ensures var a := Answer(r, t, Lookup(k), i, j); a.Found? && LiveKey(r[j - 1].h, a.n, k)
  {
    hide Run, Reach, LookAhead, InsertsBehind;
    LookupStaysAhead(r, t, k, i, j, j - 1);
    InCall(r, t, Lookup(k), i, j, j - 1);
    LookupAdvance(r, t, k, j - 1);
  }
  /**
   Whatever happens meanwhile, a lookup answers that there is no such key, or
   gives a node that has the key and was unremoved when it was read, and that the
   thread may use until it leaves its section.
   */
  lemma LookupAnswers(r: seq<State>, t: Tid, k: Key, i: nat, j: nat)
    requires Run(r) && Call(r, t, Lookup(k), i, j)
    ensures var a := Answer(r, t, Lookup(k), i, j);
            || a == Missing
            || (a.Found? && LiveKey(r[j - 1].h, a.n, k) && a.n in r[j].threads[t].held)
    ensures r[j].h == r[j - 1].h
  {
    hide Run, Rev;
    CallReturns(r, t, Lookup(k), i, j);
  }

  /** A lookup of a key that is in the table in no state of it answers that there is no such key. */
  lemma AbsentKeyIsMissed(r: seq<State>, t: Tid, k: Key, i: nat, j: nat)
    requires Run(r) && Call(r, t, Lookup(k), i, j) && forall m :: i <= m < j ==> !Present(r[m], k)
    ensures Answer(r, t, Lookup(k), i, j) == Missing
  {
    hide Run;
    LookupAnswers(r, t, k, i, j);
    assert !Present(r[j - 1], k);
  }
}
