/**
 Who owns a removal, and who is told so: over whole runs, the thread whose step
 sets REMOVAL_OWNER on a node is the one, and the only one, whose delete or
 replacement reports success.
 */
module HashTableOwners {
  import opened SplitList
  import opened HashTable
  import opened HashTableInv
  import opened HashTableRuns
  import opened HashTableMoves
  import opened HashTableTheorems

  // ---------- what each move does ----------

  /** The thread's move sets REMOVAL_OWNER on `n`. */
  predicate Wins(pc: Pc, pc': Pc, n: Node) {
    || (pc.OwnXchg? && pc' == Idle(Deleted(n)))
    || (pc.Swap? && Swapping(pc') && pc'.gc.after.prior == n)
  }

  /** The thread is told that the removal of `n` is its own. */
  predicate SaysRemoved(pc: Pc, n: Node) {
    pc == Idle(Deleted(n)) || (pc.Idle? && pc.ret.Replaced? && pc.ret.prior == n)
  }

  /** How a move of `t` changes the ownership of items, and which items are handed over for reclamation. */
  ghost predicate Books(s: State, s': State, t: Tid)
    requires t in s.threads && t in s'.threads
  {
    var pc, pc' := s.threads[t].pc, s'.threads[t].pc;
    && (forall n :: OwnedItem(s', n) <==> OwnedItem(s, n) || Wins(pc, pc', n))
    && (forall n :: Wins(pc, pc', n) ==> !OwnedItem(s, n))
    && (forall n :: n in s'.retired <==> n in s.retired || SaysRemoved(pc', n))
  }

  lemma ReadBooks(s: State, s': State, t: Tid)
    requires Reads(s, s', t) && Leads(s.threads[t].pc, s'.threads[t].pc)
    requires var pc := s.threads[t].pc; !pc.OwnXchg? && !Collects(pc) && !pc.Swap?
    ensures Books(s, s', t)
  {
  }

  lemma RemoveBooks(s: State, s': State, t: Tid)
    requires SwapLate(s, s', t) || SwapFail(s, s', t) || GcHead(s, s', t) || GcStep(s, s', t)
    ensures Books(s, s', t)
  {
  }

  lemma CutBooks(s: State, s': State, t: Tid)
    requires Inv(s) && (HelpStep(s, s', t) || GcCutStep(s, s', t))
    ensures Books(s, s', t)
  {
    hide ReclaimInv, OwnerInv, UniqueInv, ResizerInv, TableInv, ListInv, ThenInv, ScanInv;
    assert ThreadInv(s, t);
  }

  lemma MarkBooks(s: State, s': State, t: Tid)
    requires DelMark(s, s', t) || BucketMark(s, s', t)
    ensures Books(s, s', t)
  {
    hide RemovedOf;
  }

  lemma InsertBooks(s: State, s': State, t: Tid, n: Node)
    requires Inv(s) && InsertOk(s, s', t, n)
    ensures Books(s, s', t)
  {
    hide ReclaimInv, OwnerInv, UniqueInv, ResizerInv, TableInv, ListInv, ScanInv, RhOf, RankFor;
    assert ThreadInv(s, t);
  }

  lemma SwapBooks(s: State, s': State, t: Tid, n: Node)
    requires Inv(s) && SwapOk(s, s', t, n)
    ensures Books(s, s', t)
  {
    hide ReclaimInv, OwnerInv, UniqueInv, ResizerInv, TableInv, ScanInv, RhOf, RankFor, RemovedOf, Reach;
    assert ThreadInv(s, t);
  }

  lemma XchgBooks(s: State, s': State, t: Tid)
    requires Inv(s) && DelOwnXchg(s, s', t)
    ensures Books(s, s', t)
  {
    hide ReclaimInv, OwnerInv, UniqueInv, ResizerInv, TableInv, ListInv, Gone;
    assert ThreadInv(s, t);
  }

  lemma DoneBooks(s: State, s': State, t: Tid)
    requires GcDone(s, s', t)
    ensures Books(s, s', t)
  {
  }

  lemma CodeBooks(s: State, s': State, t: Tid)
    requires Inv(s) && CodeStep(s, s', t)
    ensures t in s.threads && t in s'.threads && Books(s, s', t)
  {
    hide Inv, Books, LoadSize, LookHead, LookStep, AddHead, AddStep, ScanStep, InsertFail, InsertOk, HelpStep, SwapLate,
      SwapFail, SwapOk, DelLoad, DelMark, DelOwnLoad, DelOwnXchg, BucketMark, GcHead, GcStep, GcCutStep, GcDone;
    Flows(s, s', t);
    if n :| InsertOk(s, s', t, n) { InsertBooks(s, s', t, n); }
    else if n :| SwapOk(s, s', t, n) { SwapBooks(s, s', t, n); }
    else if HelpStep(s, s', t) || GcCutStep(s, s', t) { CutBooks(s, s', t); }
    else if DelMark(s, s', t) || BucketMark(s, s', t) { MarkBooks(s, s', t); }
    else if DelOwnXchg(s, s', t) { XchgBooks(s, s', t); }
    else if GcDone(s, s', t) { DoneBooks(s, s', t); }
    else if SwapLate(s, s', t) || SwapFail(s, s', t) || GcHead(s, s', t) || GcStep(s, s', t) { RemoveBooks(s, s', t); }
    else {
      if DelLoad(s, s', t) || DelOwnLoad(s, s', t) { RemoveMoves(s, s', t); }
      else if AddStep(s, s', t) || ScanStep(s, s', t) || InsertFail(s, s', t) { WalkMoves(s, s', t); }
      else { LookMoves(s, s', t); }
      ReadBooks(s, s', t);
    }
  }
  // ---------- what is still to be told ----------

  /** The thread has replaced `n` and will be told so. */
  predicate Owes(s: State, t: Tid, n: Node) {
    t in s.threads && Swapping(s.threads[t].pc) && s.threads[t].pc.gc.after.prior == n
  }

  /** An owned item has been handed over for reclamation, or exactly one thread is about to do so. */
  ghost predicate DebtInv(s: State) {
    && (forall t, n :: Owes(s, t, n) ==> n !in s.retired)
    && (forall t, u, n :: Owes(s, t, n) && Owes(s, u, n) ==> t == u)
    && (forall n :: n in s.retired && ItemNode(s, n) ==> OwnedItem(s, n))
    && (forall n :: OwnedItem(s, n) && n !in s.retired ==> exists t :: Owes(s, t, n))
  }

  lemma OwesOwned(s: State, t: Tid, n: Node)
    requires Inv(s) && Owes(s, t, n)
    ensures OwnedItem(s, n)
  {
    hide ReclaimInv, OwnerInv, UniqueInv, ResizerInv, TableInv, ListInv;
    assert ThreadInv(s, t);
  }

  lemma RetiredOld(s: State, s': State, n: Node)
    requires Inv(s) && Frozen(s.h, s'.h) && n in s.retired && ItemNode(s', n)
    ensures ItemNode(s, n)
  {
    hide OwnerInv, UniqueInv, ResizerInv, TableInv, ListInv, PcInv, Reach;
    assert Gone(s, n);
  }

  lemma CodeDebt(s: State, s': State, t: Tid)
    requires Inv(s) && Frozen(s.h, s'.h) && DebtInv(s) && CodeStep(s, s', t)
    ensures DebtInv(s')
  {
    hide Inv, CodeStep, StepAt, Frozen;
    Flows(s, s', t);
    CodeMoves(s, s', t);
    CodeBooks(s, s', t);
    var pc, pc' := s.threads[t].pc, s'.threads[t].pc;
    forall u, n | Owes(s, u, n)
      ensures OwnedItem(s, n)
    {
      OwesOwned(s, u, n);
    }
    forall n | n in s.retired && ItemNode(s', n)
      ensures OwnedItem(s, n)
    {
      RetiredOld(s, s', n);
    }
    assert forall n :: SaysRemoved(pc', n) ==> Wins(pc, pc', n) || Owes(s, t, n);
    assert forall u, n :: u != t ==> (Owes(s', u, n) <==> Owes(s, u, n));
    assert forall n :: Owes(s', t, n) ==> Wins(pc, pc', n) || Owes(s, t, n);
    forall n | OwnedItem(s', n) && n !in s'.retired
      ensures exists u :: Owes(s', u, n)
    {
      if OwnedItem(s, n) {
        var u :| Owes(s, u, n);
        assert Owes(s', u, n);
      } else {
        assert Owes(s', t, n);
      }
    }
  }
  lemma BusyInside(s: State, t: Tid)
    requires Inv(s) && t in s.threads && !s.threads[t].pc.Idle?
    ensures At(s, t)
  {
    hide ReclaimInv, OwnerInv, UniqueInv, ResizerInv, TableInv, ListInv, PcInv;
    assert ThreadInv(s, t);
  }

  lemma UserDebt(s: State, s': State, t: Tid)
    requires Inv(s) && DebtInv(s) && Calls(s, s', t)
    ensures DebtInv(s')
  {
    hide Inv;
    if !s.threads[t].pc.Idle? { BusyInside(s, t); }
    assert forall u, n :: Owes(s', u, n) <==> Owes(s, u, n);
  }

  /** Shrinking hands over buckets only. */
  lemma ResizeRetires(s: State, s': State, n: Node)
    requires Inv(s) && ResizeStep(s, s') && n in s'.retired && n !in s.retired
    ensures !ItemNode(s, n)
  {
    hide ReclaimInv, OwnerInv, UniqueInv, ResizerInv, ListInv, PcInv;
    assert TableInv(s);
    hide Inv;
  }

  lemma ResizeGrows(s: State, s': State)
    requires ResizeStep(s, s')
    ensures s.retired <= s'.retired
  {
  }

  lemma ResizeDebt(s: State, s': State)
    requires Inv(s) && DebtInv(s) && ResizeStep(s, s')
    ensures DebtInv(s')
  {
    hide ResizeStep, Inv;
    ResizeMoves(s, s');
    ResizeGrows(s, s');
    forall n | n in s'.retired && n !in s.retired
      ensures !ItemNode(s, n)
    {
      ResizeRetires(s, s', n);
    }
    forall t, n | Owes(s, t, n)
      ensures ItemNode(s, n)
    {
      OwesOwned(s, t, n);
    }
    assert forall u, n :: Owes(s', u, n) <==> Owes(s, u, n);
  }

  lemma {:induction false} RunDebt(r: seq<State>, i: nat)
    requires Run(r) && i < |r|
    ensures Inv(r[i]) && DebtInv(r[i])
  {
    hide Inv, DebtInv, Next, Frozen, UserStep, CodeStep, ResizeStep, Calls;
    RunInv(r, i);
    if i == 0 {
      InitDebt(r[0]);
    } else {
      RunDebt(r, i - 1);
      var s, s' := r[i - 1], r[i - 1 + 1];
      assert Next(s, s');
      FrozenStep(r, i - 1);
      NextDebt(s, s');
    }
  }

  lemma InitDebt(s: State)
    requires Init(s)
    ensures DebtInv(s)
  {
    hide Reach;
  }

  lemma NextDebt(s: State, s': State)
    requires Inv(s) && DebtInv(s) && Next(s, s') && Frozen(s.h, s'.h)
    ensures DebtInv(s')
  {
    hide Inv, DebtInv, Frozen, UserStep, CodeStep, ResizeStep, Calls;
    if t :| UserStep(s, s', t) {
      UserMoves(s, s', t);
      UserDebt(s, s', t);
    } else if t :| CodeStep(s, s', t) {
      CodeDebt(s, s', t);
    } else {
      ResizeDebt(s, s');
    }
  }

  // ---------- who is told ----------

  /** In this step `t` is told that the removal of `n` is its own. */
  predicate Told(s: State, s': State, t: Tid, n: Node) {
    t in s.threads && t in s'.threads && s'.threads[t].pc != s.threads[t].pc && SaysRemoved(s'.threads[t].pc, n)
  }

  /** This step of `t` sets REMOVAL_OWNER on the item `n`. */
  predicate SetsOwner(s: State, s': State, t: Tid, n: Node) {
    && !OwnedItem(s, n) && OwnedItem(s', n)
    && t in s.threads && t in s'.threads && s'.threads[t] != s.threads[t]
  }

  /** The thread that is told so sets the flag in this step, or did when it replaced the node. */
  lemma ToldStep(s: State, s': State, t: Tid, n: Node)
    requires Inv(s) && DebtInv(s) && Next(s, s') && Told(s, s', t, n)
    ensures CodeStep(s, s', t) && n !in s.retired && n in s'.retired
    ensures SetsOwner(s, s', t, n) || Owes(s, t, n)
  {
    hide Inv, Next, UserStep, CodeStep, StepAt;
    Mover(s, s', t);
    if UserStep(s, s', t) { UserMoves(s, s', t); }
    Flows(s, s', t);
    CodeBooks(s, s', t);
    if !Owes(s, t, n) { XchgItem(s, t); }
  }

  lemma XchgItem(s: State, t: Tid)
    requires Inv(s) && t in s.threads && s.threads[t].pc.OwnXchg?
    ensures ItemNode(s, s.threads[t].pc.node) && Gone(s, s.threads[t].pc.node)
  {
    hide ReclaimInv, OwnerInv, UniqueInv, ResizerInv, TableInv, ListInv, Reach;
    assert ThreadInv(s, t);
  }

  lemma {:induction false} RetiredStays(r: seq<State>, i: nat, j: nat, n: Node)
    requires Run(r) && i <= j < |r| && n in r[i].retired
    ensures n in r[j].retired
    decreases j
  {
    hide Next, Init, UserStep, CodeStep, ResizeStep, Inv;
    if i < j {
      RetiredStays(r, i, j - 1, n);
      var s, s' := r[j - 1], r[j - 1 + 1];
      assert Next(s, s');
      RunInv(r, j - 1);
      NextRetires(s, s');
    }
  }

  lemma NextRetires(s: State, s': State)
    requires Inv(s) && Next(s, s')
    ensures s.retired <= s'.retired
  {
    hide Inv, UserStep, CodeStep, ResizeStep;
    if t :| UserStep(s, s', t) { UserMoves(s, s', t); }
    else if t :| CodeStep(s, s', t) { CodeBooks(s, s', t); }
    else { ResizeGrows(s, s'); }
  }

  /** In a whole run at most one step tells a thread, and one thread only, that the removal of a node is its own. */
  lemma OneIsTold(r: seq<State>, i: nat, j: nat, t: Tid, u: Tid, n: Node)
    requires Run(r) && i <= j && j + 1 < |r| && Told(r[i], r[i + 1], t, n) && Told(r[j], r[j + 1], u, n)
    ensures i == j && t == u
  {
    hide Inv, DebtInv, Init, Next, CodeStep;
    assert Next(r[i], r[i + 1]) && Next(r[j], r[j + 1]);
    RunDebt(r, i);
    RunDebt(r, j);
    ToldStep(r[i], r[i + 1], t, n);
    ToldStep(r[j], r[j + 1], u, n);
    if i < j { RetiredStays(r, i + 1, j, n); }
    CodeMoves(r[i], r[i + 1], t);
  }

  lemma {:induction false} OwesSince(r: seq<State>, m: nat, t: Tid, n: Node)
    requires Run(r) && m < |r| && Owes(r[m], t, n)
    ensures exists e :: 0 <= e < m && SetsOwner(r[e], r[e + 1], t, n)
    decreases m
  {
    hide Inv, DebtInv, Next, CodeStep, UserStep, StepAt, SetsOwner;
    if m > 0 {
      hide Init;
      var s, s' := r[m - 1], r[m - 1 + 1];
      assert Next(s, s');
      RunInv(r, m - 1);
      if Owes(s, t, n) {
        OwesSince(r, m - 1, t, n);
      } else {
        NewDebt(s, s', t, n);
      }
    }
  }

  lemma NewDebt(s: State, s': State, t: Tid, n: Node)
    requires Inv(s) && Next(s, s') && !Owes(s, t, n) && Owes(s', t, n)
    ensures SetsOwner(s, s', t, n)
  {
    hide Inv, Next, CodeStep, UserStep, StepAt;
    KnownThread(s, s', t);
    Mover(s, s', t);
    if UserStep(s, s', t) {
      UserMoves(s, s', t);
    } else {
      Flows(s, s', t);
      CodeBooks(s, s', t);
    }
  }

  lemma KnownThread(s: State, s': State, t: Tid)
    requires Next(s, s') && t in s'.threads
    ensures t in s.threads
  {
    hide UserStep, CodeStep, ResizeStep;
    if u :| UserStep(s, s', u) { UserMoves(s, s', u); }
    else if u :| CodeStep(s, s', u) { CodeMoves(s, s', u); }
    else { ResizeMoves(s, s'); }
  }

  /** The thread that is told so is the one whose step set REMOVAL_OWNER on the node. */
  lemma ToldIsOwner(r: seq<State>, i: nat, t: Tid, n: Node)
    requires Run(r) && i + 1 < |r| && Told(r[i], r[i + 1], t, n)
    ensures exists e :: 0 <= e <= i && SetsOwner(r[e], r[e + 1], t, n)
  {
    hide Inv, DebtInv, Init, Next, CodeStep, SetsOwner;
    assert Next(r[i], r[i + 1]);
    RunDebt(r, i);
    ToldStep(r[i], r[i + 1], t, n);
    if Owes(r[i], t, n) { OwesSince(r, i, t, n); }
  }

  /** Only a step of a thread that takes the removal sets REMOVAL_OWNER. */
  lemma OwnerStep(s: State, s': State, n: Node)
    requires Inv(s) && Next(s, s') && !OwnedItem(s, n) && OwnedItem(s', n)
    ensures exists t :: CodeStep(s, s', t) && SetsOwner(s, s', t, n) && Wins(s.threads[t].pc, s'.threads[t].pc, n)
  {
    hide Inv, UserStep, CodeStep, ResizeStep, StepAt;
    if t :| UserStep(s, s', t) {
      UserMoves(s, s', t);
    } else if t :| CodeStep(s, s', t) {
      Flows(s, s', t);
      CodeBooks(s, s', t);
      assert SetsOwner(s, s', t, n);
    } else {
      ResizeMoves(s, s');
    }
  }

  /** The thread has been told so since state `e`, or is still collecting. */
  ghost predicate Informed(r: seq<State>, e: nat, j: nat, t: Tid, n: Node)
    requires j < |r|
  {
    Owes(r[j], t, n) || exists m :: e <= m < j && Told(r[m], r[m + 1], t, n)
  }

  lemma {:induction false} DebtIsPaid(r: seq<State>, e: nat, j: nat, t: Tid, n: Node)
    requires Run(r) && e <= j < |r| && Owes(r[e], t, n)
    ensures Informed(r, e, j, t, n)
    decreases j
  {
    hide Init, Next, CodeStep, UserStep, StepAt, Inv, Told;
    if e < j {
      DebtIsPaid(r, e, j - 1, t, n);
      if Owes(r[j - 1], t, n) && !Owes(r[j], t, n) {
        var s, s' := r[j - 1], r[j - 1 + 1];
        assert Next(s, s');
        RunInv(r, j - 1);
        DebtStep(s, s', t, n);
      }
    }
  }

  lemma DebtStep(s: State, s': State, t: Tid, n: Node)
    requires Inv(s) && Next(s, s') && Owes(s, t, n) && !Owes(s', t, n)
    ensures Told(s, s', t, n)
  {
    hide Inv, Next, CodeStep, UserStep, StepAt;
    BusyInside(s, t);
    Mover(s, s', t);
    if UserStep(s, s', t) { UserMoves(s, s', t); }
    else { Flows(s, s', t); }
  }

  /** And the thread that sets REMOVAL_OWNER is told so, unless it is still collecting what it replaced. */
  lemma OwnerIsTold(r: seq<State>, e: nat, j: nat, n: Node)
    requires Run(r) && e < j < |r| && !OwnedItem(r[e], n) && OwnedItem(r[e + 1], n)
    ensures exists t :: SetsOwner(r[e], r[e + 1], t, n) && Informed(r, e, j, t, n)
  {
    hide Inv, Init, Next, CodeStep;
    assert Next(r[e], r[e + 1]);
    RunInv(r, e);
    OwnerStep(r[e], r[e + 1], n);
    var t :| CodeStep(r[e], r[e + 1], t) && SetsOwner(r[e], r[e + 1], t, n)
             && Wins(r[e].threads[t].pc, r[e + 1].threads[t].pc, n);
    if Owes(r[e + 1], t, n) {
      DebtIsPaid(r, e + 1, j, t, n);
    } else {
      assert Told(r[e], r[e + 1], t, n);
    }
    assert Informed(r, e, j, t, n);
  }
}
