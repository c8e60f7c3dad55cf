/**
 Every state of every run satisfies the invariant.
 */
module HashTableRuns {
  import opened SplitOrder
  import opened SplitList
  import opened HashTable
  import opened HashTableInv
  import opened HashTableReads
  import opened HashTableWrites
  import opened HashTableInsert
  import opened HashTableResize
  import opened HashTableOrders

  lemma InitInv(s: State)
    requires Init(s)
    ensures Inv(s)
  {
    hide Reach;
    assert 0 < Pow2(s.order);
    Pow2Monotone(s.order, s.bits);
  }

  lemma UserInv(s: State, s': State, t: Tid)
    requires Inv(s) && UserStep(s, s', t)
    ensures Inv(s')
  {
    hide Inv, Enter, Exit, BeginLookup, BeginAdd, BeginDel, BeginReplace, BeginLink, BeginUnlink;
    if Enter(s, s', t) {
      EnterInv(s, s', t);
    } else if Exit(s, s', t) {
      ExitInv(s, s', t);
    } else if k :| BeginLookup(s, s', t, k) {
      BeginLookupInv(s, s', t, k);
    } else if mode, k :| BeginAdd(s, s', t, mode, k) {
      BeginAddInv(s, s', t, mode, k);
    } else if n :| BeginDel(s, s', t, n) {
      BeginDelInv(s, s', t, n);
    } else if prior, expected, k :| BeginReplace(s, s', t, prior, expected, k) {
      BeginReplaceInv(s, s', t, prior, expected, k);
    } else if j :| BeginLink(s, s', t, j) {
      BeginLinkInv(s, s', t, j);
    } else {
      var j :| BeginUnlink(s, s', t, j);
      BeginUnlinkInv(s, s', t, j);
    }
  }

  lemma CodeInv(s: State, s': State, t: Tid)
    requires Inv(s) && CodeStep(s, s', t)
    ensures Inv(s')
  {
    hide Inv, LoadSize, LookHead, LookStep, AddHead, AddStep, ScanStep;
    hide InsertFail, InsertOk, HelpStep, SwapLate, SwapFail, SwapOk, DelLoad;
    hide DelMark, DelOwnLoad, DelOwnXchg, BucketMark, GcHead, GcStep, GcCutStep;
    hide GcDone;
    if LoadSize(s, s', t) { LoadSizeInv(s, s', t); }
    else if LookHead(s, s', t) { LookHeadInv(s, s', t); }
    else if LookStep(s, s', t) { LookStepInv(s, s', t); }
    else if AddHead(s, s', t) { AddHeadInv(s, s', t); }
    else if AddStep(s, s', t) { AddStepInv(s, s', t); }
    else if ScanStep(s, s', t) { ScanStepInv(s, s', t); }
    else if InsertFail(s, s', t) { InsertFailInv(s, s', t); }
    else if HelpStep(s, s', t) { HelpInv(s, s', t); }
    else if SwapLate(s, s', t) || SwapFail(s, s', t) { SwapRetryInv(s, s', t); }
    else if DelLoad(s, s', t) || DelOwnLoad(s, s', t) { DelLoadInv(s, s', t); }
    else if DelMark(s, s', t) { DelMarkInv(s, s', t); }
    else if DelOwnXchg(s, s', t) { OwnXchgInv(s, s', t); }
    else if BucketMark(s, s', t) { BucketMarkInv(s, s', t); }
    else if GcHead(s, s', t) { GcHeadInv(s, s', t); }
    else if GcStep(s, s', t) { GcStepInv(s, s', t); }
    else if GcCutStep(s, s', t) { GcCutInv(s, s', t); }
    else if GcDone(s, s', t) { GcDoneInv(s, s', t); }
    else if n :| InsertOk(s, s', t, n) { InsertOkInv(s, s', t, n); }
    else {
      var n :| SwapOk(s, s', t, n);
      SwapOkInv(s, s', t, n);
    }
  }

  lemma ResizeInv(s: State, s': State)
    requires Inv(s) && ResizeStep(s, s')
    ensures Inv(s')
  {
    hide Inv, GrowStart, GrowPublish, ShrinkSize, ShrinkWait, ShrinkRemove;
    hide ShrinkEmptied, ShrinkLastWait, ShrinkFree, StartGp, FreeItem;
    if GrowStart(s, s') { GrowStartInv(s, s'); }
    else if GrowPublish(s, s') { GrowPublishInv(s, s'); }
    else if ShrinkSize(s, s') { ShrinkSizeInv(s, s'); }
    else if ShrinkRemove(s, s') { ShrinkRemoveInv(s, s'); }
    else if ShrinkEmptied(s, s') { ShrinkEmptiedInv(s, s'); }
    else if ShrinkFree(s, s') { ShrinkFreeInv(s, s'); }
    else if g :| ShrinkWait(s, s', g) { ShrinkWaitInv(s, s', g); }
    else if g :| ShrinkLastWait(s, s', g) { ShrinkLastWaitInv(s, s', g); }
    else if g :| StartGp(s, s', g) { StartGpInv(s, s', g); }
    else {
      var g, w :| FreeItem(s, s', g, w);
      FreeItemInv(s, s', g, w);
    }
  }

  /** Every step, of any thread or of the resizer, keeps the invariant. */
  lemma NextInv(s: State, s': State)
    requires Inv(s) && Next(s, s')
    ensures Inv(s')
  {
    hide Inv, UserStep, CodeStep, ResizeStep;
    if t :| UserStep(s, s', t) { UserInv(s, s', t); }
    else if t :| CodeStep(s, s', t) { CodeInv(s, s', t); }
    else { ResizeInv(s, s'); }
  }

  lemma {:induction false} RunInv(r: seq<State>, i: nat)
    requires Run(r) && i < |r|
    ensures Inv(r[i])
  {
    hide Inv, Init, Next;
    if i == 0 {
      InitInv(r[0]);
    } else {
      RunInv(r, i - 1);
      assert Next(r[i - 1], r[i - 1 + 1]);
      NextInv(r[i - 1], r[i]);
    }
  }
}
