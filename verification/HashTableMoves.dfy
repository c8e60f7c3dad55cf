/**
 Who moves in a step, by which step, and what a thread is doing between the call
 of an operation and its return.
 */
module HashTableMoves {
  import opened SplitOrder
  import opened SplitList
  import opened HashTable
  import opened HashTableInv

  // ---------- who moves ----------

  /** No thread but `t` changes. */
  predicate OnlyMoves(s: State, s': State, t: Tid) {
    t in s.threads && t in s'.threads && s'.threads == s.threads[t := s'.threads[t]]
  }

  /** A thread enters or leaves, or calls an operation; it was in none. */
  ghost predicate Calls(s: State, s': State, t: Tid) {
    && OnlyMoves(s, s', t) && s'.h == s.h && s'.retired == s.retired
    && (At(s, t) ==> s.threads[t].pc.Idle?)
    && (forall k :: k in s'.plain && k !in s.plain ==> s'.threads[t].pc == Sizing(Add(AddItem(Plain, k))))
    && var pc' := s'.threads[t].pc;
       pc' == Idle(Nothing) || pc'.Sizing? || pc'.Start? || pc'.MarkBucket?
  }

  lemma BeginMoves(s: State, s': State, t: Tid)
    requires || (exists k :: BeginLookup(s, s', t, k))
             || (exists mode, k :: BeginAdd(s, s', t, mode, k))
             || (exists n :: BeginDel(s, s', t, n))
             || (exists prior, expected, k :: BeginReplace(s, s', t, prior, expected, k))
    ensures Calls(s, s', t)
  {
    hide Pow2, MayName;
  }

  lemma UserMoves(s: State, s': State, t: Tid)
    requires UserStep(s, s', t)
    ensures Calls(s, s', t)
  {
    hide BeginLookup, BeginAdd, BeginDel, BeginReplace, Calls;
    if || (exists k :: BeginLookup(s, s', t, k))
       || (exists mode, k :: BeginAdd(s, s', t, mode, k))
       || (exists n :: BeginDel(s, s', t, n))
       || (exists prior, expected, k :: BeginReplace(s, s', t, prior, expected, k)) {
      BeginMoves(s, s', t);
    } else {
      SectionMoves(s, s', t);
    }
  }

  lemma SectionMoves(s: State, s': State, t: Tid)
    requires || Enter(s, s', t) || Exit(s, s', t)
             || (exists j :: BeginLink(s, s', t, j))
             || (exists j :: BeginUnlink(s, s', t, j))
    ensures Calls(s, s', t)
  {
    hide InOrder, BucketIndex;
  }

  /** Thread `t` reads: it goes on, and nothing else changes. */
  predicate Reads(s: State, s': State, t: Tid) {
    OnlyMoves(s, s', t) && s'.h == s.h && s'.retired == s.retired && s'.plain == s.plain
  }

  lemma LookMoves(s: State, s': State, t: Tid)
    requires LoadSize(s, s', t) || LookHead(s, s', t) || LookStep(s, s', t) || AddHead(s, s', t)
    ensures Reads(s, s', t)
  {
    hide Rev, OpHash;
  }

  lemma WalkMoves(s: State, s': State, t: Tid)
    requires AddStep(s, s', t) || ScanStep(s, s', t) || InsertFail(s, s', t)
    ensures Reads(s, s', t)
  {
    hide Rev, RhOf, KindOf;
  }

  lemma RemoveMoves(s: State, s': State, t: Tid)
    requires SwapLate(s, s', t) || SwapFail(s, s', t) || DelLoad(s, s', t) || DelOwnLoad(s, s', t)
             || GcHead(s, s', t) || GcStep(s, s', t)
    ensures Reads(s, s', t)
  {
  }

  lemma WriteMoves(s: State, s': State, t: Tid)
    requires HelpStep(s, s', t) || GcCutStep(s, s', t) || DelMark(s, s', t) || BucketMark(s, s', t) || GcDone(s, s', t)
             || DelOwnXchg(s, s', t)
    ensures OnlyMoves(s, s', t) && s'.plain == s.plain
  {
    hide Cut, Flag, RemovedOf;
  }

  lemma PublishMoves(s: State, s': State, t: Tid, n: Node)
    requires InsertOk(s, s', t, n) || SwapOk(s, s', t, n)
    ensures OnlyMoves(s, s', t) && s'.plain == s.plain
  {
    hide Publish, KindOf, RhOf, RankFor, RemovedOf;
  }

  lemma CodeMoves(s: State, s': State, t: Tid)
    requires CodeStep(s, s', t)
    ensures OnlyMoves(s, s', t) && s'.plain == s.plain
  {
    hide LoadSize, LookHead, LookStep, AddHead, AddStep, ScanStep, InsertFail, InsertOk, HelpStep, SwapLate, SwapFail,
      SwapOk, DelLoad, DelMark, DelOwnLoad, DelOwnXchg, BucketMark, GcHead, GcStep, GcCutStep, GcDone, OnlyMoves;
    if n :| InsertOk(s, s', t, n) || SwapOk(s, s', t, n) {
      PublishMoves(s, s', t, n);
    } else if || HelpStep(s, s', t) || GcCutStep(s, s', t) || DelMark(s, s', t) || BucketMark(s, s', t)
              || GcDone(s, s', t) || DelOwnXchg(s, s', t) {
      WriteMoves(s, s', t);
    } else if || SwapLate(s, s', t) || SwapFail(s, s', t) || DelLoad(s, s', t) || DelOwnLoad(s, s', t)
              || GcHead(s, s', t) || GcStep(s, s', t) {
      RemoveMoves(s, s', t);
    } else if AddStep(s, s', t) || ScanStep(s, s', t) || InsertFail(s, s', t) {
      WalkMoves(s, s', t);
    } else {
      LookMoves(s, s', t);
    }
  }

  lemma ResizeMoves(s: State, s': State)
    requires ResizeStep(s, s')
    ensures s'.threads == s.threads && s'.h == s.h && s'.plain == s.plain
  {
  }

  /** A thread changes only by its own steps. */
  lemma Mover(s: State, s': State, t: Tid)
    requires Next(s, s') && t in s.threads
    ensures t in s'.threads && (s'.threads[t] == s.threads[t] || UserStep(s, s', t) || CodeStep(s, s', t))
  {
    hide UserStep, CodeStep, ResizeStep;
    if u :| UserStep(s, s', u) { UserMoves(s, s', u); }
    else if u :| CodeStep(s, s', u) { CodeMoves(s, s', u); }
    else { ResizeMoves(s, s'); }
  }

  // ---------- which step ----------

  /** The steps a thread can take at its program point. */
  ghost predicate StepAt(s: State, s': State, t: Tid)
    requires t in s.threads
  {
    match s.threads[t].pc
    case Idle(_) => false
    case Sizing(_) => LoadSize(s, s', t)
    case Start(_, _) => LookHead(s, s', t) || AddHead(s, s', t) || DelLoad(s, s', t)
    case Look(_, _) => LookStep(s, s', t)
    case Walk(_, _, _, _) => AddStep(s, s', t)
    case Scan(_, _, _, _, _) => ScanStep(s, s', t)
    case Insert(_, _, _, _) => InsertFail(s, s', t) || exists n :: InsertOk(s, s', t, n)
    case Help(_, _, _, _, _) => HelpStep(s, s', t)
    case Swap(_, _, _, _, _) => SwapLate(s, s', t) || SwapFail(s, s', t) || exists n :: SwapOk(s, s', t, n)
    case Mark(_, _) => DelMark(s, s', t)
    case MarkBucket(_, _, _) => BucketMark(s, s', t)
    case GcStart(_) => GcHead(s, s', t)
    case GcWalk(_, _, _) => GcStep(s, s', t) || GcDone(s, s', t)
    case GcCut(_, _, _, _) => GcCutStep(s, s', t)
    case OwnLoad(_) => DelOwnLoad(s, s', t)
    case OwnXchg(_, _) => DelOwnXchg(s, s', t)
  }

  lemma ByPc(s: State, s': State, t: Tid)
    requires CodeStep(s, s', t)
    ensures At(s, t) && StepAt(s, s', t)
  {
    hide Publish, Cut, Flag, KindOf, RhOf, RankFor, RemovedOf, Rev, OpHash, Go, Return;
  }

  // ---------- operations ----------

  /** A call of `op` by `t` is under way from state `i` on, and has returned in state `j`. */
  predicate Call(r: seq<State>, t: Tid, op: Op, i: nat, j: nat) {
    && i < j < |r|
    && (forall m :: i <= m <= j ==> At(r[m], t))
    && r[i].threads[t].pc == Sizing(op)
    && (forall m :: i <= m < j ==> !r[m].threads[t].pc.Idle?)
    && r[j].threads[t].pc.Idle?
  }

  /** What the call answers. */
  function Answer(r: seq<State>, t: Tid, op: Op, i: nat, j: nat): Ret
    requires Call(r, t, op, i, j)
  {
    r[j].threads[t].pc.ret
  }

  predicate Adding(pc: Pc, req: Req) {
    || (pc.Start? && pc.op == Add(req))
    || ((pc.Walk? || pc.Scan? || pc.Insert? || pc.Help?) && pc.req == req)
  }

  predicate Collects(pc: Pc) { pc.GcStart? || pc.GcWalk? || pc.GcCut? }

  /** Collecting the bucket after a node was replaced. */
  predicate Swapping(pc: Pc) { Collects(pc) && pc.gc.after.Swapped? }

  /** The program points of an operation. */
  predicate Serving(pc: Pc, op: Op) {
    || pc == Sizing(op)
    || match op
       case Lookup(k) => (pc.Start? && pc.op == op) || (pc.Look? && pc.key == k)
       case Add(req) =>
         || Adding(pc, req)
         || (req.AddItem? && req.mode.Upsert? && ((pc.Swap? && pc.key == req.key && pc.retry) || Swapping(pc)))
       case Del(n) => (pc.Start? && pc.op == op) || (pc.Mark? && pc.node == n) || Committed(pc, n)
       case Replace(prior, _, k) =>
         || (pc.Swap? && pc.key == k && pc.prior == prior && !pc.retry)
         || (Swapping(pc) && pc.gc.after.prior == prior)
  }

  /** The flow of control, with what each program point passes on. */
  predicate Leads(pc: Pc, pc': Pc) {
    match pc
    case Idle(_) => false
    case Sizing(op) =>
      || (if op.Replace? then
            pc'.Swap? && pc'.key == op.key && pc'.prior == op.prior && pc'.expected == op.expected && !pc'.retry
          else pc'.Start? && pc'.op == op)
      || (pc' == Idle(Refused) && (op.Del? || op.Replace?))
    case Start(op, _) =>
      (match op
       case Lookup(k) => pc'.Look? && pc'.key == k
       case Add(req) => Adding(pc', req)
       case Del(n) => (pc'.Mark? && pc'.node == n) || pc' == Idle(Refused)
       case Replace(_, _, _) => false)
    case Look(k, _) => (pc'.Look? && pc'.key == k) || (pc'.Idle? && (pc'.ret.Missing? || pc'.ret.Found?))
    case Walk(req, _, _, _) => Adding(pc', req)
    case Help(req, _, _, _, _) => Adding(pc', req)
    case Scan(req, _, _, _, _) =>
      || Adding(pc', req)
      || (pc'.Swap? && req == AddItem(Upsert, pc'.key) && pc'.retry)
      || (pc'.Idle? && pc'.ret.Exists?)
    case Insert(req, _, _, _) => Adding(pc', req) || (pc'.Idle? && pc'.ret.Added?)
    case Swap(k, _, prior, _, retry) =>
      || (pc'.Swap? && pc'.key == k && pc'.prior == prior && pc'.retry == retry)
      || (Swapping(pc') && pc'.gc.after.prior == prior)
      || (if retry then Adding(pc', AddItem(Upsert, k)) else pc' == Idle(Refused))
    case Mark(n, _) => Collects(pc') && pc'.gc.after == Own(n)
    case MarkBucket(j, _, _) => Collects(pc') && pc'.gc.after == Unlinked(j)
    case OwnLoad(n) => pc'.OwnXchg? && pc'.node == n
    case OwnXchg(n, _) => pc' == Idle(Deleted(n)) || pc' == Idle(Refused)
    case _ =>
      || (Collects(pc') && pc'.gc == pc.gc)
      || (match pc.gc.after
          case Own(n) => pc' == OwnLoad(n)
          case Swapped(prior, n) => pc' == Idle(Replaced(prior, n))
          case Unlinked(_) => pc' == Idle(Nothing))
  }

  lemma StartLeads(s: State, s': State, t: Tid)
    requires t in s.threads && StepAt(s, s', t)
    requires var pc := s.threads[t].pc; pc.Sizing? || pc.Start? || pc.Look? || pc.Walk? || pc.Help?
    ensures t in s'.threads && Leads(s.threads[t].pc, s'.threads[t].pc)
  {
    hide Cut, KindOf, RhOf, OpHash, Rev;
  }

  lemma AddLeads(s: State, s': State, t: Tid)
    requires t in s.threads && StepAt(s, s', t) && (s.threads[t].pc.Scan? || s.threads[t].pc.Insert?)
    ensures t in s'.threads && Leads(s.threads[t].pc, s'.threads[t].pc)
  {
    hide Publish, KindOf, RhOf, RankFor, Rev;
  }

  lemma RemoveLeads(s: State, s': State, t: Tid)
    requires t in s.threads && StepAt(s, s', t)
    requires var pc := s.threads[t].pc; pc.Swap? || pc.Mark? || pc.MarkBucket? || pc.OwnLoad? || pc.OwnXchg?
    ensures t in s'.threads && Leads(s.threads[t].pc, s'.threads[t].pc)
  {
    hide Publish, Flag, RhOf, RankFor, RemovedOf;
  }

  lemma GcLeads(s: State, s': State, t: Tid)
    requires t in s.threads && StepAt(s, s', t) && Collects(s.threads[t].pc)
    ensures t in s'.threads && Leads(s.threads[t].pc, s'.threads[t].pc)
  {
    hide Cut;
  }

  /** A step of the program is one the thread can take where it is, and follows the flow of control. */
  lemma Flows(s: State, s': State, t: Tid)
    requires CodeStep(s, s', t)
    ensures At(s, t) && StepAt(s, s', t) && t in s'.threads && Leads(s.threads[t].pc, s'.threads[t].pc)
  {
    hide CodeStep, StepAt, Leads;
    ByPc(s, s', t);
    var pc := s.threads[t].pc;
    if pc.Sizing? || pc.Start? || pc.Look? || pc.Walk? || pc.Help? { StartLeads(s, s', t); }
    else if pc.Scan? || pc.Insert? { AddLeads(s, s', t); }
    else if pc.Swap? || pc.Mark? || pc.MarkBucket? || pc.OwnLoad? || pc.OwnXchg? { RemoveLeads(s, s', t); }
    else {
      assert Collects(pc) by { NotIdle(s, s', t); }
      GcLeads(s, s', t);
    }
  }

  lemma NotIdle(s: State, s': State, t: Tid)
    requires t in s.threads && StepAt(s, s', t)
    ensures !s.threads[t].pc.Idle?
  {
  }

  /** A thread in an operation goes on with it or returns. */
  lemma Serves(pc: Pc, pc': Pc, op: Op)
    requires Leads(pc, pc') && Serving(pc, op)
    ensures pc'.Idle? || Serving(pc', op)
  {
  }

  /** From its call to its return a thread is at a program point of its operation. */
  lemma {:induction false} InCall(r: seq<State>, t: Tid, op: Op, i: nat, j: nat, m: nat)
    requires Run(r) && Call(r, t, op, i, j) && i <= m < j
    ensures Serving(r[m].threads[t].pc, op)
    decreases m
  {
    hide Next, Init;
    if i < m {
      InCall(r, t, op, i, j, m - 1);
      CallMoves(r, t, op, i, j, m - 1);
      if CodeStep(r[m - 1], r[m], t) {
        hide CodeStep, StepAt;
        Flows(r[m - 1], r[m], t);
        Serves(r[m - 1].threads[t].pc, r[m].threads[t].pc, op);
      }
    }
  }

  /** In each step of a call its thread stays, or takes a step of the program. */
  lemma CallMoves(r: seq<State>, t: Tid, op: Op, i: nat, j: nat, m: nat)
    requires Run(r) && Call(r, t, op, i, j) && i <= m < j
    ensures r[m + 1].threads[t] == r[m].threads[t] || CodeStep(r[m], r[m + 1], t)
  {
    hide Next, Init, UserStep, CodeStep;
    assert Next(r[m], r[m + 1]);
    Mover(r[m], r[m + 1], t);
    if UserStep(r[m], r[m + 1], t) { UserMoves(r[m], r[m + 1], t); }
  }

  /** The last step of a call: taken by its thread, at a program point of the operation. */
  lemma CallReturns(r: seq<State>, t: Tid, op: Op, i: nat, j: nat)
    requires Run(r) && Call(r, t, op, i, j)
    ensures StepAt(r[j - 1], r[j], t) && Serving(r[j - 1].threads[t].pc, op)
    ensures Leads(r[j - 1].threads[t].pc, r[j].threads[t].pc)
  {
    hide Next, Init, CodeStep, StepAt, Serving, Leads;
    InCall(r, t, op, i, j, j - 1);
    CallMoves(r, t, op, i, j, j - 1);
    Flows(r[j - 1], r[j], t);
  }
}
