/**
 What the operations that change the table answer, over whole runs: adds,
 deletes and replacements.
 */
module HashTableAnswers {
  import opened SplitOrder
  import opened SplitList
  import opened HashTable
  import opened HashTableInv
  import opened HashTableRuns
  import opened HashTableMoves
  import opened HashTableTheorems
  import opened HashTableOwners

  // ---------- exchanges ----------

  /** Thread `t` replaces `p`, an unremoved node with key `k`, by the new node `n`. */
  predicate Exchanges(s: State, s': State, t: Tid, p: Node, n: Node, k: Key) {
    && LiveKey(s.h, p, k) && n !in s.h
    && Removed(s'.h, p) && s'.h[p].next.owner && LiveKey(s'.h, n, k)
    && t in s.threads && t in s'.threads && s'.threads[t] != s.threads[t]
  }

  /** The key an operation replaces nodes of. */
  predicate Replaces(op: Op, k: Key) {
    (op.Replace? && op.key == k) || op == Add(AddItem(Upsert, k))
  }

  /** The step that makes a replacement. */
  lemma SwapStarts(s: State, s': State, t: Tid)
    requires t in s.threads && StepAt(s, s', t) && t in s'.threads && Leads(s.threads[t].pc, s'.threads[t].pc)
    requires Swapping(s'.threads[t].pc) && !Swapping(s.threads[t].pc)
    ensures s.threads[t].pc.Swap? && SwapOk(s, s', t, s'.threads[t].pc.gc.after.newer)
  {
    hide Publish, RhOf, RankFor, RemovedOf;
    assert s.threads[t].pc.Swap? by { hide StepAt; }
  }

  lemma SwapExchanges(s: State, s': State, t: Tid, n: Node)
    requires Inv(s) && SwapOk(s, s', t, n)
    ensures Exchanges(s, s', t, s.threads[t].pc.prior, n, s.threads[t].pc.key)
  {
    assert PcInv(s, t, s.threads[t].pc) by { assert ThreadInv(s, t); }
    hide Inv, RhOf, RankFor, RemovedOf;
  }

  /** A call that is collecting after a replacement has made that replacement. */
  lemma {:induction false} Exchanged(r: seq<State>, t: Tid, op: Op, k: Key, i: nat, j: nat, m: nat)
    requires Run(r) && Call(r, t, op, i, j) && i <= m < j && Replaces(op, k) && Swapping(r[m].threads[t].pc)
    ensures var a := r[m].threads[t].pc.gc.after;
            exists e :: i <= e < m && Exchanges(r[e], r[e + 1], t, a.prior, a.newer, k)
    decreases m
  {
    hide Run, Exchanges, StepAt, CodeStep, Inv, SwapOk;
    if i < m {
      InCall(r, t, op, i, j, m - 1);
      CallMoves(r, t, op, i, j, m - 1);
      if r[m].threads[t] == r[m - 1].threads[t] {
        Exchanged(r, t, op, k, i, j, m - 1);
      } else {
        Flows(r[m - 1], r[m], t);
        if Swapping(r[m - 1].threads[t].pc) {
          Exchanged(r, t, op, k, i, j, m - 1);
        } else {
          SwapStarts(r[m - 1], r[m], t);
          RunInv(r, m - 1);
          var a := r[m].threads[t].pc.gc.after;
          assert r[m - 1].threads[t].pc.key == k && r[m - 1].threads[t].pc.prior == a.prior;
          SwapExchanges(r[m - 1], r[m], t, a.newer);
          assert Exchanges(r[m - 1], r[m - 1 + 1], t, a.prior, a.newer, k);
        }
      }
    }
  }

  // ---------- adds ----------

  lemma ScanReturns(s: State, s': State, t: Tid)
    requires ScanStep(s, s', t) && s'.threads[t].pc.Idle? && !s.threads[t].pc.req.mode.Plain?
    ensures var d := s.threads[t].pc.dup;
            && s'.threads[t].pc.ret == Exists(d) && s.threads[t].pc.req.mode.Unique?
            && LiveKey(s.h, d, s.threads[t].pc.req.key) && d in s'.threads[t].held && s'.h == s.h
  {
    hide Rev;
  }

  lemma InsertReturns(s: State, s': State, t: Tid, n: Node, k: Key)
    requires InsertOk(s, s', t, n) && KindOf(s.threads[t].pc.req) == Item(k) && !s.threads[t].pc.iter.removed
    ensures s'.threads[t].pc.ret == Added(n) && n !in s.h && LiveKey(s'.h, n, k) && n in s'.threads[t].held
    ensures forall y :: LiveKey(s.h, y, k) ==> LiveKey(s'.h, y, k)
  {
    hide RhOf, RankFor;
  }

  /** An add returns from its scan or from its insertion. */
  lemma AddEnds(s: State, s': State, t: Tid)
    requires t in s.threads && StepAt(s, s', t) && t in s'.threads && s'.threads[t].pc.Idle?
    ensures s.threads[t].pc.Scan? ==> ScanStep(s, s', t)
    ensures s.threads[t].pc.Insert? ==> exists n :: InsertOk(s, s', t, n)
  {
    hide InsertOk, ScanStep;
  }

  lemma AddPoint(s: State, t: Tid)
    requires Inv(s) && t in s.threads
    ensures s.threads[t].pc.Scan? ==> s.threads[t].pc.req.AddItem? && !s.threads[t].pc.req.mode.Plain?
    ensures s.threads[t].pc.Insert? ==> !s.threads[t].pc.iter.removed
  {
    hide ReclaimInv, OwnerInv, UniqueInv, ResizerInv, TableInv, ListInv;
    assert ThreadInv(s, t);
  }

  lemma AddReturns(s: State, s': State, t: Tid, mode: Mode, k: Key)
    requires Inv(s) && t in s.threads && StepAt(s, s', t) && Serving(s.threads[t].pc, Add(AddItem(mode, k)))
    requires t in s'.threads && s'.threads[t].pc.Idle? && Leads(s.threads[t].pc, s'.threads[t].pc)
    requires !Swapping(s.threads[t].pc)
    ensures match s'.threads[t].pc.ret
            case Added(n) => n !in s.h && LiveKey(s'.h, n, k) && n in s'.threads[t].held
                             && (forall y :: LiveKey(s.h, y, k) ==> LiveKey(s'.h, y, k))
            case Exists(d) => mode.Unique? && LiveKey(s.h, d, k) && d in s'.threads[t].held && s'.h == s.h
            case _ => false
  {
    hide Inv, ScanStep, LiveKey, InsertOk, StepAt;
    var pc := s.threads[t].pc;
    AddPoint(s, t);
    AddEnds(s, s', t);
    if pc.Scan? {
      ScanReturns(s, s', t);
    } else {
      assert pc.Insert?;
      var n :| InsertOk(s, s', t, n);
      InsertReturns(s, s', t, n, k);
    }
  }

  lemma SwapReturns(s: State, s': State, t: Tid)
    requires GcDone(s, s', t) && Swapping(s.threads[t].pc)
    ensures {s.threads[t].pc.gc.after.prior, s.threads[t].pc.gc.after.newer} <= s'.threads[t].held
  {
  }

  /**
   An add that answers with a new node has put it into the table, and a unique
   one only if no unremoved node had the key, unless plain adds use the key too.
   A unique add that answers with an old node gives an unremoved one with the key.
   An add-or-replace that answers with two has replaced the one by the other.
   There is no other answer.
   */
  lemma AddAnswers(r: seq<State>, t: Tid, mode: Mode, k: Key, i: nat, j: nat)
    requires Run(r) && Call(r, t, Add(AddItem(mode, k)), i, j)
    ensures match Answer(r, t, Add(AddItem(mode, k)), i, j)
            case Added(n) =>
              && n !in r[j - 1].h && LiveKey(r[j].h, n, k) && n in r[j].threads[t].held
              && (!mode.Plain? && k !in r[j].plain ==> !Present(r[j - 1], k))
            case Exists(d) =>
              mode.Unique? && LiveKey(r[j - 1].h, d, k) && d in r[j].threads[t].held && r[j].h == r[j - 1].h
            case Replaced(p, n) =>
              && mode.Upsert? && {p, n} <= r[j].threads[t].held
              && exists e :: i <= e < j && Exchanges(r[e], r[e + 1], t, p, n, k)
            case _ => false
  {
    hide Run, Inv, Exchanges, GcDone;
    var op := Add(AddItem(mode, k));
    CallReturns(r, t, op, i, j);
    RunInv(r, j - 1);
    if Swapping(r[j - 1].threads[t].pc) {
      SwapReturns(r[j - 1], r[j], t);
      Exchanged(r, t, op, k, i, j, j - 1);
    } else {
      AddReturns(r[j - 1], r[j], t, mode, k);
      var a := Answer(r, t, op, i, j);
      if a.Added? && !mode.Plain? && k !in r[j].plain && Present(r[j - 1], k) {
        var y :| LiveKey(r[j - 1].h, y, k);
        KeysStayUnique(r, j, k, a.n, y);
      }
    }
  }

  // ---------- which keys plain adds use ----------

  /** Thread `t` has called a plain add of `k`. */
  predicate AddsPlainly(s: State, t: Tid, k: Key) {
    t in s.threads && s.threads[t].pc == Sizing(Add(AddItem(Plain, k)))
  }

  lemma NewPlain(s: State, s': State, k: Key)
    requires Next(s, s') && k in s'.plain && k !in s.plain
    ensures exists t :: AddsPlainly(s', t, k)
  {
    hide UserStep, CodeStep, ResizeStep;
    if t :| UserStep(s, s', t) {
      UserMoves(s, s', t);
      assert AddsPlainly(s', t, k);
    } else if t :| CodeStep(s, s', t) {
      CodeMoves(s, s', t);
    } else {
      ResizeMoves(s, s');
    }
  }

  lemma AddIsKnown(s: State, t: Tid, k: Key)
    requires Inv(s) && AddsPlainly(s, t, k)
    ensures k in s.plain
  {
    hide ReclaimInv, OwnerInv, UniqueInv, ResizerInv, TableInv, ListInv;
    assert ThreadInv(s, t);
  }

  lemma {:induction false} PlainStays(r: seq<State>, m: nat, i: nat, k: Key)
    requires Run(r) && m <= i < |r| && k in r[m].plain
    ensures k in r[i].plain
    decreases i
  {
    hide Run, Inv, Evolves;
    if m < i {
      PlainStays(r, m, i - 1, k);
      RunCalm(r, i - 1);
    }
  }

  /**
   The keys recorded as used by plain adds, on which `KeysStayUnique` and
   `AddAnswers` depend, are those of the plain adds that have been called.
   */
  lemma {:induction false} PlainIsCalled(r: seq<State>, i: nat, k: Key)
    requires Run(r) && i < |r|
    ensures k in r[i].plain <==> exists m, t :: 0 <= m <= i && AddsPlainly(r[m], t, k)
    decreases i
  {
    hide Next, Inv, AddsPlainly;
    if k in r[i].plain {
      if i > 0 {
        PlainIsCalled(r, i - 1, k);
        assert Next(r[i - 1], r[i - 1 + 1]);
        if k !in r[i - 1].plain { NewPlain(r[i - 1], r[i], k); }
      }
    } else if m, t :| 0 <= m <= i && AddsPlainly(r[m], t, k) {
      RunInv(r, m);
      AddIsKnown(r[m], t, k);
      PlainStays(r, m, i, k);
    }
  }

  // ---------- deletes ----------

  /** The step from state `e` removes `n`. */
  predicate RemovedAt(r: seq<State>, e: nat, n: Node) {
    e + 1 < |r| && !Removed(r[e].h, n) && Removed(r[e + 1].h, n)
  }

  /** The step from state `e` takes the removal of `n`. */
  predicate OwnedAt(r: seq<State>, e: nat, n: Node) {
    e + 1 < |r| && !OwnedItem(r[e], n) && OwnedItem(r[e + 1], n)
  }

  /** It is either of these, and not a step of the call of `t` since state `i`. */
  predicate TakenByOther(r: seq<State>, t: Tid, i: nat, e: nat, n: Node) {
    && (RemovedAt(r, e, n) || OwnedAt(r, e, n))
    && (e < i || (t in r[e].threads && t in r[e + 1].threads && r[e + 1].threads[t] == r[e].threads[t]))
  }

  lemma {:induction false} RemovedSince(r: seq<State>, m: nat, n: Node)
    requires Run(r) && m < |r| && Removed(r[m].h, n)
    ensures exists e :: 0 <= e < m && RemovedAt(r, e, n)
    decreases m
  {
    hide Next, Reach;
    if m > 0 && Removed(r[m - 1].h, n) {
      RemovedSince(r, m - 1, n);
    } else if m > 0 {
      assert RemovedAt(r, m - 1, n);
    }
  }

  lemma {:induction false} OwnedSince(r: seq<State>, m: nat, n: Node)
    requires Run(r) && m < |r| && OwnedItem(r[m], n)
    ensures exists e :: 0 <= e < m && OwnedAt(r, e, n)
    decreases m
  {
    hide Next, Reach;
    if m > 0 && OwnedItem(r[m - 1], n) {
      OwnedSince(r, m - 1, n);
    } else if m > 0 {
      assert OwnedAt(r, m - 1, n);
    }
  }

  /** A delete that has not flagged its node yet has not done anything yet. */
  lemma {:induction false} NotYetFlagged(r: seq<State>, t: Tid, n: Node, i: nat, j: nat, m: nat, e: nat)
    requires Run(r) && Call(r, t, Del(n), i, j) && i <= e <= m < j
    requires r[m].threads[t].pc.Sizing? || r[m].threads[t].pc.Start?
    ensures r[e].threads[t].pc.Sizing? || r[e].threads[t].pc.Start?
    decreases m
  {
    hide Run, CodeStep, StepAt;
    if e < m {
      InCall(r, t, Del(n), i, j, m - 1);
      CallMoves(r, t, Del(n), i, j, m - 1);
      if r[m].threads[t] != r[m - 1].threads[t] { Flows(r[m - 1], r[m], t); }
      NotYetFlagged(r, t, n, i, j, m - 1, e);
    }
  }

  lemma RefusedAtLoad(r: seq<State>, t: Tid, n: Node, i: nat, j: nat)
    requires Run(r) && Call(r, t, Del(n), i, j) && r[j - 1].threads[t].pc.Start? && Removed(r[j - 1].h, n)
    ensures exists e :: 0 <= e < j && TakenByOther(r, t, i, e, n)
  {
    hide Run, CodeStep, StepAt;
    RemovedSince(r, j - 1, n);
    var e :| 0 <= e < j - 1 && RemovedAt(r, e, n);
    if i <= e && r[e + 1].threads[t] != r[e].threads[t] {
      CallMoves(r, t, Del(n), i, j, e);
      NotYetFlagged(r, t, n, i, j, j - 1, e);
      NotYetFlagged(r, t, n, i, j, j - 1, e + 1);
      Flows(r[e], r[e + 1], t);
      InCall(r, t, Del(n), i, j, e);
      SizingReads(r[e], r[e + 1], t);
    }
    assert TakenByOther(r, t, i, e, n);
  }

  lemma SizingReads(s: State, s': State, t: Tid)
    requires t in s.threads && s.threads[t].pc.Sizing? && StepAt(s, s', t)
    ensures s'.h == s.h
  {
    hide LoadSize;
    LookMoves(s, s', t);
  }

  lemma RefusedAtXchg(r: seq<State>, t: Tid, n: Node, i: nat, j: nat)
    requires Run(r) && Call(r, t, Del(n), i, j) && OwnedItem(r[j - 1], n)
    ensures exists e :: 0 <= e < j && TakenByOther(r, t, i, e, n)
  {
    hide Run, CodeStep, Inv;
    OwnedSince(r, j - 1, n);
    var e :| 0 <= e < j - 1 && OwnedAt(r, e, n);
    if i <= e && r[e + 1].threads[t] != r[e].threads[t] {
      CallMoves(r, t, Del(n), i, j, e);
      InCall(r, t, Del(n), i, j, e);
      RunInv(r, e);
      CodeBooks(r[e], r[e + 1], t);
    }
    assert TakenByOther(r, t, i, e, n);
  }

  lemma DelReturns(s: State, s': State, t: Tid, n: Node)
    requires t in s.threads && StepAt(s, s', t) && t in s'.threads && Serving(s.threads[t].pc, Del(n))
    requires s'.threads[t].pc == Idle(Refused)
    ensures s.threads[t].pc.Sizing? ==> n == END
    ensures s.threads[t].pc.Start? ==> Removed(s.h, n)
    ensures s.threads[t].pc.OwnXchg? ==> n in s.h && s.h[n].next.owner
  {
  }

  /**
   A delete answers that it has removed its node, if it was its last step that set
   REMOVAL_OWNER on it, and then the node is out of the list for good. Or it
   refuses, and then it was given none, or somebody else or an earlier call has
   removed the node or taken its removal. There is no other answer.
   */
  lemma DelAnswers(r: seq<State>, t: Tid, n: Node, i: nat, j: nat)
    requires Run(r) && Call(r, t, Del(n), i, j)
    ensures match Answer(r, t, Del(n), i, j)
            case Deleted(d) => d == n && SetsOwner(r[j - 1], r[j], t, n) && Gone(r[j], n)
            case Refused => n == END || exists e :: 0 <= e < j && TakenByOther(r, t, i, e, n)
            case _ => false
  {
    hide Run, CodeStep, Inv, Gone, TakenByOther, StepAt;
    CallReturns(r, t, Del(n), i, j);
    CallMoves(r, t, Del(n), i, j, j - 1);
    RunInv(r, j - 1);
    var pc := r[j - 1].threads[t].pc;
    if pc.OwnXchg? { XchgItem(r[j - 1], t); }
    if Answer(r, t, Del(n), i, j) == Refused {
      DelReturns(r[j - 1], r[j], t, n);
      if pc.Start? { RefusedAtLoad(r, t, n, i, j); } else if pc.OwnXchg? { RefusedAtXchg(r, t, n, i, j); }
    } else {
      CodeBooks(r[j - 1], r[j], t);
      GoneForever(r, j - 1, j, n);
    }
  }

  // ---------- replacements ----------

  /** The next word a replacement works with is the caller's, or was read from the node. */
  lemma {:induction false} WordRead(r: seq<State>, t: Tid, op: Op, i: nat, j: nat, m: nat)
    requires Run(r) && Call(r, t, op, i, j) && op.Replace? && i <= m < j && r[m].threads[t].pc.Swap?
    ensures var w := r[m].threads[t].pc.expected; w == op.expected || (w.removed ==> Removed(r[m].h, op.prior))
    decreases m
  {
    hide Run, CodeStep, Inv, StepAt;
    if i < m {
      InCall(r, t, op, i, j, m - 1);
      CallMoves(r, t, op, i, j, m - 1);
      if r[m].threads[t] == r[m - 1].threads[t] {
        WordRead(r, t, op, i, j, m - 1);
        FrozenStep(r, m - 1);
      } else {
        Flows(r[m - 1], r[m], t);
        if r[m - 1].threads[t].pc.Swap? { RetryReads(r[m - 1], r[m], t); }
      }
    }
  }

  lemma RetryReads(s: State, s': State, t: Tid)
    requires t in s.threads && s.threads[t].pc.Swap? && StepAt(s, s', t) && t in s'.threads && s'.threads[t].pc.Swap?
    ensures s'.threads[t].pc.expected.removed ==> Removed(s'.h, s.threads[t].pc.prior)
  {
    hide Publish, RhOf, RankFor, RemovedOf;
  }

  lemma LateReturns(s: State, s': State, t: Tid)
    requires t in s.threads && s.threads[t].pc.Swap? && StepAt(s, s', t) && t in s'.threads && s'.threads[t].pc.Idle?
    ensures s.threads[t].pc.expected.removed
  {
    hide Publish, RhOf, RankFor, RemovedOf;
  }

  lemma UnfitReturns(s: State, s': State, t: Tid)
    requires Inv(s) && LoadSize(s, s', t) && s.threads[t].pc.op.Replace? && s'.threads[t].pc.Idle?
    ensures var op := s.threads[t].pc.op;
            op.prior == END || (op.prior in s.h && s.h[op.prior].kind != Item(op.key))
  {
    hide ReclaimInv, OwnerInv, UniqueInv, ResizerInv, TableInv, ListInv, OpHash;
    assert ThreadInv(s, t);
  }

  /**
   A replacement answers with the two nodes it has exchanged; or it refuses, and
   then the caller's next word was flagged removed, or the node is removed, has
   another key or is none. There is no other answer.
   */
  lemma ReplaceAnswers(r: seq<State>, t: Tid, prior: Node, expected: Link, k: Key, i: nat, j: nat)
    requires Run(r) && Call(r, t, Replace(prior, expected, k), i, j)
    ensures match Answer(r, t, Replace(prior, expected, k), i, j)
            case Replaced(p, n) =>
              && p == prior && {p, n} <= r[j].threads[t].held
              && exists e :: i <= e < j && Exchanges(r[e], r[e + 1], t, p, n, k)
            case Refused =>
              || expected.removed || Removed(r[j - 1].h, prior)
              || prior == END || (prior in r[j - 1].h && r[j - 1].h[prior].kind != Item(k))
            case _ => false
  {
    hide Run, Inv, Exchanges, GcDone;
    var op := Replace(prior, expected, k);
    CallReturns(r, t, op, i, j);
    if Swapping(r[j - 1].threads[t].pc) {
      SwapReturns(r[j - 1], r[j], t);
      Exchanged(r, t, op, k, i, j, j - 1);
    } else if r[j - 1].threads[t].pc.Swap? {
      hide StepAt;
      LateReturns(r[j - 1], r[j], t);
      WordRead(r, t, op, i, j, j - 1);
    } else {
      RunInv(r, j - 1);
      UnfitReturns(r[j - 1], r[j], t);
    }
  }
}
