/**
 What the operations of the wait-free queue answer, from their call to their
 return, and what they have done to which queue by then.
 */
module WfcQueueAnswers {
  import opened WfcQueue

  // ---------- who moves, and where to ----------

  lemma StepMoves(s: State, s': State, t: Tid)
    requires Step(s, s', t)
    ensures t < |s.threads| && |s'.threads| == |s.threads| && s'.threads == s.threads[t := s'.threads[t]]
  {
    hide Rehome, Next;
  }

  /** A thread changes only by its own steps. */
  lemma ByItself(s: State, s': State, t: Tid)
    requires Moves(s, s') && t < |s.threads|
    ensures t < |s'.threads| && (s'.threads[t] == s.threads[t] || Step(s, s', t))
  {
    hide Step;
    var u :| Step(s, s', u);
    StepMoves(s, s', u);
  }

  /** The program points of an emptiness test, a dequeue or a splice of queue `q`. */
  predicate Doing(pc: Pc, q: Qid, op: Op) {
    || pc == TestHead(q, op) || pc == TestTail(q, op)
    || match op
       case Check => false
       case Dequeue =>
         (pc.SyncHead? || pc.LoadNext? || pc.ClearHead? || pc.MoveTail? || pc.SyncNext? || pc.Restore? || pc.Advance?)
         && pc.q == q
       case Splice(dest) =>
         || ((pc.TakeHead? || pc.TestAgain? || pc.TakeTail?) && pc.q == q && pc.dest == dest)
         || (pc.Append? && pc.q == dest) || pc.Link?
  }

  lemma DoingStep(s: State, s': State, t: Tid, q: Qid, op: Op)
    requires Step(s, s', t) && t < |s.threads| && Doing(s.threads[t].pc, q, op)
    ensures t < |s'.threads| && (s'.threads[t].pc.Idle? || Doing(s'.threads[t].pc, q, op))
  {
    hide Rehome, Next;
  }

  // ---------- calls ----------

  /** An operation of `t` is under way from state `a` on and returns in the step from state `i`. */
  predicate CallRuns(r: seq<State>, t: Tid, a: nat, i: nat) {
    && a <= i && i + 1 < |r|
    && (forall m :: a <= m <= i + 1 ==> t < |r[m].threads|)
    && (forall m :: a <= m <= i ==> !r[m].threads[t].pc.Idle?)
    && r[i + 1].threads[t].pc.Idle?
  }

  lemma RunMoves(r: seq<State>, t: Tid, m: nat)
    requires Run(r) && m + 1 < |r| && t < |r[m].threads|
    ensures t < |r[m + 1].threads| && (r[m + 1].threads[t] == r[m].threads[t] || Step(r[m], r[m + 1], t))
  {
    hide Step;
    ByItself(r[m], r[m + 1], t);
  }

  lemma {:induction false} InCall(r: seq<State>, t: Tid, q: Qid, op: Op, a: nat, i: nat, m: nat)
    requires Run(r) && CallRuns(r, t, a, i) && r[a].threads[t].pc == TestHead(q, op) && a <= m <= i
    ensures Doing(r[m].threads[t].pc, q, op)
    decreases m
  {
    hide Run, Step;
    if a < m {
      InCall(r, t, q, op, a, i, m - 1);
      RunMoves(r, t, m - 1);
      if Step(r[m - 1], r[m], t) { DoingStep(r[m - 1], r[m], t, q, op); }
    }
  }

  // ---------- appends ----------

  /** The step from state `j` puts `b` behind the content of `d`, which was or was not empty. */
  predicate Puts(r: seq<State>, j: nat, t: Tid, d: Qid, b: seq<Nid>, nonEmpty: bool) {
    && j + 1 < |r| && d < |r[j].queues| && d < |r[j + 1].queues|
    && r[j + 1].queues[d].content == r[j].queues[d].content + b && (nonEmpty <==> r[j].queues[d].content != [])
    && t < |r[j].threads| && r[j].threads[t].pc.Append? && r[j].threads[t].pc.q == d && r[j].threads[t].batch == b
  }

  lemma AppendPuts(r: seq<State>, j: nat, t: Tid)
    requires Run(r) && j + 1 < |r| && AppendXchg(r[j], r[j + 1], t)
    ensures r[j + 1].threads[t].pc.Link?
    ensures Puts(r, j, t, r[j].threads[t].pc.q, r[j].threads[t].batch, r[j + 1].threads[t].pc.nonEmpty)
  {
    AppendsInOrder(r, j, t);
  }

  lemma LinkStarts(s: State, s': State, t: Tid)
    requires Step(s, s', t) && t < |s.threads| && t < |s'.threads| && s'.threads[t].pc.Link?
    ensures AppendXchg(s, s', t)
  {
    hide Rehome, Next;
  }

  /** A thread about to link has exchanged the tail, and has been about to link since. */
  lemma {:induction false} LinkSince(r: seq<State>, t: Tid, m: nat)
    requires Run(r) && m < |r| && t < |r[m].threads| && r[m].threads[t].pc.Link?
    ensures exists j :: 0 <= j < m && LinkFrom(r, t, j, m)
    decreases m
  {
    hide Step, Moves;
    if m > 0 {
      StillThere(r, t, m - 1);
      RunMoves(r, t, m - 1);
      if r[m].threads[t] == r[m - 1].threads[t] {
        LinkSince(r, t, m - 1);
        var j :| 0 <= j < m - 1 && LinkFrom(r, t, j, m - 1);
        assert LinkFrom(r, t, j, m);
      } else {
        LinkStarts(r[m - 1], r[m], t);
        assert LinkFrom(r, t, m - 1, m);
      }
    }
  }

  /** The step from state `j` is the exchange, and from then to state `m` the thread is about to link. */
  predicate LinkFrom(r: seq<State>, t: Tid, j: nat, m: nat) {
    && j < m < |r| && t < |r[m].threads| && AppendXchg(r[j], r[j + 1], t)
    && forall l :: j < l <= m ==> t < |r[l].threads| && r[l].threads[t] == r[m].threads[t]
  }

  lemma StillThere(r: seq<State>, t: Tid, m: nat)
    requires Run(r) && m + 1 < |r| && t < |r[m + 1].threads|
    ensures t < |r[m].threads|
  {
    hide Step;
    var u :| Step(r[m], r[m + 1], u);
    StepMoves(r[m], r[m + 1], u);
  }

  /**
   An append says that the queue was not empty exactly if it was not when the tail
   was exchanged.
   */
  lemma AppendedTells(r: seq<State>, i: nat, t: Tid, b: bool)
    requires Returns(r, i, t, Appended(b))
    ensures exists j :: 0 <= j < i && LinkFrom(r, t, j, i)
                        && Puts(r, j, t, r[j].threads[t].pc.q, r[j].threads[t].batch, b)
  {
    hide Run, Step;
    ReturnStep(r[i], r[i + 1], t, Appended(b));
    LinkSince(r, t, i);
    var j :| 0 <= j < i && LinkFrom(r, t, j, i);
    AppendPuts(r, j, t);
  }

  lemma AppendStep(s: State, s': State, t: Tid)
    requires Step(s, s', t) && t < |s.threads| && t < |s'.threads|
    ensures s.threads[t].pc.Append? ==> AppendXchg(s, s', t)
    ensures s.threads[t].pc.Link? ==> s'.threads[t].pc == Idle(Appended(s.threads[t].pc.nonEmpty))
  {
    hide Rehome, Next;
  }

  /** A thread that has nodes to append is about to exchange the tail, or has and is about to link. */
  lemma {:induction false} Appending(r: seq<State>, t: Tid, a: nat, i: nat, m: nat)
    requires Run(r) && CallRuns(r, t, a, i) && r[a].threads[t].pc.Append? && a <= m <= i
    ensures var v := r[a].threads[t];
            || r[m].threads[t] == v
            || (r[m].threads[t].pc.Link?
                && exists j :: a <= j < m && Puts(r, j, t, v.pc.q, v.batch, r[m].threads[t].pc.nonEmpty))
    decreases m
  {
    hide Run, Step, Puts;
    if a < m {
      Appending(r, t, a, i, m - 1);
      RunMoves(r, t, m - 1);
      if r[m].threads[t] != r[m - 1].threads[t] {
        AppendStep(r[m - 1], r[m], t);
        AppendPuts(r, m - 1, t);
      }
    }
  }

  /** What is to be appended is, and the answer says whether there was anything before it. */
  lemma AppendCall(r: seq<State>, t: Tid, a: nat, i: nat)
    requires Run(r) && CallRuns(r, t, a, i) && r[a].threads[t].pc.Append?
    ensures var v, ret := r[a].threads[t], r[i + 1].threads[t].pc.ret;
            ret.Appended? && exists j :: a <= j < i && Puts(r, j, t, v.pc.q, v.batch, ret.wasNonEmpty)
  {
    hide Run, Step, Puts;
    Appending(r, t, a, i, i);
    RunMoves(r, t, i);
    AppendStep(r[i], r[i + 1], t);
  }

  /**
   An enqueue puts its node behind the content of its queue, and says whether
   that was empty.
   */
  lemma EnqueueAnswers(r: seq<State>, t: Tid, q: Qid, n: Nid, a: nat, i: nat)
    requires Run(r) && CallRuns(r, t, a, i) && r[a].threads[t] == Thread(Append(q, n, n), [n])
    ensures var ret := r[i + 1].threads[t].pc.ret;
            ret.Appended? && exists j :: a <= j < i && Puts(r, j, t, q, [n], ret.wasNonEmpty)
  {
    hide Run, Puts;
    AppendCall(r, t, a, i);
  }

  // ---------- splices ----------

  /** The step from state `m` takes all of the content of `q`, to append it to `d`. */
  predicate Took(r: seq<State>, m: nat, t: Tid, q: Qid, d: Qid) {
    && m + 1 < |r| && q < |r[m].queues| && q < |r[m + 1].queues| && t < |r[m + 1].threads|
    && r[m].queues[q].content != [] && r[m + 1].queues[q].content == []
    && var v := r[m + 1].threads[t]; v.pc.Append? && v.pc.q == d && v.batch == r[m].queues[q].content
  }

  lemma TakeStep(r: seq<State>, m: nat, t: Tid, q: Qid, d: Qid)
    requires Run(r) && m + 1 < |r| && t < |r[m].threads| && t < |r[m + 1].threads| && Step(r[m], r[m + 1], t)
    requires Doing(r[m].threads[t].pc, q, Splice(d)) && r[m + 1].threads[t].pc.Append?
    ensures Took(r, m, t, q, d)
  {
    SpliceMoves(r[m], r[m + 1], t, q, d);
    hide Step;
    SpliceTakesAll(r, m, t);
  }

  lemma SpliceMoves(s: State, s': State, t: Tid, q: Qid, d: Qid)
    requires Step(s, s', t) && t < |s.threads| && t < |s'.threads| && Doing(s.threads[t].pc, q, Splice(d))
    ensures s'.threads[t].pc.Append? ==> XchgTail(s, s', t)
    ensures s'.threads[t].pc.Link? ==> s.threads[t].pc.Append?
    ensures s'.threads[t].pc.Idle? ==> s.threads[t].pc.Link? || s'.threads[t].pc.ret in {Empty, WouldBlock}
  {
    hide Rehome, Next;
  }

  /** A splice that is appending has taken the content of its source. */
  lemma {:induction false} TookSince(r: seq<State>, t: Tid, q: Qid, d: Qid, a: nat, i: nat, m: nat)
    requires Run(r) && CallRuns(r, t, a, i) && r[a].threads[t].pc == TestHead(q, Splice(d)) && a <= m <= i
    requires r[m].threads[t].pc.Append? || r[m].threads[t].pc.Link?
    ensures exists e :: a <= e < m && Took(r, e, t, q, d)
    decreases m
  {
    hide Run, Step, Took;
    if a < m {
      InCall(r, t, q, Splice(d), a, i, m - 1);
      RunMoves(r, t, m - 1);
      if r[m - 1].threads[t].pc.Append? || r[m - 1].threads[t].pc.Link? {
        TookSince(r, t, q, d, a, i, m - 1);
      } else {
        SpliceMoves(r[m - 1], r[m], t, q, d);
        TakeStep(r, m - 1, t, q, d);
      }
    }
  }

  /** The splice takes the content of `q` in the step from `e` and puts it behind that of `d` in the step from `j`. */
  predicate Spliced(r: seq<State>, t: Tid, q: Qid, d: Qid, e: nat, j: nat, nonEmpty: bool) {
    Took(r, e, t, q, d) && e < j && Puts(r, j, t, d, r[e].queues[q].content, nonEmpty)
  }

  /**
   A splice moves the whole content of its source behind that of its destination,
   and says whether that was empty; or it says that the source is empty, or that
   it would block, and changes nothing in that step.
   */
  lemma SpliceAnswers(r: seq<State>, t: Tid, q: Qid, d: Qid, a: nat, i: nat)
    requires Run(r) && CallRuns(r, t, a, i) && r[a].threads[t].pc == TestHead(q, Splice(d))
    ensures match r[i + 1].threads[t].pc.ret
            case Appended(b) => exists e, j :: a <= e < j < i && Spliced(r, t, q, d, e, j, b)
            case Empty => q < |r[i].queues| && r[i].queues[q].content == [] && SameContents(r[i], r[i + 1])
            case WouldBlock => q < |r[i].queues| && r[i].queues[q].content != [] && SameContents(r[i], r[i + 1])
            case _ => false
  {
    hide Run, Step, Puts, Took;
    InCall(r, t, q, Splice(d), a, i, i);
    RunMoves(r, t, i);
    SpliceMoves(r[i], r[i + 1], t, q, d);
    var ret := r[i + 1].threads[t].pc.ret;
    if r[i].threads[t].pc.Link? {
      TookSince(r, t, q, d, a, i, i);
      var e :| a <= e < i && Took(r, e, t, q, d);
      TookAppends(r, e, t, q, d);
      AppendCall(r, t, e + 1, i);
      var j :| e + 1 <= j < i && Puts(r, j, t, d, r[e].queues[q].content, ret.wasNonEmpty);
      assert Spliced(r, t, q, d, e, j, ret.wasNonEmpty);
    } else {
      assert Returns(r, i, t, ret);
      if ret == Empty { EmptyMeansEmpty(r, i, t); } else { WouldBlockChangesNothing(r, i, t); }
    }
  }

  lemma TookAppends(r: seq<State>, e: nat, t: Tid, q: Qid, d: Qid)
    requires Took(r, e, t, q, d)
    ensures e + 1 < |r| && t < |r[e + 1].threads| && q < |r[e].queues|
    ensures var v := r[e + 1].threads[t]; v.pc.Append? && v.pc.q == d && v.batch == r[e].queues[q].content
  {
  }

  // ---------- dequeues and emptiness tests ----------

  lemma DequeueMoves(s: State, s': State, t: Tid, q: Qid)
    requires Step(s, s', t) && t < |s.threads| && t < |s'.threads| && Doing(s.threads[t].pc, q, Dequeue)
    ensures s'.threads[t].pc.Idle? ==>
              s'.threads[t].pc.ret == Empty || s'.threads[t].pc.ret == WouldBlock || s'.threads[t].pc.ret.Got?
  {
    hide Rehome, Next;
  }

  /**
   A dequeue returns the oldest node of its queue and takes just that one off, and
   says LAST exactly if it empties the queue; or it says that the queue is empty,
   or that it would block, and changes nothing in that step.
   */
  lemma DequeueAnswers(r: seq<State>, t: Tid, q: Qid, a: nat, i: nat)
    requires Run(r) && CallRuns(r, t, a, i) && r[a].threads[t].pc == TestHead(q, Dequeue)
    ensures q < |r[i].queues|
    ensures match r[i + 1].threads[t].pc.ret
            case Got(n, last) => TakesFirst(r[i], r[i + 1], q, n, last)
            case Empty => r[i].queues[q].content == [] && SameContents(r[i], r[i + 1])
            case WouldBlock => r[i].queues[q].content != [] && SameContents(r[i], r[i + 1])
            case _ => false
  {
    hide Run, Step, SameContents;
    InCall(r, t, q, Dequeue, a, i, i);
    RunMoves(r, t, i);
    DequeueMoves(r[i], r[i + 1], t, q);
    var ret := r[i + 1].threads[t].pc.ret;
    assert Returns(r, i, t, ret);
    if ret == Empty {
      EmptyMeansEmpty(r, i, t);
    } else if ret == WouldBlock {
      WouldBlockChangesNothing(r, i, t);
    } else {
      RunInv(r, i);
      hide Inv;
      GotFrom(r[i], r[i + 1], t, ret, q);
    }
  }

  lemma GotFrom(s: State, s': State, t: Tid, ret: Ret, q: Qid)
    requires Inv(s) && Step(s, s', t) && t < |s.threads| && t < |s'.threads| && Doing(s.threads[t].pc, q, Dequeue)
    requires s'.threads[t].pc == Idle(ret) && ret.Got?
    ensures q < |s.queues| && TakesFirst(s, s', q, ret.node, ret.last)
  {
    assert ThreadInv(s, t) && (q < |s.queues| ==> QueueInv(s, q));
    hide Inv;
    ReturnStep(s, s', t, ret);
    hide Step, QueueInv;
    assert s.threads[t].pc.q == q;
    DequeueStep(s, s', t);
  }

  lemma CheckMoves(s: State, s': State, t: Tid, q: Qid)
    requires Inv(s) && Step(s, s', t) && t < |s.threads| && t < |s'.threads| && Doing(s.threads[t].pc, q, Check)
    requires s'.threads[t].pc.Idle?
    ensures q < |s.queues| && s'.threads[t].pc.ret == (if s.queues[q].content == [] then Empty else NotEmpty)
    ensures s'.queues == s.queues
  {
    hide Rehome;
    assert ThreadInv(s, t);
    assert QueueInv(s, q);
    hide Inv;
  }

  /** `cds_wfcq_empty` says truly whether the queue is empty, as of its last read, and changes nothing. */
  lemma CheckAnswers(r: seq<State>, t: Tid, q: Qid, a: nat, i: nat)
    requires Run(r) && CallRuns(r, t, a, i) && r[a].threads[t].pc == TestHead(q, Check)
    ensures q < |r[i].queues| && r[i + 1].queues == r[i].queues
    ensures r[i + 1].threads[t].pc.ret == if r[i].queues[q].content == [] then Empty else NotEmpty
  {
    hide Run, Step, Inv;
    InCall(r, t, q, Check, a, i, i);
    RunMoves(r, t, i);
    RunInv(r, i);
    CheckMoves(r[i], r[i + 1], t, q);
  }
}
