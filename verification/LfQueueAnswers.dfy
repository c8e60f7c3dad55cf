/**
 What the operations of the lock-free queue answer, and that nothing else they
 do changes what is queued.
 */
module LfQueueAnswers {
  import opened LfQueue

  // ---------- what each step does to the queue ----------

  /** The operation of `t` returns `ret`. */
  predicate Returns(s: State, s': State, t: Tid, ret: Ret) {
    t < |s.pcs| && t < |s'.pcs| && !s.pcs[t].Idle? && s'.pcs[t] == Idle(ret)
  }

  /** The enqueue of `n` by `t` gets past its link. */
  predicate Links(s: State, s': State, t: Tid, n: Nid) {
    && t < |s.pcs| && t < |s'.pcs|
    && s.pcs[t].LinkNode? && s.pcs[t].caller.User? && s.pcs[t].node == n && s'.pcs[t].MoveTail? && s'.pcs[t].done
  }

  predicate Sized(s: State) { s.taken <= |s.order| }

  predicate Same(s: State, s': State) { Sized(s) && Sized(s') && Contents(s') == Contents(s) }

  predicate Appends(s: State, s': State, n: Nid) { Sized(s) && Sized(s') && Contents(s') == Contents(s) + [n] }

  predicate TakesFirst(s: State, s': State, n: Nid) {
    && Sized(s) && Sized(s')
    && Contents(s) != [] && Contents(s)[0] == n && Contents(s') == Contents(s)[1..]
  }

  ghost predicate Effect(s: State, s': State, t: Tid)
    requires t < |s.pcs|
  {
    && t < |s'.pcs|
    && (forall n :: Links(s, s', t, n) ==> Appends(s, s', n))
    && (forall n :: Returns(s, s', t, Got(n)) ==> TakesFirst(s, s', n))
    && ((forall n :: !Links(s, s', t, n) && !Returns(s, s', t, Got(n))) ==> Same(s, s'))
  }

  lemma RealOne(e: Entry)
    ensures Real([e]) == if e.dummy then [] else [e.node]
  {
    assert [e][..0] == [];
  }

  /** Linking puts a user's node behind what is queued, and a dummy nowhere. */
  lemma LinkContents(s: State, s': State, e: Entry)
    requires Sized(s) && s'.taken == s.taken && s'.order == s.order + [e]
    ensures Sized(s') && Contents(s') == Contents(s) + if e.dummy then [] else [e.node]
  {
    assert s'.order[s.taken..] == s.order[s.taken..] + [e];
    RealConcat(s.order[s.taken..], [e]);
    RealOne(e);
  }

  lemma CasNextEffect(s: State, s': State, t: Tid)
    requires Inv(s) && CasNext(s, s', t)
    ensures Effect(s, s', t)
  {
    assert PcInv(s, t) && Sized(s);
    hide Inv, Contents;
    var pc := s.pcs[t];
    if NextOf(s, pc.tail).Null? {
      LinkContents(s, s', Entry(pc.node, s.nodes[pc.node].dummy));
      assert Links(s, s', t, pc.node) <==> pc.caller.User?;
    } else {
      SameOrder(s, s');
    }
  }

  lemma SameOrder(s: State, s': State)
    requires Sized(s) && s'.order == s.order && s'.taken == s.taken
    ensures Same(s, s')
  {
  }

  /** Passing a node takes it off the front if it is real, and a dummy changes nothing. */
  lemma PassContents(s: State, s': State)
    requires s.taken < |s.order| && s'.taken == s.taken + 1 && s'.order == s.order
    ensures var e := s.order[s.taken]; Contents(s) == (if e.dummy then [] else [e.node]) + Contents(s')
  {
    var e := s.order[s.taken];
    assert s.order[s.taken..] == [e] + s.order[s.taken + 1..];
    RealConcat([e], s.order[s.taken + 1..]);
    RealOne(e);
  }

  lemma CasHeadEffect(s: State, s': State, t: Tid)
    requires Inv(s) && CasHead(s, s', t)
    ensures Effect(s, s', t)
  {
    HeadEntry(s);
    hide Inv, Contents;
    if s.head == s.pcs[t].head {
      PassContents(s, s');
      assert Returns(s, s', t, Got(s.head)) <==> !s.nodes[s.head].dummy;
    } else {
      SameOrder(s, s');
    }
  }

  lemma HeadEntry(s: State)
    requires Inv(s)
    ensures s.taken < |s.order| && s.head < |s.nodes| && s.order[s.taken] == Entry(s.head, s.nodes[s.head].dummy)
  {
    assert LinkedAt(s, s.head, s.taken) && NodeInv(s, s.head);
  }

  lemma OtherEffect(s: State, s': State, t: Tid, n: Nid)
    requires Sized(s)
    requires StartEnqueue(s, s', t, n) || ReadTail(s, s', t) || CasTail(s, s', t) || StartDequeue(s, s', t)
             || ReadHead(s, s', t) || ReadNext(s, s', t, n) || ReadAgain(s, s', t)
    ensures Effect(s, s', t)
  {
    hide Contents;
    SameOrder(s, s');
  }

  lemma StepEffect(s: State, s': State, t: Tid, n: Nid)
    requires Inv(s) && Step(s, s', t, n)
    ensures t < |s.pcs| && Effect(s, s', t)
  {
    HeadEntry(s);
    hide Inv, Effect, StartEnqueue, ReadTail, CasTail, StartDequeue, ReadHead, ReadNext, ReadAgain;
    assert t < |s.pcs| by { StepThread(s, s', t, n); }
    if CasNext(s, s', t) { CasNextEffect(s, s', t); }
    else if CasHead(s, s', t) { CasHeadEffect(s, s', t); }
    else { OtherEffect(s, s', t, n); }
  }

  lemma StepThread(s: State, s': State, t: Tid, n: Nid)
    requires Step(s, s', t, n)
    ensures t < |s.pcs| && s'.pcs == s.pcs[t := s'.pcs[t]]
  {
  }

  /** A thread moves only by its own steps, and nobody else's change what it is doing. */
  lemma ByItself(s: State, s': State, t: Tid)
    requires Moves(s, s') && t < |s.pcs|
    ensures t < |s'.pcs| && (s'.pcs[t] == s.pcs[t] || exists n :: Step(s, s', t, n))
  {
    hide Step;
    if u, n :| Step(s, s', u, n) {
      StepThread(s, s', u, n);
    }
  }

  // ---------- dequeues ----------

  /**
   A dequeue that returns a node returns the oldest real node that is queued, and
   takes just that one off. The step may not follow a grace period begun for the
   node under the tail.
   */
  lemma DequeuesOldest(r: seq<State>, i: nat, t: Tid, n: Nid)
    requires Run(r) && i + 1 < |r| && !r[i].early && Returns(r[i], r[i + 1], t, Got(n))
    ensures TakesFirst(r[i], r[i + 1], n)
  {
    hide Inv, Moves, Step, Contents;
    RunInv(r, i);
    assert Moves(r[i], r[i + 1]);
    ByItself(r[i], r[i + 1], t);
    var m :| Step(r[i], r[i + 1], t, m);
    StepEffect(r[i], r[i + 1], t, m);
  }

  /** A dequeue that finds nothing does so at a moment when no real node is queued, and changes nothing. */
  lemma EmptyMeansEmpty(r: seq<State>, i: nat, t: Tid)
    requires Run(r) && i + 1 < |r| && !r[i].early && Returns(r[i], r[i + 1], t, Empty)
    ensures Same(r[i], r[i + 1]) && Contents(r[i]) == []
  {
    hide Inv, Moves;
    RunInv(r, i);
    assert Moves(r[i], r[i + 1]);
    ByItself(r[i], r[i + 1], t);
    var n :| Step(r[i], r[i + 1], t, n);
    EmptyStep(r[i], r[i + 1], t, n);
  }

  lemma EmptyStep(s: State, s': State, t: Tid, n: Nid)
    requires Inv(s) && Step(s, s', t, n) && Returns(s, s', t, Empty)
    ensures Same(s, s') && Contents(s) == []
  {
    var h := s.pcs[t].head;
    assert PcInv(s, t) && NodeInv(s, h);
    assert s.taken == |s.order| - 1 && h == s.head;
    assert s.order[s.taken..] == [Entry(h, true)];
    RealOne(Entry(h, true));
  }
  // ---------- enqueues ----------

  /** An enqueue of `n` by `t` is at its start in state `a` and returns in the step from state `i`. */
  predicate EnqueueRuns(r: seq<State>, t: Tid, n: Nid, a: nat, i: nat) {
    && a <= i && i + 1 < |r|
    && (forall m :: a <= m <= i + 1 ==> t < |r[m].pcs|)
    && r[a].pcs[t] == LoadTail(n, User)
    && (forall m :: a <= m <= i ==> !r[m].pcs[t].Idle?)
    && r[i + 1].pcs[t].Idle?
  }

  predicate Enqueuing(pc: Pc, n: Nid) {
    (pc.LoadTail? || pc.LinkNode? || pc.MoveTail?) && pc.node == n && pc.caller.User?
  }

  predicate Done(pc: Pc) { pc.MoveTail? && pc.done }

  lemma EnqueueStep(s: State, s': State, t: Tid, k: Nid, n: Nid)
    requires Step(s, s', t, k) && t < |s.pcs| && Enqueuing(s.pcs[t], n)
    ensures t < |s'.pcs| && (Enqueuing(s'.pcs[t], n) || (s'.pcs[t] == Idle(Enqueued) && Done(s.pcs[t])))
    ensures Done(s'.pcs[t]) ==> Links(s, s', t, n)
    ensures Done(s.pcs[t]) ==> s'.pcs[t].Idle?
  {
  }

  /** In each step of an enqueue its thread stays, or takes a step of the enqueue. */
  lemma EnqueueMoves(r: seq<State>, t: Tid, n: Nid, a: nat, i: nat, m: nat)
    requires Run(r) && EnqueueRuns(r, t, n, a, i) && a <= m <= i && Enqueuing(r[m].pcs[t], n)
    ensures var pc, pc' := r[m].pcs[t], r[m + 1].pcs[t];
            || pc' == pc
            || ((Enqueuing(pc', n) || (pc' == Idle(Enqueued) && Done(pc))) && (Done(pc) ==> pc'.Idle?)
                && (Done(pc') ==> Links(r[m], r[m + 1], t, n)))
  {
    hide Moves, Step;
    assert Moves(r[m], r[m + 1]);
    ByItself(r[m], r[m + 1], t);
    var s, s' := r[m], r[m + 1];
    if k :| Step(s, s', t, k) { EnqueueStep(s, s', t, k, n); }
  }

  lemma {:induction false} InEnqueue(r: seq<State>, t: Tid, n: Nid, a: nat, i: nat, m: nat)
    requires Run(r) && EnqueueRuns(r, t, n, a, i) && a <= m <= i
    ensures Enqueuing(r[m].pcs[t], n)
    decreases m
  {
    hide Run;
    if a < m {
      InEnqueue(r, t, n, a, i, m - 1);
      EnqueueMoves(r, t, n, a, i, m - 1);
    }
  }

  /** Once the node is linked the enqueue only has to move the tail. */
  lemma {:induction false} DoneStays(r: seq<State>, t: Tid, n: Nid, a: nat, i: nat, m: nat, l: nat)
    requires Run(r) && EnqueueRuns(r, t, n, a, i) && a <= m <= l <= i && Done(r[m].pcs[t])
    ensures Done(r[l].pcs[t])
    decreases l
  {
    hide Run;
    if m < l {
      DoneStays(r, t, n, a, i, m, l - 1);
      InEnqueue(r, t, n, a, i, l - 1);
      EnqueueMoves(r, t, n, a, i, l - 1);
    }
  }

  /** The enqueue links its node in the step from state `j`. */
  predicate LinksAt(r: seq<State>, j: nat, t: Tid, n: Nid) { j + 1 < |r| && Links(r[j], r[j + 1], t, n) }

  lemma {:induction false} DoneSince(r: seq<State>, t: Tid, n: Nid, a: nat, i: nat, m: nat)
    requires Run(r) && EnqueueRuns(r, t, n, a, i) && a <= m <= i && Done(r[m].pcs[t])
    ensures exists j :: a <= j < m && LinksAt(r, j, t, n)
    decreases m
  {
    hide Run, Links;
    if a < m {
      InEnqueue(r, t, n, a, i, m - 1);
      EnqueueMoves(r, t, n, a, i, m - 1);
      if r[m].pcs[t] == r[m - 1].pcs[t] {
        DoneSince(r, t, n, a, i, m - 1);
      } else {
        assert LinksAt(r, m - 1, t, n);
      }
    }
  }

  lemma {:induction false} NotEarlyBefore(r: seq<State>, m: nat, i: nat)
    requires Run(r) && m <= i < |r| && !r[i].early
    ensures !r[m].early
    decreases i
  {
    hide Moves;
    if m < i {
      assert Moves(r[i - 1], r[i - 1 + 1]);
      if r[i - 1].early { EarlyStays(r[i - 1], r[i]); }
      NotEarlyBefore(r, m, i - 1);
    }
  }

  lemma LinkAppends(r: seq<State>, j: nat, t: Tid, n: Nid)
    requires Run(r) && j + 1 < |r| && !r[j].early && Links(r[j], r[j + 1], t, n)
    ensures Appends(r[j], r[j + 1], n)
  {
    hide Inv, Moves, Step, Contents;
    RunInv(r, j);
    assert Moves(r[j], r[j + 1]);
    ByItself(r[j], r[j + 1], t);
    var m :| Step(r[j], r[j + 1], t, m);
    StepEffect(r[j], r[j + 1], t, m);
  }

  /** Any other step of an enqueue leaves the queue as it is. */
  lemma OtherStepKeeps(r: seq<State>, m: nat, t: Tid, n: Nid)
    requires Run(r) && m + 1 < |r| && !r[m].early && t < |r[m].pcs| && Enqueuing(r[m].pcs[t], n)
    requires t < |r[m + 1].pcs| && r[m + 1].pcs[t] != r[m].pcs[t] && !Links(r[m], r[m + 1], t, n)
    ensures Same(r[m], r[m + 1])
  {
    hide Inv, Moves, Step, Contents;
    RunInv(r, m);
    assert Moves(r[m], r[m + 1]);
    ByItself(r[m], r[m + 1], t);
    var k :| Step(r[m], r[m + 1], t, k);
    StepEffect(r[m], r[m + 1], t, k);
    EnqueueStep(r[m], r[m + 1], t, k, n);
  }

  lemma LinksOnce(r: seq<State>, t: Tid, n: Nid, a: nat, i: nat, j: nat, m: nat)
    requires Run(r) && EnqueueRuns(r, t, n, a, i) && !r[i].early && a <= j < i && Links(r[j], r[j + 1], t, n)
    requires a <= m <= i && m != j && r[m + 1].pcs[t] != r[m].pcs[t]
    ensures Same(r[m], r[m + 1])
  {
    hide Run, Same;
    InEnqueue(r, t, n, a, i, m);
    NotEarlyBefore(r, m, i);
    if m < j {
      if Links(r[m], r[m + 1], t, n) { DoneStays(r, t, n, a, i, m + 1, j); }
    } else {
      DoneStays(r, t, n, a, i, j + 1, m);
    }
    OtherStepKeeps(r, m, t, n);
  }

  /** Step `j` of the enqueue puts `n` behind what is queued, and no other step of it changes the queue. */
  ghost predicate AppendsAt(r: seq<State>, t: Tid, n: Nid, a: nat, i: nat, j: nat)
    requires EnqueueRuns(r, t, n, a, i) && a <= j <= i
  {
    && Appends(r[j], r[j + 1], n) && r[j + 1].pcs[t] != r[j].pcs[t]
    && forall m, m' :: a <= m <= i && m != j && m' == m + 1 && r[m'].pcs[t] != r[m].pcs[t] ==> Same(r[m], r[m'])
  }

  /** An enqueue that returns has put its node, once, behind what was queued. */
  lemma EnqueueAppends(r: seq<State>, t: Tid, n: Nid, a: nat, i: nat)
    requires Run(r) && EnqueueRuns(r, t, n, a, i) && !r[i].early
    ensures r[i + 1].pcs[t] == Idle(Enqueued) && exists j :: a <= j <= i && AppendsAt(r, t, n, a, i, j)
  {
    hide Run, Same, Appends;
    InEnqueue(r, t, n, a, i, i);
    EnqueueMoves(r, t, n, a, i, i);
    DoneSince(r, t, n, a, i, i);
    var j :| a <= j < i && LinksAt(r, j, t, n);
    NotEarlyBefore(r, j, i);
    LinkAppends(r, j, t, n);
    forall m, m' | a <= m <= i && m != j && m' == m + 1 && r[m'].pcs[t] != r[m].pcs[t]
      ensures Same(r[m], r[m'])
    {
      LinksOnce(r, t, n, a, i, j, m);
    }
    assert AppendsAt(r, t, n, a, i, j);
  }

  // ---------- nothing else ----------

  /** An enqueue links its node. */
  ghost predicate EnqueueActs(s: State, s': State) { exists t, n :: Links(s, s', t, n) && Appends(s, s', n) }

  /** A dequeue returns a node. */
  ghost predicate DequeueActs(s: State, s': State) { exists t, n :: Returns(s, s', t, Got(n)) && TakesFirst(s, s', n) }

  /** What is queued changes only when an enqueue links its node or a dequeue returns one. */
  lemma OnlyOperationsChange(r: seq<State>, i: nat)
    requires Run(r) && i + 1 < |r| && !r[i].early
    ensures Same(r[i], r[i + 1]) || EnqueueActs(r[i], r[i + 1]) || DequeueActs(r[i], r[i + 1])
  {
    hide Inv, Contents, Step;
    RunInv(r, i);
    var s, s' := r[i], r[i + 1];
    assert Moves(s, s');
    if t, k :| Step(s, s', t, k) {
      StepEffect(s, s', t, k);
    } else {
      HeadEntry(s);
      SameOrder(s, s');
    }
  }
}
