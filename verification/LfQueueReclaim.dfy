/**
 Reclaiming the nodes of the lock-free queue. A grace period protects a node only
 if the tail has left it when the grace period begins; the library leaves that
 to chance, because the head may overtake the tail.
 */
module LfQueueReclaim {
  import opened LfQueue

  // ---------- exactly when a passed node can be met again ----------

  /** Some steps from any state on. */
  ghost predicate Goes(f: seq<State>) {
    |f| > 0 && forall i :: 0 <= i < |f| - 1 ==> Moves(f[i], f[i + 1])
  }

  function Last(f: seq<State>): State
    requires |f| > 0
  {
    f[|f| - 1]
  }

  /** The thread has a pointer to the node at position `k`, which is not reclaimed. */
  predicate Meets(s: State, t: Tid, k: nat) {
    t < |s.pcs| && k < |s.order| && k !in s.gone && s.order[k].node in Held(s.pcs[t])
  }

  ghost predicate CanMeet(s: State, t: Tid, k: nat) {
    exists f :: Goes(f) && f[0] == s && !Last(f).early && Meets(Last(f), t, k)
  }

  lemma AheadStep(s: State, s': State, t: Tid, k: nat)
    requires Inv(s) && Moves(s, s') && !s'.early && Past(s, k) && t < |s.pcs| && Ahead(s, t, k)
    ensures |s'.pcs| == |s.pcs| && Past(s', k) && Ahead(s', t, k)
  {
    if u, n :| Step(s, s', u, n) {
      ThreadInv(s, s', u, n);
      hide Step, Inv;
      if u != t { AheadKept(s, s', t, k); }
    } else if j :| Retire(s, s', j) {
    } else {
      var j, junk :| Free(s, s', j, junk);
      hide Moves;
      FreeAhead(s, s', j, junk, t, k);
    }
  }

  lemma FreeAhead(s: State, s': State, j: nat, junk: Ptr, t: Tid, k: nat)
    requires Inv(s) && Free(s, s', j, junk) && Past(s, k) && t < |s.pcs| && Ahead(s, t, k)
    ensures Past(s', k) && Ahead(s', t, k)
  {
    assert LinkedAt(s, s.order[j].node, j) && s.tail != s.order[j].node;
    forall p | p in Held(s.pcs[t])
      ensures IsLinked(s', p) && k < s'.nodes[p].pos
    {
      FreeHeld(s, s', j, junk, t, p);
    }
  }

  lemma {:induction false} StaysAhead(f: seq<State>, i: nat, t: Tid, k: nat)
    requires Goes(f) && i < |f| && !f[i].early && Inv(f[0])
    requires t < |f[0].pcs| && Past(f[0], k) && Ahead(f[0], t, k)
    ensures Inv(f[i]) && t < |f[i].pcs| && Past(f[i], k) && Ahead(f[i], t, k)
  {
    hide Inv, Moves, Past, Ahead;
    if i > 0 {
      if f[i - 1].early { EarlyStays(f[i - 1], f[i]); }
      StaysAhead(f, i - 1, t, k);
      NextInv(f[i - 1], f[i]);
      AheadStep(f[i - 1], f[i], t, k);
    }
  }

  lemma AheadNeverMeets(s: State, t: Tid, k: nat)
    requires Inv(s) && t < |s.pcs| && Ahead(s, t, k)
    ensures !Meets(s, t, k)
  {
  }

  /** Two steps of its next enqueue give an idle thread a pointer to whatever the tail points to. */
  lemma MeetsTail(s: State, t: Tid, k: nat)
    requires !s.early && t < |s.pcs| && s.pcs[t].Idle?
    requires k < |s.order| && k !in s.gone && s.tail == s.order[k].node
    ensures CanMeet(s, t, k)
  {
    var n := |s.nodes|;
    var s1 := Enqueue(s, t, n, false, User);
    var s2 := Go(s1, t, LinkNode(n, User, s.tail));
    assert StartEnqueue(s, s1, t, n) && ReadTail(s1, s2, t);
    assert Step(s, s1, t, n) && Step(s1, s2, t, n);
    var f := [s, s1, s2];
    assert Goes(f) && f[0] == s && Last(f) == s2;
    assert Meets(s2, t, k);
  }

  /**
   In every state of every run, for every node the head has passed: a thread that
   has no pointer now, and that a grace period beginning now does not wait for,
   can come to hold the node exactly if the tail still points to it.
   */
  lemma MetAgainIff(r: seq<State>, i: nat, t: Tid, k: nat)
    requires Run(r) && i < |r| && !r[i].early && t < |r[i].pcs| && r[i].pcs[t].Idle?
    requires k < r[i].taken && k < |r[i].order| && k !in r[i].gone
    ensures CanMeet(r[i], t, k) <==> r[i].tail == r[i].order[k].node
  {
    var s := r[i];
    RunInv(r, i);
    if s.tail == s.order[k].node {
      MeetsTail(s, t, k);
    } else {
      PassedIsPast(s, k);
      assert Ahead(s, t, k);
      hide Inv, Past, Ahead, Meets, Goes;
      forall f | Goes(f) && f[0] == s && !Last(f).early
        ensures !Meets(Last(f), t, k)
      {
        StaysAhead(f, |f| - 1, t, k);
        AheadNeverMeets(Last(f), t, k);
      }
    }
  }

  // ---------- a node in use is reclaimed ----------

  ghost predicate Reachable(s: State) { exists r :: Run(r) && Last(r) == s }

  lemma Extend(s: State, s': State)
    requires Reachable(s) && Moves(s, s')
    ensures Reachable(s')
  {
    var r :| Run(r) && Last(r) == s;
    assert Run(r + [s']) && Last(r + [s']) == s';
  }

  lemma ByThread(s: State, s': State, t: Tid, n: Nid)
    requires Reachable(s) && Step(s, s', t, n)
    ensures Reachable(s')
  {
    hide Step;
    assert Moves(s, s');
    Extend(s, s');
  }

  // the memory of the first dummy, of the nodes of threads 0 and 2, and of the dummy of thread 1
  function Dummy0(next: Ptr, stage: Stage): Node { Node(next, true, 0, stage, 0) }

  function Node1(next: Ptr, stage: Stage): Node { Node(next, false, 0, stage, if stage == Linked then 1 else 0) }

  function Node2(stage: Stage, pos: nat): Node { Node(Null, false, 2, stage, pos) }

  function Dummy3(stage: Stage): Node { Node(Null, true, 1, stage, if stage == Linked then 2 else 0) }

  const E0 := Entry(0, true)
  const E1 := Entry(1, false)
  const E3 := Entry(3, true)
  const OUT := Idle(None)
  const LATE := LinkNode(2, User, 0)

  /** Three threads, before the head has moved. */
  function Early(nodes: seq<Node>, a: Pc, b: Pc, order: seq<Entry>): State {
    State(0, 0, nodes, [a, b, OUT], order, 0, [], map[], {}, false)
  }

  /** The first dummy has been passed, and a grace period for it may be under way. */
  function Passed(
    tail: Nid, nodes: seq<Node>, a: Pc, b: Pc, c: Pc, order: seq<Entry>, wait: map<nat, set<Tid>>): State
  {
    State(1, tail, nodes, [a, b, c], order, 1, [], wait, {}, wait != map[])
  }

  /** Thread 0 links its node behind the dummy and stops before it moves the tail. */
  lemma Links()
    ensures Reachable(Early([Dummy0(To(1), Linked), Node1(Null, Linked)], MoveTail(1, User, 0, 1, true), OUT, [E0, E1]))
  {
    hide Reachable;
    var s0 := Early([Dummy0(Null, Linked)], OUT, OUT, [E0]);
    var s1 := Early([Dummy0(Null, Linked), Node1(Null, Private)], LoadTail(1, User), OUT, [E0]);
    var s2 := Early([Dummy0(Null, Linked), Node1(Null, Private)], LinkNode(1, User, 0), OUT, [E0]);
    var s3 := Early([Dummy0(To(1), Linked), Node1(Null, Linked)], MoveTail(1, User, 0, 1, true), OUT, [E0, E1]);
    assert Reachable(s0) by { FirstReachable(s0); }
    ByThread(s0, s1, 0, 1) by { assert StartEnqueue(s0, s1, 0, 1); }
    ByThread(s1, s2, 0, 0) by { assert ReadTail(s1, s2, 0); }
    ByThread(s2, s3, 0, 0) by { assert CasNext(s2, s3, 0); }
  }

  lemma FirstReachable(s: State)
    requires Init(s)
    ensures Reachable(s)
  {
    assert Run([s]) && Last([s]) == s;
  }

  const N01 := [Dummy0(To(1), Linked), Node1(Null, Linked)]
  const LAG := MoveTail(1, User, 0, 1, true)

  /** Thread 1 moves the head past the dummy, and a grace period for the dummy begins. */
  lemma Passes()
    ensures Reachable(Passed(0, N01, LAG, LoadHead, OUT, [E0, E1], map[0 := {0, 1}]))
  {
    Links();
    hide Reachable;
    var s3, s4 := Early(N01, LAG, OUT, [E0, E1]), Early(N01, LAG, LoadHead, [E0, E1]);
    var s5, s6 := Early(N01, LAG, LoadNext(0), [E0, E1]), Early(N01, LAG, MoveHead(0, 1), [E0, E1]);
    var s7 := Passed(0, N01, LAG, LoadHead, OUT, [E0, E1], map[]);
    var s8 := Passed(0, N01, LAG, LoadHead, OUT, [E0, E1], map[0 := {0, 1}]);
    ByThread(s3, s4, 1, 0) by { assert StartDequeue(s3, s4, 1); }
    ByThread(s4, s5, 1, 0) by { assert ReadHead(s4, s5, 1); }
    ByThread(s5, s6, 1, 0) by { assert ReadNext(s5, s6, 1, 0); }
    ByThread(s6, s7, 1, 0) by { assert CasHead(s6, s7, 1); }
    assert Busy(s7) == {0, 1};
    assert Retire(s7, s8, 0);
    Extend(s7, s8);
  }

  const N012 := N01 + [Node2(Private, 0)]

  /** Thread 2 begins to enqueue and loads the tail, which is the dummy; then thread 0 moves the tail and leaves. */
  lemma LoadsPassed()
    ensures Reachable(Passed(1, N012, Idle(Enqueued), LoadHead, LATE, [E0, E1], map[0 := {1}]))
  {
    Passes();
    hide Reachable;
    var w: map<nat, set<Tid>> := map[0 := {0, 1}];
    var s8 := Passed(0, N01, LAG, LoadHead, OUT, [E0, E1], w);
    var s9 := Passed(0, N012, LAG, LoadHead, LoadTail(2, User), [E0, E1], w);
    var s10 := Passed(0, N012, LAG, LoadHead, LATE, [E0, E1], w);
    var s11 := Passed(1, N012, Idle(Enqueued), LoadHead, LATE, [E0, E1], map[0 := {1}]);
    ByThread(s8, s9, 2, 2) by { assert StartEnqueue(s8, s9, 2, 2); }
    ByThread(s9, s10, 2, 0) by { assert ReadTail(s9, s10, 2); }
    assert w[0] - {0} == {1};
    assert (map k | k in w :: w[k] - {0}) == map[0 := {1}];
    ByThread(s10, s11, 0, 0) by { assert CasTail(s10, s11, 0); }
  }

  const N0123 := N012 + [Dummy3(Private)]
  const LINKED := [Dummy0(To(1), Linked), Node1(To(3), Linked), Node2(Private, 0), Dummy3(Linked)]

  /** Thread 1 goes on: it adds a dummy behind the node of thread 0 ... */
  lemma AddsDummy()
    ensures Reachable(Passed(3, LINKED, Idle(Enqueued), Reload(1), LATE, [E0, E1, E3], map[0 := {1}]))
  {
    LoadsPassed();
    hide Reachable;
    var w: map<nat, set<Tid>> := map[0 := {1}];
    var a := Idle(Enqueued);
    var s11, s12 := Passed(1, N012, a, LoadHead, LATE, [E0, E1], w), Passed(1, N012, a, LoadNext(1), LATE, [E0, E1], w);
    var s13 := Passed(1, N0123, a, LoadTail(3, Dequeuer(1)), LATE, [E0, E1], w);
    var s14 := Passed(1, N0123, a, LinkNode(3, Dequeuer(1), 1), LATE, [E0, E1], w);
    var s15 := Passed(1, LINKED, a, MoveTail(3, Dequeuer(1), 1, 3, true), LATE, [E0, E1, E3], w);
    var s16 := Passed(3, LINKED, a, Reload(1), LATE, [E0, E1, E3], w);
    ByThread(s11, s12, 1, 0) by { assert ReadHead(s11, s12, 1); }
    ByThread(s12, s13, 1, 3) by { assert ReadNext(s12, s13, 1, 3); }
    ByThread(s13, s14, 1, 0) by { assert ReadTail(s13, s14, 1); }
    ByThread(s14, s15, 1, 0) by { assert CasNext(s14, s15, 1); }
    ByThread(s15, s16, 1, 0) by { assert CasTail(s15, s16, 1); }
  }

  /** After thread 1 has returned the node of thread 0. */
  function After(nodes: seq<Node>, c: Pc, order: seq<Entry>, wait: map<nat, set<Tid>>, gone: set<nat>): State {
    State(3, 3, nodes, [Idle(Enqueued), Idle(Got(1)), c], order, 2, [1], wait, gone, true)
  }

  const FREED := LINKED[0 := Dummy0(Null, Unused)]

  /** ... returns that node and leaves. The grace period has ended, and the dummy is freed. */
  lemma Frees()
    ensures Reachable(After(FREED, LATE, [E0, E1, E3], map[], {0}))
  {
    AddsDummy();
    hide Reachable;
    var w: map<nat, set<Tid>> := map[0 := {1}];
    var s16 := Passed(3, LINKED, Idle(Enqueued), Reload(1), LATE, [E0, E1, E3], w);
    var s17 := Passed(3, LINKED, Idle(Enqueued), MoveHead(1, 3), LATE, [E0, E1, E3], w);
    var s18, s19 := After(LINKED, LATE, [E0, E1, E3], map[0 := {}], {}), After(FREED, LATE, [E0, E1, E3], map[], {0});
    ByThread(s16, s17, 1, 0) by { assert ReadAgain(s16, s17, 1); }
    assert w[0] - {1} == {};
    assert (map k | k in w :: w[k] - {1}) == map[0 := {}];
    ByThread(s17, s18, 1, 0) by { assert CasHead(s17, s18, 1); }
    assert s18.wait - {0} == map[];
    assert Free(s18, s19, 0, Null);
    Extend(s18, s19);
  }

  /** A thread is about to do its cmpxchg on memory that was reclaimed after a whole grace period. */
  lemma ReclaimedInUse()
    ensures exists s :: Reachable(s) && 2 < |s.pcs| && s.pcs[2].LinkNode? && s.pcs[2].tail < |s.nodes|
                        && s.nodes[s.pcs[2].tail].stage == Unused
  {
    Frees();
    hide Reachable;
    var s := After(FREED, LATE, [E0, E1, E3], map[], {0});
    assert s.pcs[2] == LATE && s.nodes[0].stage == Unused;
  }

  /** If it finds NULL there it takes its node for linked, and the node is lost: no linked node leads to it. */
  lemma NodeLost()
    ensures exists s :: Reachable(s) && 2 < |s.pcs| && s.pcs[2].MoveTail? && s.pcs[2].done && s.head != s.pcs[2].node
                        && forall n :: 0 <= n < |s.nodes| && IsLinked(s, n) ==> s.nodes[n].next != To(s.pcs[2].node)
  {
    Frees();
    hide Reachable;
    var s := After(FREED, LATE, [E0, E1, E3], map[], {0});
    var nodes := [Dummy0(To(2), Unused), Node1(To(3), Linked), Node2(Linked, 3), Dummy3(Linked)];
    var s' := After(nodes, MoveTail(2, User, 0, 2, true), [E0, E1, E3, Entry(2, false)], map[], {0});
    ByThread(s, s', 2, 0) by { assert CasNext(s, s', 2); }
    assert s'.pcs[2] == MoveTail(2, User, 0, 2, true);
  }
}
