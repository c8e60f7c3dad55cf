/**
 For every word width and every key, a run in which a lookup misses the key
 although it is in the table all the time. The key is added both by a plain
 and by a unique add: the plain add appends behind a node of another key with
 the same hash after the unique add has looked there, the lookup goes past the
 front, the unique add then inserts at the front, and the appended node is
 deleted before the lookup arrives at it.
 */
module HashTableMixed {
  import opened SplitOrder
  import opened SplitList
  import opened HashTable
  import opened HashTableCalm
  import opened HashTableMoves
  import opened HashTableTheorems

  /** A word width and a key to look up. */
  datatype Case = Case(bits: nat, key: Key)

  predicate Fits(x: Case) { x.key.hash < Pow2(x.bits) }

  /** Another key with the same hash. */
  function Other(x: Case): Key { Key(x.key.hash, x.key.id + 1) }

  function Rh(x: Case): nat { Rev(x.bits, x.key.hash) }

  function H0(x: Case): Heap { map[1 := BucketCell(END)] }

  function H1(x: Case): Heap { Publish(H0(x), 1, 2, Rh(x), Item(Other(x)), 1.0, false) }

  function H2(x: Case): Heap { Publish(H1(x), 2, 3, Rh(x), Item(x.key), 2.0, false) }

  function H3(x: Case): Heap { Publish(H2(x), 1, 4, Rh(x), Item(x.key), 0.0, false) }

  function H4(x: Case): Heap { Flag(H3(x), 3, false) }

  /** The three threads; `Trios` is all that is needed of their map. */
  function Trio(a: Thread, b: Thread, l: Thread): map<Tid, Thread> { map[0 := a, 1 := b, 2 := l] }

  lemma Trios()
    ensures forall a, b, l ::
      var m := Trio(a, b, l); 0 in m && 1 in m && 2 in m && m[0] == a && m[1] == b && m[2] == l
    ensures forall a, b, l, v :: Trio(a, b, l)[0 := v] == Trio(v, b, l)
    ensures forall a, b, l, v :: Trio(a, b, l)[1 := v] == Trio(a, v, l)
    ensures forall a, b, l, v :: Trio(a, b, l)[2 := v] == Trio(a, b, v)
  {
  }

  function At3(x: Case, h: Heap, a: Thread, b: Thread, l: Thread, plain: set<Key>, uniq: set<Key>): State {
    State(x.bits, h, 0, map[0 := 1], Trio(a, b, l), Steady, map[], {}, {}, plain, uniq, multiset{})
  }

  const OUT := Thread(false, {}, Idle(Nothing))

  function In(held: set<Node>, pc: Pc): Thread { Thread(true, held, pc) }

  // the cells of the bucket, of the other key, and of the key's two nodes
  function BucketCell(next: Node): Cell { Cell(0, Bucket(0), 0.0, Link(next, false, true, false)) }

  function OtherCell(x: Case, next: Node): Cell { Cell(Rh(x), Item(Other(x)), 1.0, Link(next, false, false, false)) }

  function KeyCell(x: Case, rank: real, next: Node, removed: bool): Cell {
    Cell(Rh(x), Item(x.key), rank, Link(next, removed, false, false))
  }

  lemma Heaps(x: Case)
    ensures H0(x) == map[1 := BucketCell(END)]
    ensures H1(x) == map[1 := BucketCell(2), 2 := OtherCell(x, END)]
    ensures H2(x) == map[1 := BucketCell(2), 2 := OtherCell(x, 3), 3 := KeyCell(x, 2.0, END, false)]
    ensures H3(x) == map[1 := BucketCell(4), 2 := OtherCell(x, 3),
                         3 := KeyCell(x, 2.0, END, false), 4 := KeyCell(x, 0.0, 2, false)]
    ensures H4(x) == map[1 := BucketCell(4), 2 := OtherCell(x, 3),
                         3 := KeyCell(x, 2.0, END, true), 4 := KeyCell(x, 0.0, 2, false)]
  {
  }

  lemma Words(x: Case)
    requires Fits(x)
    ensures Other(x).hash == x.key.hash && Other(x) != x.key
    ensures Pow2(0) == 1 && BucketIndex(0, x.key.hash) == 0 && Rev(x.bits, Rh(x)) == x.key.hash
    ensures RankFor(H0(x), 1, Rh(x), Item(Other(x))) == 1.0 && RankFor(H1(x), 2, Rh(x), Item(x.key)) == 2.0
    ensures RankFor(H2(x), 1, Rh(x), Item(x.key)) == 0.0
    ensures RemovedOf(H4(x)) == {3}
    ensures forall ns: set<Node> :: ns + {} == ns
    ensures var none: set<Node> := {}; none + {2} == {2} && none + {4} == {4}
    ensures var two: set<Node> := {2}; two + {3} == {2, 3}
    ensures forall k: Key :: {} + {k} == {k}
    ensures {Other(x)} + {x.key} == {Other(x), x.key}
  {
    RevInvolution(x.bits, x.key.hash);
  }

  // next words: of the bucket before and after the first insertion, and of the last node
  const W1 := Link(END, false, true, false)
  const W2 := Link(2, false, true, false)
  const WE := Link(END, false, false, false)

  // places where threads 0 and 1 stay for several steps
  const A2 := In({2}, Idle(Added(2)))
  const A3 := In({2, 3}, Idle(Added(3)))
  const B4 := In({4}, Idle(Added(4)))

  function Ready(x: Case): Thread { In({}, Insert(AddItem(Unique, x.key), 1, 1, W2)) }

  function Collects(x: Case): Thread { In({2, 3}, GcStart(Gc(1, Rh(x), {3}, Own(3)))) }

  /** Only thread 0 has entered. */
  function Alone(x: Case, h: Heap, a: Thread, plain: set<Key>): State { At3(x, h, a, OUT, OUT, plain, {}) }

  /** Thread 0 has added the other key; thread 1 adds the key. */
  function Second(x: Case, b: Thread): State { At3(x, H1(x), A2, b, OUT, {Other(x)}, {x.key}) }

  /** Both keys have been added by plain adds, the key also by a unique one. */
  function Mixed(x: Case, h: Heap, a: Thread, b: Thread, l: Thread): State {
    At3(x, h, a, b, l, {Other(x), x.key}, {x.key})
  }

  /**
   Thread 0 adds another key, then the key, by plain adds, and deletes the
   latter; thread 1 adds the key uniquely; thread 2 looks it up.
   */
  function S0(x: Case): State { Alone(x, H0(x), OUT, {}) }

  function S1(x: Case): State { Alone(x, H0(x), In({}, Idle(Nothing)), {}) }

  function S2(x: Case): State { Alone(x, H0(x), In({}, Sizing(Add(AddItem(Plain, Other(x))))), {Other(x)}) }

  function S3(x: Case): State { Alone(x, H0(x), In({}, Start(Add(AddItem(Plain, Other(x))), 1)), {Other(x)}) }

  function S4(x: Case): State { Alone(x, H0(x), In({}, Walk(AddItem(Plain, Other(x)), 1, 1, W1)), {Other(x)}) }

  function S5(x: Case): State { Alone(x, H0(x), In({}, Insert(AddItem(Plain, Other(x)), 1, 1, W1)), {Other(x)}) }

  function S6(x: Case): State { Alone(x, H1(x), A2, {Other(x)}) }

  function S7(x: Case): State { At3(x, H1(x), A2, In({}, Idle(Nothing)), OUT, {Other(x)}, {}) }

  function S8(x: Case): State { Second(x, In({}, Sizing(Add(AddItem(Unique, x.key))))) }

  function S9(x: Case): State { Second(x, In({}, Start(Add(AddItem(Unique, x.key)), 1))) }

  function S10(x: Case): State { Second(x, In({}, Walk(AddItem(Unique, x.key), 1, 1, W2))) }

  function S11(x: Case): State { Second(x, In({}, Scan(AddItem(Unique, x.key), 1, 1, W2, 2))) }

  function S12(x: Case): State { Second(x, In({}, Scan(AddItem(Unique, x.key), 1, 1, W2, END))) }

  function S13(x: Case): State { Second(x, Ready(x)) }

  function S14(x: Case): State { Mixed(x, H1(x), In({2}, Sizing(Add(AddItem(Plain, x.key)))), Ready(x), OUT) }

  function S15(x: Case): State { Mixed(x, H1(x), In({2}, Start(Add(AddItem(Plain, x.key)), 1)), Ready(x), OUT) }

  function S16(x: Case): State { Mixed(x, H1(x), In({2}, Walk(AddItem(Plain, x.key), 1, 1, W2)), Ready(x), OUT) }

  function S17(x: Case): State { Mixed(x, H1(x), In({2}, Walk(AddItem(Plain, x.key), 1, 2, WE)), Ready(x), OUT) }

  function S18(x: Case): State { Mixed(x, H1(x), In({2}, Insert(AddItem(Plain, x.key), 1, 2, WE)), Ready(x), OUT) }

  function S19(x: Case): State { Mixed(x, H2(x), A3, Ready(x), OUT) }

  function S20(x: Case): State { Mixed(x, H2(x), A3, Ready(x), In({}, Idle(Nothing))) }

  function S21(x: Case): State { Mixed(x, H2(x), A3, Ready(x), In({}, Sizing(Lookup(x.key)))) }

  function S22(x: Case): State { Mixed(x, H2(x), A3, Ready(x), In({}, Start(Lookup(x.key), 1))) }

  function S23(x: Case): State { Mixed(x, H2(x), A3, Ready(x), In({}, Look(x.key, 2))) }

  function S24(x: Case): State { Mixed(x, H2(x), A3, Ready(x), In({}, Look(x.key, 3))) }

  function S25(x: Case): State { Mixed(x, H3(x), A3, B4, In({}, Look(x.key, 3))) }

  function S26(x: Case): State { Mixed(x, H3(x), In({2, 3}, Sizing(Del(3))), B4, In({}, Look(x.key, 3))) }

  function S27(x: Case): State { Mixed(x, H3(x), In({2, 3}, Start(Del(3), 1)), B4, In({}, Look(x.key, 3))) }

  function S28(x: Case): State { Mixed(x, H3(x), In({2, 3}, Mark(3, 1)), B4, In({}, Look(x.key, 3))) }

  function S29(x: Case): State { Mixed(x, H4(x), Collects(x), B4, In({}, Look(x.key, 3))) }

  function S30(x: Case): State { Mixed(x, H4(x), Collects(x), B4, In({}, Look(x.key, END))) }

  function S31(x: Case): State { Mixed(x, H4(x), Collects(x), B4, In({}, Idle(Missing))) }

  /** The states of the run. */
  function Ran(x: Case, i: nat): State
    requires i < 32
  {
    match i
    case 0 => S0(x)
    case 1 => S1(x)
    case 2 => S2(x)
    case 3 => S3(x)
    case 4 => S4(x)
    case 5 => S5(x)
    case 6 => S6(x)
    case 7 => S7(x)
    case 8 => S8(x)
    case 9 => S9(x)
    case 10 => S10(x)
    case 11 => S11(x)
    case 12 => S12(x)
    case 13 => S13(x)
    case 14 => S14(x)
    case 15 => S15(x)
    case 16 => S16(x)
    case 17 => S17(x)
    case 18 => S18(x)
    case 19 => S19(x)
    case 20 => S20(x)
    case 21 => S21(x)
    case 22 => S22(x)
    case 23 => S23(x)
    case 24 => S24(x)
    case 25 => S25(x)
    case 26 => S26(x)
    case 27 => S27(x)
    case 28 => S28(x)
    case 29 => S29(x)
    case 30 => S30(x)
    case _ => S31(x)
  }

  lemma ByUser(s: State, s': State, t: Tid)
    requires UserStep(s, s', t)
    ensures Next(s, s')
  {
  }

  lemma ByCode(s: State, s': State, t: Tid)
    requires CodeStep(s, s', t)
    ensures Next(s, s')
  {
  }

  /** Thread 0 adds the other key. */
  lemma AddsOther(x: Case)
    requires Fits(x)
    ensures Next(S0(x), S1(x))
    ensures Next(S1(x), S2(x))
    ensures Next(S2(x), S3(x))
    ensures Next(S3(x), S4(x))
    ensures Next(S4(x), S5(x))
    ensures Next(S5(x), S6(x))
  {
    Words(x);
    Heaps(x);
    Trios();
    hide Publish, Flag, Rev, RankFor, RemovedOf, Pow2, Next, Trio, H0, Other;
    assert Enter(S0(x), S1(x), 0);
    ByUser(S0(x), S1(x), 0);
    assert BeginAdd(S1(x), S2(x), 0, Plain, Other(x));
    ByUser(S1(x), S2(x), 0);
    assert LoadSize(S2(x), S3(x), 0);
    ByCode(S2(x), S3(x), 0);
    assert AddHead(S3(x), S4(x), 0);
    ByCode(S3(x), S4(x), 0);
    assert AddStep(S4(x), S5(x), 0);
    ByCode(S4(x), S5(x), 0);
    assert InsertOk(S5(x), S6(x), 0, 2);
    ByCode(S5(x), S6(x), 0);
  }

  /** Thread 1 begins to add the key. */
  lemma StartsUnique(x: Case)
    requires Fits(x)
    ensures Next(S6(x), S7(x))
    ensures Next(S7(x), S8(x))
    ensures Next(S8(x), S9(x))
    ensures Next(S9(x), S10(x))
  {
    Words(x);
    Heaps(x);
    Trios();
    hide Publish, Flag, Rev, RankFor, RemovedOf, Pow2, Next, Trio, H0, Other;
    assert Enter(S6(x), S7(x), 1);
    ByUser(S6(x), S7(x), 1);
    assert BeginAdd(S7(x), S8(x), 1, Unique, x.key);
    ByUser(S7(x), S8(x), 1);
    assert LoadSize(S8(x), S9(x), 1);
    ByCode(S8(x), S9(x), 1);
    assert AddHead(S9(x), S10(x), 1);
    ByCode(S9(x), S10(x), 1);
  }

  /** It looks for the key up to the end and prepares to insert at the front. */
  lemma FindsNone(x: Case)
    requires Fits(x)
    ensures Next(S10(x), S11(x))
    ensures Next(S11(x), S12(x))
    ensures Next(S12(x), S13(x))
  {
    Words(x);
    Heaps(x);
    Trios();
    hide Publish, Flag, Rev, RankFor, RemovedOf, Pow2, Next, Trio, H0, Other;
    assert AddStep(S10(x), S11(x), 1);
    ByCode(S10(x), S11(x), 1);
    assert ScanStep(S11(x), S12(x), 1);
    ByCode(S11(x), S12(x), 1);
    assert ScanStep(S12(x), S13(x), 1);
    ByCode(S12(x), S13(x), 1);
  }

  /** Thread 0 appends the key. */
  lemma AppendsKey(x: Case)
    requires Fits(x)
    ensures Next(S13(x), S14(x))
    ensures Next(S14(x), S15(x))
    ensures Next(S15(x), S16(x))
    ensures Next(S16(x), S17(x))
    ensures Next(S17(x), S18(x))
    ensures Next(S18(x), S19(x))
  {
    Words(x);
    Heaps(x);
    Trios();
    hide Publish, Flag, Rev, RankFor, RemovedOf, Pow2, Next, Trio, H0, Other;
    assert BeginAdd(S13(x), S14(x), 0, Plain, x.key);
    ByUser(S13(x), S14(x), 0);
    assert LoadSize(S14(x), S15(x), 0);
    ByCode(S14(x), S15(x), 0);
    assert AddHead(S15(x), S16(x), 0);
    ByCode(S15(x), S16(x), 0);
    assert AddStep(S16(x), S17(x), 0);
    ByCode(S16(x), S17(x), 0);
    assert AddStep(S17(x), S18(x), 0);
    ByCode(S17(x), S18(x), 0);
    assert InsertOk(S18(x), S19(x), 0, 3);
    ByCode(S18(x), S19(x), 0);
  }

  /** Thread 2 starts its lookup and goes past the front. */
  lemma LooksUp(x: Case)
    requires Fits(x)
    ensures Next(S19(x), S20(x))
    ensures Next(S20(x), S21(x))
    ensures Next(S21(x), S22(x))
    ensures Next(S22(x), S23(x))
    ensures Next(S23(x), S24(x))
  {
    Words(x);
    Heaps(x);
    Trios();
    hide Publish, Flag, Rev, RankFor, RemovedOf, Pow2, Next, Trio, H0, Other;
    assert Enter(S19(x), S20(x), 2);
    ByUser(S19(x), S20(x), 2);
    assert BeginLookup(S20(x), S21(x), 2, x.key);
    ByUser(S20(x), S21(x), 2);
    assert LoadSize(S21(x), S22(x), 2);
    ByCode(S21(x), S22(x), 2);
    assert LookHead(S22(x), S23(x), 2);
    ByCode(S22(x), S23(x), 2);
    assert LookStep(S23(x), S24(x), 2);
    ByCode(S23(x), S24(x), 2);
  }

  /** Thread 1 inserts the key at the front. */
  lemma InsertsKey(x: Case)
    requires Fits(x)
    ensures Next(S24(x), S25(x))
  {
    Words(x);
    Heaps(x);
    Trios();
    hide Publish, Flag, Rev, RankFor, RemovedOf, Pow2, Next, Trio, H0, Other;
    assert InsertOk(S24(x), S25(x), 1, 4);
    ByCode(S24(x), S25(x), 1);
  }

  /** Thread 0 deletes its own node. */
  lemma DeletesKey(x: Case)
    requires Fits(x)
    ensures Next(S25(x), S26(x))
    ensures Next(S26(x), S27(x))
    ensures Next(S27(x), S28(x))
    ensures Next(S28(x), S29(x))
  {
    Words(x);
    Heaps(x);
    Trios();
    hide Publish, Flag, Rev, RankFor, RemovedOf, Pow2, Next, Trio, H0, Other;
    assert BeginDel(S25(x), S26(x), 0, 3);
    ByUser(S25(x), S26(x), 0);
    assert LoadSize(S26(x), S27(x), 0);
    ByCode(S26(x), S27(x), 0);
    assert DelLoad(S27(x), S28(x), 0);
    ByCode(S27(x), S28(x), 0);
    assert DelMark(S28(x), S29(x), 0);
    ByCode(S28(x), S29(x), 0);
  }

  /** Thread 2 arrives at the deleted node and at the end. */
  lemma Misses(x: Case)
    requires Fits(x)
    ensures Next(S29(x), S30(x))
    ensures Next(S30(x), S31(x))
  {
    Words(x);
    Heaps(x);
    Trios();
    hide Publish, Flag, Rev, RankFor, RemovedOf, Pow2, Next, Trio, H0, Other;
    assert LookStep(S29(x), S30(x), 2);
    ByCode(S29(x), S30(x), 2);
    assert LookStep(S30(x), S31(x), 2);
    ByCode(S30(x), S31(x), 2);
  }

  lemma Steps(x: Case, i: nat)
    requires i < 31 && Fits(x)
    ensures Next(Ran(x, i), Ran(x, i + 1))
  {
    hide Next;
    AddsOther(x);
    StartsUnique(x);
    FindsNone(x);
    AppendsKey(x);
    LooksUp(x);
    InsertsKey(x);
    DeletesKey(x);
    Misses(x);
  }

  function MissingRun(x: Case): seq<State> { seq(32, i requires 0 <= i < 32 => Ran(x, i)) }

  lemma FirstIsInitial(x: Case)
    requires Fits(x)
    ensures Init(Ran(x, 0))
  {
    Words(x);
    RevZero(x.bits);
    ReachSelf(H0(x), 1);
  }

  /** From state 21 on the lookup is under way, and the key is there. */
  lemma LooksAtPresentKey(x: Case, i: nat)
    requires 21 <= i <= 31
    ensures Present(Ran(x, i), x.key) && At(Ran(x, i), 2)
    ensures i == 21 ==> Ran(x, i).threads[2].pc == Sizing(Lookup(x.key))
    ensures i < 31 ==> !Ran(x, i).threads[2].pc.Idle?
    ensures i == 31 ==> Ran(x, i).threads[2].pc == Idle(Missing)
  {
    assert LiveKey(H2(x), 3, x.key) && LiveKey(H3(x), 4, x.key) && LiveKey(H4(x), 4, x.key);
  }

  /** In the middle of the lookup thread 1 inserts the key at a place the lookup has passed. */
  lemma PassedBy(x: Case)
    requires Fits(x)
    ensures InsertsBehind(S24(x), S25(x), 2, x.key)
  {
    Words(x);
    Heaps(x);
    hide Publish, Flag, Rev, RankFor, RemovedOf, Pow2;
    assert MixedInsert(S24(x), S25(x), 1, 4, x.key);
    NotAhead(x);
  }

  lemma NotAhead(x: Case)
    ensures !Reach(H3(x), 3, 4)
  {
    Heaps(x);
    if Reach(H3(x), 3, 4) {
      var n: nat :| ReachIn(H3(x), 3, 4, n);
      assert !ReachIn(H3(x), END, 4, n - 1);
    }
  }

  /** Whatever the key, the hypotheses of `LookupFindsPresentKey` without the one on adds do not suffice. */
  lemma LookupCanMiss(x: Case)
    requires Fits(x)
    ensures Run(MissingRun(x)) && Call(MissingRun(x), 2, Lookup(x.key), 21, 31)
    ensures forall m :: 21 <= m <= 31 ==> Present(MissingRun(x)[m], x.key)
    ensures MissingRun(x)[31].threads[2].pc == Idle(Missing)
    ensures InsertsBehind(MissingRun(x)[24], MissingRun(x)[25], 2, x.key)
  {
    hide Next, Init, Present, InsertsBehind;
    PassedBy(x);
    assert InsertsBehind(Ran(x, 24), Ran(x, 25), 2, x.key);
    hide Ran;
    FirstIsInitial(x);
    forall i | 0 <= i < |MissingRun(x)| - 1
      ensures Next(MissingRun(x)[i], MissingRun(x)[i + 1])
    {
      Steps(x, i);
    }
    forall m | 21 <= m <= 31
      ensures Present(MissingRun(x)[m], x.key) && At(MissingRun(x)[m], 2)
      ensures m < 31 ==> !MissingRun(x)[m].threads[2].pc.Idle?
    {
      LooksAtPresentKey(x, m);
    }
    LooksAtPresentKey(x, 21);
    LooksAtPresentKey(x, 31);
  }
}
