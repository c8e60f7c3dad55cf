/**
 The split-ordered list of the hash table as a heap of flagged next words, and
 the four atomic effects that any operation has on it: publishing a node behind
 a live one (insert and replace), unlinking a removed node, setting the removed
 flag and setting the removal-owner flag.
 A node enters the heap at the cmpxchg that publishes it; until then its words
 are private to the adding thread. Node ids are never reused, which is what
 RCU-deferred reclamation guarantees to the operations.
 */
module SplitList {

  type Node = nat

  // END_VALUE, the NULL that ends the list
  const END: Node := 0

  datatype Key = Key(hash: nat, id: nat)

  datatype Kind = Bucket(index: nat) | Item(key: Key)

  /** A next word: the successor and the REMOVED, BUCKET and REMOVAL_OWNER flags. */
  datatype Link = Link(succ: Node, removed: bool, bucket: bool, owner: bool)

  /**
   `rank` is bookkeeping of the proof: it orders the nodes of one class by
   their place in the list and is chosen when the node is published.
   */
  datatype Cell = Cell(rh: nat, kind: Kind, rank: real, next: Link)

  type Heap = map<Node, Cell>

  /** The class of a node: its reverse hash, buckets ahead of the items of the same reverse hash. */
  function Class(rh: nat, kind: Kind): (c: nat) {
    2 * rh + (if kind.Bucket? then 0 else 1)
  }

  function ClassOf(c: Cell): nat { Class(c.rh, c.kind) }

  predicate CellBefore(c: Cell, d: Cell) {
    ClassOf(c) < ClassOf(d) || (ClassOf(c) == ClassOf(d) && c.rank < d.rank)
  }

  predicate Before(h: Heap, a: Node, b: Node)
    requires a in h && b in h
  {
    CellBefore(h[a], h[b])
  }

  predicate Removed(h: Heap, n: Node) { n in h && h[n].next.removed }

  predicate Live(h: Heap, n: Node) { n in h && !h[n].next.removed }

  predicate LiveKey(h: Heap, n: Node, k: Key) {
    Live(h, n) && h[n].kind == Item(k)
  }

  predicate NodeOrEnd(h: Heap, n: Node) { n == END || n in h }

  // ---------- reachability ----------

  ghost predicate ReachIn(h: Heap, a: Node, b: Node, n: nat)
    decreases n
  {
    a in h && (a == b || (n > 0 && ReachIn(h, h[a].next.succ, b, n - 1)))
  }

  ghost predicate Reach(h: Heap, a: Node, b: Node) {
    exists n: nat :: ReachIn(h, a, b, n)
  }

  lemma ReachSelf(h: Heap, a: Node)
    requires a in h
    ensures Reach(h, a, a)
  {
    assert ReachIn(h, a, a, 0);
  }

  lemma ReachStep(h: Heap, a: Node, b: Node)
    requires a in h && Reach(h, h[a].next.succ, b)
    ensures Reach(h, a, b)
  {
    var n: nat :| ReachIn(h, h[a].next.succ, b, n);
    assert ReachIn(h, a, b, n + 1);
  }

  lemma ReachRest(h: Heap, a: Node, b: Node)
    requires Reach(h, a, b) && a != b
    ensures a in h && Reach(h, h[a].next.succ, b)
  {
    var n: nat :| ReachIn(h, a, b, n);
    assert ReachIn(h, h[a].next.succ, b, n - 1);
  }

  lemma {:induction false} ReachTransIn(h: Heap, a: Node, b: Node, c: Node, n: nat)
    requires ReachIn(h, a, b, n) && Reach(h, b, c)
    ensures Reach(h, a, c)
    decreases n
  {
    if a != b {
      ReachTransIn(h, h[a].next.succ, b, c, n - 1);
      ReachStep(h, a, c);
    }
  }

  lemma ReachTrans(h: Heap, a: Node, b: Node, c: Node)
    requires Reach(h, a, b) && Reach(h, b, c)
    ensures Reach(h, a, c)
  {
    var n: nat :| ReachIn(h, a, b, n);
    ReachTransIn(h, a, b, c, n);
  }

  /** Two nodes reachable from one node lie on one chain. */
  lemma {:induction false} ReachLinearIn(h: Heap, a: Node, b: Node, c: Node, n: nat)
    requires ReachIn(h, a, b, n) && Reach(h, a, c)
    ensures Reach(h, b, c) || Reach(h, c, b)
    decreases n
  {
    if a == c {
    } else if a != b {
      ReachRest(h, a, c);
      ReachLinearIn(h, h[a].next.succ, b, c, n - 1);
    }
  }

  // ---------- the invariant of the list ----------

  predicate Sorted(h: Heap) {
    && END !in h
    && (forall n :: n in h ==> NodeOrEnd(h, h[n].next.succ))
    && (forall n :: n in h && h[n].next.succ in h ==> Before(h, n, h[n].next.succ))
  }

  predicate FlagsOk(h: Heap) {
    forall n :: n in h ==> h[n].next.bucket == h[n].kind.Bucket? && (h[n].next.owner ==> h[n].next.removed)
  }

  /** Bucket 0 heads the list and every unremoved node is reachable from it. */
  ghost predicate ListInv(h: Heap, root: Node) {
    && Sorted(h)
    && FlagsOk(h)
    && Live(h, root)
    && (forall n :: Live(h, n) ==> Reach(h, root, n))
  }

  lemma {:induction false} ReachOrderIn(h: Heap, a: Node, b: Node, n: nat)
    requires Sorted(h) && ReachIn(h, a, b, n)
    ensures b in h && (a == b || Before(h, a, b))
    decreases n
  {
    if a != b {
      ReachOrderIn(h, h[a].next.succ, b, n - 1);
    }
  }

  /** Along the list nodes strictly ascend, so the list has no loop. */
  lemma ReachOrder(h: Heap, a: Node, b: Node)
    requires Sorted(h) && Reach(h, a, b)
    ensures a in h && b in h && (a == b || Before(h, a, b))
  {
    var n: nat :| ReachIn(h, a, b, n);
    ReachOrderIn(h, a, b, n);
  }

  /** Of two nodes on the list, the earlier one reaches the later one. */
  lemma ChainOrder(h: Heap, root: Node, a: Node, b: Node)
    requires Sorted(h) && Reach(h, root, a) && Reach(h, root, b)
    requires a in h && b in h && Before(h, a, b)
    ensures Reach(h, a, b) && Reach(h, h[a].next.succ, b)
  {
    var n: nat :| ReachIn(h, root, a, n);
    ReachLinearIn(h, root, a, b, n);
    if !Reach(h, a, b) {
      ReachOrder(h, b, a);
    }
    ReachRest(h, a, b);
  }

  // ---------- the effects ----------

  /** A node `n` becomes the successor of `p`; with `take`, `p` is removed and owned by the same word (replace). */
  function Publish(h: Heap, p: Node, n: Node, rh: nat, kind: Kind, rank: real, take: bool): Heap
    requires p in h
  {
    h[n := Cell(rh, kind, rank, Link(h[p].next.succ, false, kind.Bucket?, false))]
     [p := h[p].(next := Link(n, take, h[p].next.bucket, take))]
  }

  predicate CanPublish(h: Heap, p: Node, n: Node, rh: nat, kind: Kind, rank: real) {
    && Live(h, p)
    && n !in h && n != END
    && var c := Cell(rh, kind, rank, Link(END, false, false, false));
    && CellBefore(h[p], c)
    && (h[p].next.succ in h ==> CellBefore(c, h[h[p].next.succ]))
  }

  /** A rank between those of the neighbours a new node gets behind `p`. */
  function RankFor(h: Heap, p: Node, rh: nat, kind: Kind): real
    requires p in h
  {
    var q := h[p].next.succ;
    var c := Class(rh, kind);
    if q !in h || c < ClassOf(h[q]) then h[p].rank + 1.0
    else if ClassOf(h[p]) < c then h[q].rank - 1.0
    else (h[p].rank + h[q].rank) / 2.0
  }

  /** The rank fits whenever the classes of the neighbours enclose that of the new node. */
  lemma RankFits(h: Heap, p: Node, n: Node, rh: nat, kind: Kind)
    requires Sorted(h) && Live(h, p) && n !in h && n != END
    requires ClassOf(h[p]) <= Class(rh, kind)
    requires h[p].next.succ in h ==> Class(rh, kind) <= ClassOf(h[h[p].next.succ])
    ensures CanPublish(h, p, n, rh, kind, RankFor(h, p, rh, kind))
  {
  }

  /** The cmpxchg of garbage collection: `p` skips its removed successor. */
  function Unlink(h: Heap, p: Node): Heap
    requires p in h && h[p].next.succ in h
  {
    h[p := h[p].(next := h[p].next.(succ := h[h[p].next.succ].next.succ))]
  }

  predicate CanUnlink(h: Heap, p: Node) {
    Live(h, p) && Removed(h, h[p].next.succ)
  }

  /** Setting REMOVED, and with `own` also REMOVAL_OWNER. */
  function Flag(h: Heap, n: Node, own: bool): Heap
    requires n in h
  {
    h[n := h[n].(next := h[n].next.(removed := true, owner := h[n].next.owner || own))]
  }

  // ---------- what every effect leaves alone ----------

  /** Constants of a node, and the frozen words of removed nodes. */
  predicate Frozen(h: Heap, h': Heap) {
    && (forall n :: n in h ==> n in h' && h'[n].rh == h[n].rh && h'[n].kind == h[n].kind && h'[n].rank == h[n].rank)
    && (forall n :: n in h && h[n].next.removed ==>
          h'[n].next.removed && h'[n].next.succ == h[n].next.succ && (h[n].next.owner ==> h'[n].next.owner))
  }

  /** A node that stays unremoved stays reachable from wherever it was reachable. */
  ghost predicate KeepsReach(h: Heap, h': Heap) {
    forall a, b :: Reach(h, a, b) && Live(h', b) ==> Reach(h', a, b)
  }

  /** No old node becomes reachable from where it was not. */
  ghost predicate AddsNoReach(h: Heap, h': Heap, root: Node) {
    && (forall a, b :: a in h && b in h && Reach(h', a, b) ==> Reach(h, a, b))
    && (forall a, b :: a in h' && a !in h && b in h && Reach(h', a, b) ==> Reach(h, root, b))
  }

  ghost predicate Evolves(h: Heap, h': Heap, root: Node) {
    Frozen(h, h') && KeepsReach(h, h') && AddsNoReach(h, h', root)
  }

  lemma EvolvesSame(h: Heap, root: Node)
    ensures Evolves(h, h, root)
  {
  }

  // ---------- publish ----------

  lemma {:induction false} PublishKeepsIn(h: Heap, h': Heap, p: Node, n: Node, a: Node, b: Node, i: nat)
    requires p in h && p in h' && n in h' && n != p && h'[p].next.succ == n && h'[n].next.succ == h[p].next.succ
    requires forall x :: x in h ==> x in h' && (x == p || h'[x].next.succ == h[x].next.succ)
    requires ReachIn(h, a, b, i)
    ensures Reach(h', a, b)
    decreases i
  {
    if a == b {
      ReachSelf(h', a);
    } else {
      PublishKeepsIn(h, h', p, n, h[a].next.succ, b, i - 1);
      if a == p { ReachStep(h', n, b); }
      ReachStep(h', a, b);
    }
  }

  lemma {:induction false} PublishAddsNoneIn(h: Heap, h': Heap, p: Node, n: Node, a: Node, b: Node, i: nat)
    requires Sorted(h) && p in h && n !in h && n != END && h'.Keys == h.Keys + {n}
    requires h'[p].next.succ == n && h'[n].next.succ == h[p].next.succ
    requires forall x :: x in h && x != p ==> h'[x].next.succ == h[x].next.succ
    requires b in h && a in h' && ReachIn(h', a, b, i)
    ensures a in h ==> Reach(h, a, b)
    ensures a == n ==> Reach(h, h[p].next.succ, b)
    decreases i
  {
    if a == b {
      ReachSelf(h, a);
    } else {
      PublishAddsNoneIn(h, h', p, n, h'[a].next.succ, b, i - 1);
      if a in h { ReachStep(h, a, b); }
    }
  }

  lemma PublishEvolves(h: Heap, root: Node, p: Node, n: Node, rh: nat, kind: Kind, rank: real, take: bool)
    requires ListInv(h, root) && CanPublish(h, p, n, rh, kind, rank)
    ensures Evolves(h, Publish(h, p, n, rh, kind, rank, take), root)
    ensures Reach(Publish(h, p, n, rh, kind, rank, take), p, n)
  {
    var h' := Publish(h, p, n, rh, kind, rank, take);
    ReachSelf(h', n);
    ReachStep(h', p, n);
    forall a, b | Reach(h, a, b) && Live(h', b)
      ensures Reach(h', a, b)
    {
      var i: nat :| ReachIn(h, a, b, i);
      PublishKeepsIn(h, h', p, n, a, b, i);
    }
    forall a, b | a in h' && b in h && Reach(h', a, b)
      ensures if a in h then Reach(h, a, b) else Reach(h, root, b)
    {
      var i: nat :| ReachIn(h', a, b, i);
      PublishAddsNoneIn(h, h', p, n, a, b, i);
      if a !in h {
        ReachStep(h, p, b);
        ReachTrans(h, root, p, b);
      }
    }
  }

  lemma PublishInv(h: Heap, root: Node, p: Node, n: Node, rh: nat, kind: Kind, rank: real, take: bool)
    requires ListInv(h, root) && CanPublish(h, p, n, rh, kind, rank) && (take ==> p != root)
    ensures ListInv(Publish(h, p, n, rh, kind, rank, take), root)
  {
    var h' := Publish(h, p, n, rh, kind, rank, take);
    forall x | Live(h', x)
      ensures Reach(h', root, x)
    {
      var i: nat :| ReachIn(h, root, p, i);
      PublishKeepsIn(h, h', p, n, root, p, i);
      PublishEvolves(h, root, p, n, rh, kind, rank, take);
      if x == n {
        ReachTrans(h', root, p, n);
      }
    }
  }

  // ---------- unlink ----------

  lemma {:induction false} UnlinkKeepsIn(h: Heap, p: Node, a: Node, b: Node, i: nat)
    requires Sorted(h) && CanUnlink(h, p) && ReachIn(h, a, b, i) && b != h[p].next.succ
    ensures Reach(Unlink(h, p), a, b)
    decreases i
  {
    var h' := Unlink(h, p);
    if a == b {
      ReachSelf(h', a);
    } else if a == p {
      var q := h[p].next.succ;
      UnlinkKeepsIn(h, p, h[q].next.succ, b, i - 2);
      ReachStep(h', a, b);
    } else {
      UnlinkKeepsIn(h, p, h[a].next.succ, b, i - 1);
      ReachStep(h', a, b);
    }
  }

  lemma {:induction false} UnlinkAddsNoneIn(h: Heap, p: Node, a: Node, b: Node, i: nat)
    requires Sorted(h) && CanUnlink(h, p) && ReachIn(Unlink(h, p), a, b, i)
    ensures Reach(h, a, b)
    decreases i
  {
    var h' := Unlink(h, p);
    if a == b {
      ReachSelf(h, a);
    } else {
      UnlinkAddsNoneIn(h, p, h'[a].next.succ, b, i - 1);
      if a == p { ReachStep(h, h[p].next.succ, b); }
      ReachStep(h, a, b);
    }
  }

  lemma UnlinkEvolves(h: Heap, root: Node, p: Node)
    requires ListInv(h, root) && CanUnlink(h, p)
    ensures Evolves(h, Unlink(h, p), root)
  {
    var h' := Unlink(h, p);
    forall a, b | Reach(h, a, b) && Live(h', b)
      ensures Reach(h', a, b)
    {
      var i: nat :| ReachIn(h, a, b, i);
      UnlinkKeepsIn(h, p, a, b, i);
    }
    forall a, b | Reach(h', a, b)
      ensures Reach(h, a, b)
    {
      var i: nat :| ReachIn(h', a, b, i);
      UnlinkAddsNoneIn(h, p, a, b, i);
    }
  }

  lemma UnlinkInv(h: Heap, root: Node, p: Node)
    requires ListInv(h, root) && CanUnlink(h, p)
    ensures ListInv(Unlink(h, p), root)
  {
    UnlinkEvolves(h, root, p);
    var h' := Unlink(h, p);
    assert forall n :: Live(h', n) ==> Live(h, n);
  }

  // ---------- flags ----------

  lemma {:induction false} SameSuccReach(h: Heap, h': Heap, a: Node, b: Node, i: nat)
    requires h.Keys == h'.Keys && forall x :: x in h ==> h[x].next.succ == h'[x].next.succ
    requires ReachIn(h, a, b, i)
    ensures ReachIn(h', a, b, i)
    decreases i
  {
    if a != b { SameSuccReach(h, h', h[a].next.succ, b, i - 1); }
  }

  lemma FlagEvolves(h: Heap, root: Node, n: Node, own: bool)
    requires n in h
    ensures Evolves(h, Flag(h, n, own), root)
  {
    var h' := Flag(h, n, own);
    forall a, b | Reach(h, a, b)
      ensures Reach(h', a, b)
    {
      var i: nat :| ReachIn(h, a, b, i);
      SameSuccReach(h, h', a, b, i);
    }
    forall a, b | Reach(h', a, b)
      ensures Reach(h, a, b)
    {
      var i: nat :| ReachIn(h', a, b, i);
      SameSuccReach(h', h, a, b, i);
    }
  }

  lemma FlagInv(h: Heap, root: Node, n: Node, own: bool)
    requires ListInv(h, root) && n in h && n != root
    ensures ListInv(Flag(h, n, own), root)
  {
    FlagEvolves(h, root, n, own);
    var h' := Flag(h, n, own);
    assert forall x :: Live(h', x) ==> Live(h, x);
  }
}
