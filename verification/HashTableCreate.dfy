/**
 Creating a table: the loop that links each new bucket right behind its parent
 builds the sorted list of buckets that the state machine starts from.
 */
module HashTableCreate {
  import opened SplitOrder
  import opened SplitList
  import opened HashTable

  /** `fls`: the position of the most significant bit, from 1; 0 for 0. */
  function Fls(x: nat): (r: nat)
    ensures x < Pow2(r) && (r > 0 ==> Pow2(r - 1) <= x)
  {
    if x == 0 then 0 else 1 + Fls(x / 2)
  }

  /** `cds_lfht_get_count_order_ulong` of a positive size. */
  function CountOrder(size: nat): (o: nat)
    requires size > 0
    ensures size <= Pow2(o) && forall p: nat :: size <= Pow2(p) ==> o <= p
  {
    var o := Fls(size - 1);
    assert forall p: nat :: p < o ==> Pow2(p) < size by {
      forall p: nat | p < o
        ensures Pow2(p) < size
      {
        Pow2Monotone(p, o - 1);
      }
    }
    o
  }

  /** `bucket_at`, an injective map from indices to nodes. */
  function BucketAt(j: nat): Node { j + 1 }

  /** The table has exactly the buckets below `n`, linked into one sorted list. */
  ghost predicate Linked(bits: nat, h: Heap, n: nat) {
    && n > 0
    && (forall j: nat :: j < n <==> BucketAt(j) in h)
    && (forall x :: x in h ==> x > 0)
    && (forall j :: 0 <= j < n ==>
          h[BucketAt(j)].rh == Rev(bits, j) && h[BucketAt(j)].kind == Bucket(j) && Live(h, BucketAt(j)))
    && ListInv(h, BucketAt(0))
  }

  /** A bucket behind the parent of the next bucket also sorts behind the next bucket. */
  lemma NextBucketBetween(bits: nat, o: nat, i: nat, q: nat)
    requires o < bits && i < Pow2(o) && q < Pow2(o) + i && Rev(bits, i) < Rev(bits, q)
    ensures Rev(bits, i) < Rev(bits, Pow2(o) + i) < Rev(bits, q)
  {
    var len := Pow2(o);
    ParentPrecedes(bits, o, len + i);
    if q < len {
      BucketGap(bits, o, len + i, q);
    } else {
      ParentPrecedes(bits, o, q);
      BucketGap(bits, o, q, i);
      BucketGap(bits, o, len + i, q - len);
    }
  }

  lemma NextBucketFits(bits: nat, h: Heap, o: nat, i: nat)
    requires o < bits && i < Pow2(o) && Linked(bits, h, Pow2(o) + i)
    ensures CanPublish(h, BucketAt(i), BucketAt(Pow2(o) + i), Rev(bits, Pow2(o) + i), Bucket(Pow2(o) + i), 0.0)
  {
    var len := Pow2(o);
    ParentPrecedes(bits, o, len + i);
    var q := h[BucketAt(i)].next.succ;
    if q in h {
      assert BucketAt(q - 1) == q;
      assert Before(h, BucketAt(i), q);
      if Rev(bits, i) == Rev(bits, q - 1) {
        Pow2Monotone(o + 1, bits);
        RevInjective(bits, i, q - 1);
        SelfBefore(h, q);
      }
      NextBucketBetween(bits, o, i, q - 1);
    }
  }

  lemma SelfBefore(h: Heap, q: Node)
    requires q in h
    ensures !Before(h, q, q)
  {
  }

  lemma LinkNext(bits: nat, h: Heap, o: nat, i: nat)
    requires o < bits && i < Pow2(o) && Linked(bits, h, Pow2(o) + i)
    ensures BucketAt(i) in h && BucketAt(Pow2(o) + i) != BucketAt(i)
    ensures var node := BucketAt(Pow2(o) + i);
            var h1 := h[node := Cell(Rev(bits, Pow2(o) + i), Bucket(Pow2(o) + i), 0.0, h[BucketAt(i)].next)];
            Linked(bits, h1[BucketAt(i) := h1[BucketAt(i)].(next := Link(node, false, true, false))], Pow2(o) + i + 1)
  {
    hide Reach;
    NextBucketFits(bits, h, o, i);
    PublishInv(h, BucketAt(0), BucketAt(i), BucketAt(Pow2(o) + i),
        Rev(bits, Pow2(o) + i), Bucket(Pow2(o) + i), 0.0, false);
  }

  lemma FirstBucket(bits: nat)
    ensures Linked(bits, map[BucketAt(0) := Cell(0, Bucket(0), 0.0, Link(END, false, true, false))], Pow2(0))
  {
    RevZero(bits);
    ReachSelf(map[BucketAt(0) := Cell(0, Bucket(0), 0.0, Link(END, false, true, false))], BucketAt(0));
  }

  /** `cds_lfht_create_bucket` */
  method CreateBuckets(bits: nat, size: nat) returns (h: Heap)
    requires size > 0 && CountOrder(size) <= bits
    ensures Linked(bits, h, Pow2(CountOrder(size)))
  {
    var bucketOrder := CountOrder(size);
    var node := BucketAt(0);
    h := map[node := Cell(0, Bucket(0), 0.0, Link(END, false, true, false))];
    hide Linked, Rev;
    FirstBucket(bits);
    var order := 1;
    while order < bucketOrder + 1
      invariant 1 <= order <= bucketOrder + 1
      invariant Linked(bits, h, Pow2(order - 1))
    {
      var len := Pow2(order - 1);
      var i := 0;
      while i < len
        invariant 0 <= i <= len
        invariant Linked(bits, h, len + i)
      {
        LinkNext(bits, h, order - 1, i);
        var prev := BucketAt(i);
        node := BucketAt(len + i);
        // insert after prev
        h := h[node := Cell(Rev(bits, len + i), Bucket(len + i), 0.0, h[prev].next)];
        h := h[prev := h[prev].(next := Link(node, false, true, false))];
        i := i + 1;
      }
      order := order + 1;
    }
  }

  /** A fresh table, with its buckets and the threads that may use it. */
  function NewTable(bits: nat, order: nat, h: Heap, tids: set<Tid>): State {
    State(bits, h, order, map j: nat | j < Pow2(order) :: BucketAt(j),
          map t | t in tids :: Thread(false, {}, Idle(Nothing)), Steady, map[], {}, {}, {}, {}, multiset{})
  }

  /** What the creation loop builds is an initial state of the table. */
  lemma CreatedIsInitial(bits: nat, order: nat, h: Heap, tids: set<Tid>)
    requires order <= bits && Linked(bits, h, Pow2(order))
    ensures Init(NewTable(bits, order, h, tids))
  {
    hide ListInv, Reach;
    var s := NewTable(bits, order, h, tids);
    assert s.buckets[0] == BucketAt(0);
    assert forall t :: t in s.threads ==> s.threads[t] == Thread(false, {}, Idle(Nothing));
    forall n | n in h
      ensures Live(h, n) && h[n].kind.Bucket? && h[n].rh == RhOf(bits, h[n].kind)
      ensures h[n].kind.index < Pow2(order) && BucketAt(h[n].kind.index) == n
    {
      assert BucketAt(n - 1) == n;
    }
  }
}
