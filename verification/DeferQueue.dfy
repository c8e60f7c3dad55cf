/**
 The per-thread queue of deferred calls: a ring of pointer-sized words in which
 a call takes one word if its function is that of the previous call, two if it
 changes the function, and three if the function or the data could be taken
 for an encoding mark. The head is published after the words of a call, so
 a reclaimer that reads it always sees whole calls.
 */
module DeferQueue {

  type Word = x: nat | x < 0x1_0000_0000_0000_0000

  // DEFER_QUEUE_SIZE
  const SIZE: nat := 4096
  // DQ_FCT_MARK, which is ~DQ_FCT_BIT
  const MARK: Word := 0xFFFF_FFFF_FFFF_FFFE

  datatype Call = Call(fct: Word, data: Word)

  /** `DQ_IS_FCT_BIT` */
  predicate FctBit(x: Word) { x % 2 == 1 }

  function SetFctBit(x: Word): Word { if FctBit(x) then x else x + 1 }

  function ClearFctBit(x: Word): Word { if FctBit(x) then x - 1 else x }

  // ---------- the encoding ----------

  /** The words of one call, when `last` is the function of the call before. */
  function Encode(last: Word, c: Call): (r: seq<Word>)
    ensures 1 <= |r| <= 3
  {
    if last != c.fct || FctBit(c.data) || c.data == MARK then
      if FctBit(c.fct) || c.fct == MARK then [MARK, c.fct, c.data] else [SetFctBit(c.fct), c.data]
    else [c.data]
  }

  function EncodeAll(last: Word, calls: seq<Call>): seq<Word>
    decreases |calls|
  {
    if calls == [] then [] else Encode(last, calls[0]) + EncodeAll(calls[0].fct, calls[1..])
  }

  /** The function of the last of `calls`, or the one before them. */
  function LastFct(last: Word, calls: seq<Call>): Word {
    if calls == [] then last else calls[|calls| - 1].fct
  }

  datatype Option<T> = None | Some(value: T)

  /** One round of the decoding loop: the call, and how many words it took. */
  function DecodeOne(last: Word, w: seq<Word>): Option<(Call, nat)>
    requires w != []
  {
    if FctBit(w[0]) then
      if |w| < 2 then None else Some((Call(ClearFctBit(w[0]), w[1]), 2))
    else if w[0] == MARK then
      if |w| < 3 then None else Some((Call(w[1], w[2]), 3))
    else Some((Call(last, w[0]), 1))
  }

  function Decode(last: Word, w: seq<Word>): Option<seq<Call>>
    decreases |w|
  {
    if w == [] then Some([]) else
    var one := DecodeOne(last, w);
    if one.None? then None else
    var rest := Decode(one.value.0.fct, w[one.value.1..]);
    if rest.None? then None else Some([one.value.0] + rest.value)
  }

  /** Whatever follows it, the words of a call are read back as that call. */
  lemma DecodeEncode(last: Word, c: Call, rest: seq<Word>)
    ensures DecodeOne(last, Encode(last, c) + rest) == Some((c, |Encode(last, c)|))
  {
    var w := Encode(last, c) + rest;
    if FctBit(w[0]) && |Encode(last, c)| == 2 { assert ClearFctBit(SetFctBit(c.fct)) == c.fct; }
  }

  /** In front of encoded calls, a decoding round finds the first one and leaves the others. */
  lemma FrontOf(last: Word, w: seq<Word>, calls: seq<Call>)
    requires w == EncodeAll(last, calls) && w != []
    ensures calls != []
    ensures var n: nat := |Encode(last, calls[0])|;
            DecodeOne(last, w) == Some((calls[0], n)) && n <= |w| && w[n..] == EncodeAll(calls[0].fct, calls[1..])
  {
    DecodeEncode(last, calls[0], EncodeAll(calls[0].fct, calls[1..]));
  }

  /** Decoding undoes encoding, for every sequence of calls, odd pointers and marks included. */
  lemma {:induction false} RoundTrip(last: Word, calls: seq<Call>)
    ensures Decode(last, EncodeAll(last, calls)) == Some(calls)
    decreases |calls|
  {
    if calls != [] {
      var c := calls[0];
      var rest := EncodeAll(c.fct, calls[1..]);
      DecodeEncode(last, c, rest);
      RoundTrip(c.fct, calls[1..]);
      assert (Encode(last, c) + rest)[|Encode(last, c)|..] == rest;
      assert calls == [c] + calls[1..];
    }
  }

  /** Two sequences of calls with the same words are the same. */
  lemma Unambiguous(last: Word, a: seq<Call>, b: seq<Call>)
    requires EncodeAll(last, a) == EncodeAll(last, b)
    ensures a == b
  {
    RoundTrip(last, a);
    RoundTrip(last, b);
  }

  /** The words can be cut between any two calls. */
  lemma {:induction false} EncodeConcat(last: Word, a: seq<Call>, b: seq<Call>)
    ensures EncodeAll(last, a + b) == EncodeAll(last, a) + EncodeAll(LastFct(last, a), b)
    decreases |a|
  {
    if a == [] {
      assert a + b == b;
    } else {
      assert (a + b)[1..] == a[1..] + b;
      EncodeConcat(a[0].fct, a[1..], b);
    }
  }

  // ---------- the ring ----------

  /** The words of the ring from index `from` up to `to`. */
  function Ring(q: seq<Word>, from: nat, to: nat): (r: seq<Word>)
    requires |q| == SIZE && from <= to
    ensures |r| == to - from
  {
    seq(to - from, i requires 0 <= i < to - from => q[(from + i) % SIZE])
  }

  /** Indices less than the size of the ring apart fall on different slots. */
  lemma SlotsDiffer(i: nat, j: nat)
    requires i < j < i + SIZE
    ensures i % SIZE != j % SIZE
  {
  }

  lemma RingStore(q: seq<Word>, from: nat, to: nat, x: Word)
    requires |q| == SIZE && from <= to < from + SIZE
    ensures Ring(q[to % SIZE := x], from, to + 1) == Ring(q, from, to) + [x]
  {
    var r := Ring(q[to % SIZE := x], from, to + 1);
    forall i | 0 <= i < to - from
      ensures r[i] == Ring(q, from, to)[i]
    {
      SlotsDiffer(from + i, to);
    }
  }

  lemma RingCut(q: seq<Word>, from: nat, mid: nat, to: nat)
    requires |q| == SIZE && from <= mid <= to
    ensures Ring(q, from, to) == Ring(q, from, mid) + Ring(q, mid, to)
  {
  }

  /** Where the head was after the first `k` calls, the ring is cut between these and the later ones. */
  lemma RingPublished(q: seq<Word>, tail: nat, head: nat, last: Word, calls: seq<Call>, h: nat, k: nat)
    requires |q| == SIZE && tail <= head && Ring(q, tail, head) == EncodeAll(last, calls)
    requires k <= |calls| && h == tail + |EncodeAll(last, calls[..k])|
    ensures h <= head && Ring(q, tail, h) == EncodeAll(last, calls[..k])
    ensures Ring(q, h, head) == EncodeAll(LastFct(last, calls[..k]), calls[k..])
    ensures LastFct(LastFct(last, calls[..k]), calls[k..]) == LastFct(last, calls)
  {
    EncodeConcat(last, calls[..k], calls[k..]);
    assert calls[..k] + calls[k..] == calls;
    RingCut(q, tail, h, head);
    assert Ring(q, tail, h) == Ring(q, tail, head)[..h - tail];
    assert Ring(q, h, head) == Ring(q, tail, head)[h - tail..];
  }

  lemma LastOfRest(last: Word, rest: seq<Call>)
    requires rest != []
    ensures LastFct(rest[0].fct, rest[1..]) == LastFct(last, rest)
  {
  }

  lemma Shift(done: seq<Call>, rest: seq<Call>)
    requires rest != []
    ensures done + rest == done + [rest[0]] + rest[1..]
  {
  }

  lemma NothingLeft(q: seq<Word>, h: nat, last: Word, calls: seq<Call>)
    requires |q| == SIZE && Ring(q, h, h) == EncodeAll(last, calls)
    ensures calls == [] && LastFct(last, calls) == last
  {
  }

  class Queue {
    var head: nat
    var tail: nat
    var lastIn: Word
    var lastOut: Word
    var q: array<Word>
    /** The head that `rcu_defer_barrier` read before its grace period. */
    var lastHead: nat
    /** The calls queued and not yet made. */
    ghost var pending: seq<Call>

    ghost predicate Valid()
      reads this, q
    {
      && q.Length == SIZE && tail <= head <= tail + SIZE
      && Ring(q[..], tail, head) == EncodeAll(lastOut, pending)
      && lastIn == LastFct(lastOut, pending)
    }

    /** `h` is a value the head had after the first `k` pending calls were queued. */
    ghost predicate Published(h: nat, k: nat)
      reads this, q
    {
      k <= |pending| && h == tail + |EncodeAll(lastOut, pending[..k])|
    }

    /** `rcu_defer_register_thread` allocates the ring. */
    constructor ()
      ensures Valid() && fresh(q) && pending == []
    {
      head, tail, lastIn, lastOut, lastHead := 0, 0, 0, 0, 0;
      q := new Word[SIZE](_ => 0);
      pending := [];
    }

    /** The body of the decoding loop: read the words of the first of the calls `rest`. */
    method ReadCall(i: nat, h: nat, ghost rest: seq<Call>) returns (c: Call, i': nat)
      requires q.Length == SIZE && i < h && Ring(q[..], i, h) == EncodeAll(lastOut, rest)
      modifies this`lastOut
      ensures i < i' <= h && rest != [] && c == rest[0] && lastOut == c.fct
      ensures Ring(q[..], i', h) == EncodeAll(c.fct, rest[1..])
    {
      ghost var w := Ring(q[..], i, h);
      FrontOf(lastOut, w, rest);
      var p := q[i % SIZE];
      assert p == w[0];
      i' := i + 1;
      if FctBit(p) {
        lastOut := ClearFctBit(p);
        p := q[i' % SIZE];
        assert p == w[1];
        i' := i' + 1;
      } else if p == MARK {
        p := q[i' % SIZE];
        assert p == w[1];
        i' := i' + 1;
        lastOut := p;
        p := q[i' % SIZE];
        assert p == w[2];
        i' := i' + 1;
      }
      c := Call(lastOut, p);
      RingCut(q[..], i, i', h);
      assert Ring(q[..], i', h) == w[i' - i..];
    }

    /** The decoding loop of `rcu_defer_barrier_queue`, over the calls `todo` up to index `h`. */
    method MakeCalls(h: nat, ghost todo: seq<Call>) returns (calls: seq<Call>)
      requires q.Length == SIZE && tail <= h && Ring(q[..], tail, h) == EncodeAll(lastOut, todo)
      modifies this`lastOut
      ensures calls == todo && lastOut == LastFct(old(lastOut), todo)
    {
      calls := [];
      ghost var words, last, rest := q[..], LastFct(lastOut, todo), todo;
      hide EncodeAll, Ring, LastFct;
      var i := tail;
      while i != h
        invariant i <= h && todo == calls + rest
        invariant Ring(words, i, h) == EncodeAll(lastOut, rest) && LastFct(lastOut, rest) == last
        decreases h - i
      {
        var c;
        c, i := ReadCall(i, h, rest);
        LastOfRest(lastOut, rest);
        Shift(calls, rest);
        calls := calls + [c];
        rest := rest[1..];
      }
      NothingLeft(words, h, lastOut, rest);
    }

    /** `rcu_defer_barrier_queue`: after a grace period, make the calls up to a head read before it. */
    method BarrierQueue(h: nat, ghost k: nat) returns (calls: seq<Call>)
      requires Valid() && Published(h, k)
      modifies this`tail, this`lastOut, this`pending
      ensures Valid() && tail == h
      ensures calls == old(pending)[..k] && pending == old(pending)[k..]
    {
      RingPublished(q[..], tail, head, lastOut, pending, h, k);
      hide EncodeAll, Ring, LastFct;
      calls := MakeCalls(h, pending[..k]);
      tail := h;
      pending := pending[k..];
    }

    /** `rcu_defer_barrier_thread` */
    method BarrierThread() returns (calls: seq<Call>)
      requires Valid()
      modifies this`tail, this`lastOut, this`pending
      ensures Valid() && tail == head && calls == old(pending) && pending == []
    {
      var h := head;
      assert pending[..|pending|] == pending;
      if h - tail == 0 {
        assert pending == [];
        return [];
      }
      calls := BarrierQueue(h, |pending|);
    }

    /** Flush up to the head read before. */
    method BarrierAll() returns (calls: seq<Call>)
      requires Valid() && lastHead == head
      modifies this`tail, this`lastOut, this`pending
      ensures Valid() && calls == old(pending) && pending == []
    {
      assert pending[..|pending|] == pending;
      calls := BarrierQueue(lastHead, |pending|);
    }

    method Store(x: Word)
      requires Valid0() && head < tail + SIZE
      modifies this`head, q
      ensures Valid0() && head == old(head) + 1
      ensures Ring(q[..], tail, head) == old(Ring(q[..], tail, head)) + [x]
    {
      RingStore(q[..], tail, head, x);
      q[head % SIZE] := x;
      head := head + 1;
    }

    ghost predicate Valid0()
      reads this
    {
      q.Length == SIZE && tail <= head <= tail + SIZE
    }

    /** The words of one call, the last of them the data. */
    method Write(fct: Word, data: Word)
      requires Valid0() && head + 3 <= tail + SIZE
      modifies this`head, this`lastIn, q
      ensures Valid0() && lastIn == fct
      ensures Ring(q[..], tail, head) == old(Ring(q[..], tail, head)) + Encode(old(lastIn), Call(fct, data))
    {
      if lastIn != fct || FctBit(data) || data == MARK {
        lastIn := fct;
        if FctBit(fct) || fct == MARK {
          Store(MARK);
          Store(fct);
        } else {
          Store(SetFctBit(fct));
        }
      }
      Store(data);
    }

    /** `_defer_rcu`. With room for less than three words, it makes all pending calls first. */
    method Defer(fct: Word, data: Word) returns (flushed: seq<Call>)
      requires Valid()
      modifies this`head, this`tail, this`lastIn, this`lastOut, this`pending, q
      ensures Valid()
      ensures old(head - tail) >= SIZE - 2 ==> flushed == old(pending) && pending == [Call(fct, data)]
      ensures old(head - tail) < SIZE - 2 ==> flushed == [] && pending == old(pending) + [Call(fct, data)]
      ensures old(head - tail) < SIZE - 2 ==> forall h, k: nat :: old(Published(h, k)) ==> Published(h, k)
    {
      flushed := [];
      if head - tail >= SIZE - 2 {
        flushed := BarrierThread();
        assert head - tail == 0;
      }
      EncodeConcat(lastOut, pending, [Call(fct, data)]);
      assert EncodeAll(lastIn, [Call(fct, data)]) == Encode(lastIn, Call(fct, data)) + [];
      Write(fct, data);
      assert forall k: nat :: k <= |pending| ==> (pending + [Call(fct, data)])[..k] == pending[..k];
      pending := pending + [Call(fct, data)];
    }
  }

  ghost predicate AllValid(registry: seq<Queue>)
    reads registry, set i | 0 <= i < |registry| :: registry[i].q
  {
    && (forall i :: 0 <= i < |registry| ==> registry[i].Valid())
    && (forall i, j :: 0 <= i < j < |registry| ==> registry[i] != registry[j])
  }

  lemma EmptyRing(queue: Queue)
    requires queue.Valid() && queue.head == queue.tail
    ensures queue.pending == []
  {
  }

  /** The first half of `rcu_defer_barrier`: read all heads and count the words. */
  method ReadHeads(registry: seq<Queue>) returns (items: nat)
    requires AllValid(registry)
    modifies set i | 0 <= i < |registry| :: registry[i]`lastHead
    ensures AllValid(registry)
    ensures forall i :: 0 <= i < |registry| ==> registry[i].lastHead == registry[i].head
    ensures items == 0 ==> forall i :: 0 <= i < |registry| ==> registry[i].pending == []
  {
    items := 0;
    for n := 0 to |registry|
      invariant AllValid(registry)
      invariant forall i :: 0 <= i < n ==> registry[i].lastHead == registry[i].head
      invariant items == 0 ==> forall i :: 0 <= i < n ==> registry[i].pending == []
    {
      registry[n].lastHead := registry[n].head;
      if registry[n].head == registry[n].tail { EmptyRing(registry[n]); }
      items := items + (registry[n].lastHead - registry[n].tail);
    }
  }

  /** `rcu_defer_barrier`: with nothing queued it skips the grace period, else it flushes each queue up to its head. */
  method DeferBarrier(registry: seq<Queue>) returns (made: seq<seq<Call>>)
    requires AllValid(registry)
    modifies registry
    ensures AllValid(registry) && |made| == |registry|
    ensures forall i :: 0 <= i < |registry| ==> registry[i].pending == [] && made[i] == old(registry[i].pending)
  {
    var items := ReadHeads(registry);
    if items == 0 {
      return seq(|registry|, _ => []);
    }
    made := [];
    for n := 0 to |registry|
      invariant AllValid(registry)
      invariant forall i :: n <= i < |registry| ==>
                  registry[i].pending == old(registry[i].pending) && registry[i].lastHead == registry[i].head
      invariant |made| == n
      invariant forall i :: 0 <= i < n ==> registry[i].pending == [] && made[i] == old(registry[i].pending)
    {
      var calls := registry[n].BarrierAll();
      made := made + [calls];
    }
  }
}
