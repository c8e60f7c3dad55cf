/**
 The deferral ring when its owner adds calls while a reclaimer makes them: every
 load and store of a word, of the head and of the tail is one step. Only one
 flush runs at a time (`rcu_defer_mutex`), by the reclaimer thread or by an
 owner that found the ring nearly full and waits for it.
 */
module DeferRace {
  import opened DeferQueue

  /**
   `Decide`: `_defer_rcu` has loaded the tail. `Storing`: it has `left` words
   to store from index `at` on, then it publishes. `Full`: it waits for a
   flush.
   */
  datatype Owner =
    | Idle | Decide(call: Call, seen: nat)
    | Storing(call: Call, left: seq<Word>, at: nat) | Full(call: Call)

  /**
   A flush up to head `h`, with `n` calls to make, at index `i`. `Sync`: it has
   loaded the head; `InGp`: its grace period is under way; `Loop`: at the head
   of the decoding loop; `Fct`, `Data`: inside a call.
   */
  datatype Flusher =
    | Off
    | Sync(i: nat, h: nat, n: nat) | InGp(i: nat, h: nat, n: nat)
    | Loop(i: nat, h: nat, n: nat) | Fct(i: nat, h: nat, n: nat) | Data(i: nat, h: nat, n: nat)

  /**
   `queued` records all calls published so far, `stamps` how many grace periods
   had begun when each was, and `made` the calls made. `begun` counts grace
   periods, and `gp` is the one of the last flush.
   */
  datatype State = State(
    q: seq<Word>, head: nat, tail: nat, lastIn: Word, lastOut: Word, owner: Owner, flusher: Flusher,
    queued: seq<Call>, stamps: seq<nat>, made: seq<Call>, begun: nat, gp: nat)

  predicate Init(s: State) {
    && |s.q| == SIZE && s.head == s.tail == 0 && s.lastIn == s.lastOut && s.owner == Idle && s.flusher == Off
    && s.queued == [] && s.stamps == [] && s.made == [] && s.begun == s.gp == 0
  }

  // ---------- the owner ----------

  predicate LoadTail(s: State, s': State, c: Call) {
    s.owner == Idle && s' == s.(owner := Decide(c, s.tail))
  }

  predicate Choose(s: State, s': State) {
    && s.owner.Decide?
    && s' == if s.head >= s.owner.seen + SIZE - 2 then s.(owner := Full(s.owner.call))
             else s.(owner := Storing(s.owner.call, Encode(s.lastIn, s.owner.call), s.head), lastIn := s.owner.call.fct)
  }

  /** The owner that waited finds the ring empty. */
  predicate Resume(s: State, s': State) {
    && s.owner.Full? && s.flusher == Off && s.head == s.tail
    && s' == s.(owner := Storing(s.owner.call, Encode(s.lastIn, s.owner.call), s.head), lastIn := s.owner.call.fct)
  }

  predicate StoreWord(s: State, s': State) {
    && s.owner.Storing? && s.owner.left != [] && |s.q| == SIZE
    && s' == s.(q := s.q[s.owner.at % SIZE := s.owner.left[0]],
                owner := s.owner.(left := s.owner.left[1..], at := s.owner.at + 1))
  }

  predicate Publish(s: State, s': State) {
    && s.owner.Storing? && s.owner.left == []
    && s' == s.(head := s.owner.at, owner := Idle,
                queued := s.queued + [s.owner.call], stamps := s.stamps + [s.begun])
  }

  // ---------- the flush ----------

  /** Load the head. */
  predicate Start(s: State, s': State) {
    && s.flusher == Off && |s.made| <= |s.queued|
    && s' == s.(flusher := Sync(s.tail, s.head, |s.queued| - |s.made|))
  }

  /** `synchronize_rcu`, which ends at some time. */
  predicate BeginGp(s: State, s': State) {
    && s.flusher.Sync?
    && s' == s.(flusher := InGp(s.flusher.i, s.flusher.h, s.flusher.n), begun := s.begun + 1, gp := s.begun + 1)
  }

  predicate EndGp(s: State, s': State) {
    s.flusher.InGp? && s' == s.(flusher := Loop(s.flusher.i, s.flusher.h, s.flusher.n))
  }

  /** A grace period of somebody else begins. */
  predicate OtherGp(s: State, s': State) { s' == s.(begun := s.begun + 1) }

  function OneLess(n: nat): nat { if n == 0 then 0 else n - 1 }

  function Calls(s: State, c: Call): State { s.(made := s.made + [c]) }

  predicate ReadWord(s: State, s': State) {
    && s.flusher.Loop? && s.flusher.i != s.flusher.h && |s.q| == SIZE
    && var p, f := s.q[s.flusher.i % SIZE], s.flusher;
    && s' == if FctBit(p) then s.(flusher := Data(f.i + 1, f.h, f.n), lastOut := ClearFctBit(p))
             else if p == MARK then s.(flusher := Fct(f.i + 1, f.h, f.n))
             else Calls(s, Call(s.lastOut, p)).(flusher := Loop(f.i + 1, f.h, OneLess(f.n)))
  }

  predicate ReadFct(s: State, s': State) {
    && s.flusher.Fct? && |s.q| == SIZE
    && var p, f := s.q[s.flusher.i % SIZE], s.flusher;
    && s' == s.(flusher := Data(f.i + 1, f.h, f.n), lastOut := p)
  }

  predicate ReadData(s: State, s': State) {
    && s.flusher.Data? && |s.q| == SIZE
    && var p, f := s.q[s.flusher.i % SIZE], s.flusher;
    && s' == Calls(s, Call(s.lastOut, p)).(flusher := Loop(f.i + 1, f.h, OneLess(f.n)))
  }

  predicate StoreTail(s: State, s': State) {
    && s.flusher.Loop? && s.flusher.i == s.flusher.h
    && s' == s.(flusher := Off, tail := s.flusher.i)
  }

  ghost predicate Next(s: State, s': State) {
    || (exists c :: LoadTail(s, s', c)) || Choose(s, s') || Resume(s, s') || StoreWord(s, s') || Publish(s, s')
    || Start(s, s') || BeginGp(s, s') || EndGp(s, s') || OtherGp(s, s')
    || ReadWord(s, s') || ReadFct(s, s') || ReadData(s, s') || StoreTail(s, s')
  }

  ghost predicate Run(r: seq<State>) {
    && |r| > 0 && Init(r[0])
    && forall i :: 0 <= i < |r| - 1 ==> Next(r[i], r[i + 1])
  }

  // ---------- the invariant ----------

  /** The index the next word is read from. */
  function Reading(s: State): nat { if s.flusher.Off? then s.tail else s.flusher.i }

  function Writing(s: State): nat { if s.owner.Storing? then s.owner.at else s.head }

  /** How many words the owner may still store. */
  function Left(s: State): nat { if s.owner.Storing? then |s.owner.left| else 0 }

  /** The calls published and not yet made. */
  function Pending(s: State): seq<Call>
    requires s.made <= s.queued
  {
    s.queued[|s.made|..]
  }

  /** The words from the reading index on, with those of a call begun put back. */
  predicate Front(s: State, w: seq<Word>, pending: seq<Call>) {
    match s.flusher
    case Off => w == EncodeAll(s.lastOut, pending)
    case Sync(_, _, _) => w == EncodeAll(s.lastOut, pending)
    case InGp(_, _, _) => w == EncodeAll(s.lastOut, pending)
    case Loop(_, _, _) => w == EncodeAll(s.lastOut, pending)
    case Fct(_, _, _) =>
      pending != [] && w == [pending[0].fct, pending[0].data] + EncodeAll(pending[0].fct, pending[1..])
    case Data(_, _, _) =>
      && pending != [] && s.lastOut == pending[0].fct
      && w == [pending[0].data] + EncodeAll(pending[0].fct, pending[1..])
  }

  predicate Inv(s: State) {
    && |s.q| == SIZE && s.made <= s.queued
    && s.tail <= Reading(s) <= s.head <= Writing(s) && Writing(s) + Left(s) <= s.tail + SIZE
    && Front(s, Ring(s.q, Reading(s), s.head), Pending(s))
    && OwnerInv(s) && FlushInv(s)
  }

  predicate OwnerInv(s: State)
    requires |s.q| == SIZE && s.head <= Writing(s) && s.made <= s.queued
  {
    match s.owner
    case Idle => s.lastIn == LastFct(s.lastOut, Pending(s))
    case Full(_) => s.lastIn == LastFct(s.lastOut, Pending(s))
    case Decide(_, seen) => s.lastIn == LastFct(s.lastOut, Pending(s)) && seen <= s.tail
    case Storing(c, left, at) =>
      s.lastIn == c.fct && Ring(s.q, s.head, at) + left == Encode(LastFct(s.lastOut, Pending(s)), c)
  }

  /** The snapshot of a flush is the head after the first `n` of the pending calls. */
  predicate FlushInv(s: State)
    requires |s.q| == SIZE && s.made <= s.queued && s.tail <= Reading(s) <= s.head
  {
    !s.flusher.Off? ==>
      && s.flusher.i <= s.flusher.h <= s.head && s.flusher.n <= |Pending(s)|
      && (s.flusher.n == 0 ==> !s.flusher.Fct? && !s.flusher.Data?)
      && Front(s, Ring(s.q, s.flusher.i, s.flusher.h), Pending(s)[..s.flusher.n])
  }

  lemma InitInv(s: State)
    requires Init(s)
    ensures Inv(s)
  {
  }

  lemma MoveInv(s: State, s': State)
    requires Inv(s) && ((exists c :: LoadTail(s, s', c)) || Choose(s, s') || Resume(s, s'))
    ensures Inv(s')
  {
  }

  lemma StartInv(s: State, s': State)
    requires Inv(s) && (Start(s, s') || BeginGp(s, s') || EndGp(s, s') || OtherGp(s, s'))
    ensures Inv(s')
  {
    assert Pending(s)[..|Pending(s)|] == Pending(s);
    hide EncodeAll, Ring, Encode;
  }

  lemma RingKept(q: seq<Word>, from: nat, to: nat, n: nat, x: Word)
    requires |q| == SIZE && from <= to <= n < from + SIZE
    ensures Ring(q[n % SIZE := x], from, to) == Ring(q, from, to)
  {
    forall i | 0 <= i < to - from
      ensures Ring(q[n % SIZE := x], from, to)[i] == Ring(q, from, to)[i]
    {
      SlotsDiffer(from + i, n);
    }
  }

  lemma StoreWordInv(s: State, s': State)
    requires Inv(s) && StoreWord(s, s')
    ensures Inv(s')
  {
    hide EncodeAll, Encode, Ring, LastFct;
    var at, x := s.owner.at, s.owner.left[0];
    RingKept(s.q, Reading(s), s.head, at, x);
    RingStore(s.q, s.head, at, x);
    if !s.flusher.Off? { RingKept(s.q, s.flusher.i, s.flusher.h, at, x); }
    assert s.owner.left == [x] + s.owner.left[1..];
  }

  lemma EncodeMore(last: Word, pending: seq<Call>, c: Call)
    ensures EncodeAll(last, pending + [c]) == EncodeAll(last, pending) + Encode(LastFct(last, pending), c)
  {
    var l := LastFct(last, pending);
    assert EncodeAll(l, [c]) == Encode(l, c) + [];
    EncodeConcat(last, pending, [c]);
  }

  lemma FrontMore(s: State, w: seq<Word>, pending: seq<Call>, c: Call)
    requires Front(s, w, pending)
    ensures Front(s, w + Encode(LastFct(s.lastOut, pending), c), pending + [c])
  {
    hide EncodeAll, Encode;
    EncodeMore(s.lastOut, pending, c);
    if pending != [] {
      EncodeMore(pending[0].fct, pending[1..], c);
      LastOfRest(s.lastOut, pending);
      assert (pending + [c])[1..] == pending[1..] + [c];
      hide LastFct;
      var e, more := EncodeAll(pending[0].fct, pending[1..]), Encode(LastFct(s.lastOut, pending), c);
      assert [pending[0].fct, pending[0].data] + e + more == [pending[0].fct, pending[0].data] + (e + more);
      assert [pending[0].data] + e + more == [pending[0].data] + (e + more);
    }
  }

  lemma PublishInv(s: State, s': State)
    requires Inv(s) && Publish(s, s')
    ensures Inv(s')
  {
    var c := s.owner.call;
    assert s.owner.left == [];
    assert Ring(s.q, s.head, s.owner.at) == Encode(LastFct(s.lastOut, Pending(s)), c);
    FrontMore(s, Ring(s.q, Reading(s), s.head), Pending(s), c);
    RingCut(s.q, Reading(s), s.head, s.owner.at);
    assert Pending(s') == Pending(s) + [c];
    if !s.flusher.Off? { assert Pending(s')[..s.flusher.n] == Pending(s)[..s.flusher.n]; }
    hide EncodeAll, Encode, Ring;
  }

  /** One word off the front. */
  lemma RingRest(q: seq<Word>, from: nat, to: nat)
    requires |q| == SIZE && from < to
    ensures Ring(q, from, to)[0] == q[from % SIZE] && Ring(q, from + 1, to) == Ring(q, from, to)[1..]
  {
    RingCut(q, from, from + 1, to);
  }

  /** How the front of the encoded calls looks when its first word is read. */
  lemma FirstWord(last: Word, w: seq<Word>, p: seq<Call>)
    requires w == EncodeAll(last, p) && w != []
    ensures p != []
    ensures FctBit(w[0]) ==> ClearFctBit(w[0]) == p[0].fct && w[1..] == [p[0].data] + EncodeAll(p[0].fct, p[1..])
    ensures !FctBit(w[0]) && w[0] == MARK ==> w[1..] == [p[0].fct, p[0].data] + EncodeAll(p[0].fct, p[1..])
    ensures !FctBit(w[0]) && w[0] != MARK ==> Call(last, w[0]) == p[0] && w[1..] == EncodeAll(p[0].fct, p[1..])
  {
    FrontOf(last, w, p);
    var n := |Encode(last, p[0])|;
    if n == 2 { assert w[1..] == [w[1]] + w[2..]; }
    if n == 3 { assert w[1..] == [w[1], w[2]] + w[3..]; }
  }

  lemma ReadWordInv(s: State, s': State)
    requires Inv(s) && ReadWord(s, s')
    ensures Inv(s')
  {
    hide EncodeAll, Encode, Ring, LastFct;
    var f, p := s.flusher, Pending(s);
    RingRest(s.q, f.i, f.h);
    RingRest(s.q, f.i, s.head);
    var w := s.q[f.i % SIZE];
    FirstWord(s.lastOut, Ring(s.q, f.i, f.h), p[..f.n]);
    FirstWord(s.lastOut, Ring(s.q, f.i, s.head), p);
    NextPending(s, s', f.n);
    if FctBit(w) {
      assert Front(s', Ring(s.q, f.i + 1, f.h), p[..f.n]);
    } else if w == MARK {
      assert Front(s', Ring(s.q, f.i + 1, f.h), p[..f.n]);
    } else {
      assert Pending(s') == p[1..];
      assert Front(s', Ring(s.q, f.i + 1, f.h), Pending(s')[..f.n - 1]);
    }
  }

  /** Making the first pending call. */
  lemma NextPending(s: State, s': State, n: nat)
    requires s.made <= s.queued && Pending(s) != [] && 0 < n <= |Pending(s)| && s'.queued == s.queued
    ensures Pending(s)[..n] != [] && Pending(s)[..n][0] == Pending(s)[0]
    ensures Pending(s)[..n][1..] == Pending(s)[1..][..n - 1]
    ensures s'.made == s.made + [Pending(s)[0]] ==> s'.made <= s'.queued && Pending(s') == Pending(s)[1..]
    ensures forall x: Word, y: Word :: LastFct(x, Pending(s)) == LastFct(y, Pending(s))
    ensures forall x: Word :: LastFct(Pending(s)[0].fct, Pending(s)[1..]) == LastFct(x, Pending(s))
  {
  }

  lemma ReadFctInv(s: State, s': State)
    requires Inv(s) && ReadFct(s, s')
    ensures Inv(s')
  {
    var f, p := s.flusher, Pending(s);
    RingRest(s.q, f.i, f.h);
    RingRest(s.q, f.i, s.head);
    NextPending(s, s', f.n);
    hide EncodeAll, Encode, Ring;
    CutFront(p[0].fct, p[0].data, EncodeAll(p[0].fct, p[1..]));
    CutFront(p[0].fct, p[0].data, EncodeAll(p[0].fct, p[..f.n][1..]));
  }

  lemma CutFront(a: Word, b: Word, w: seq<Word>)
    ensures ([a, b] + w)[0] == a && ([a, b] + w)[1..] == [b] + w
    ensures ([b] + w)[0] == b && ([b] + w)[1..] == w
  {
  }

  lemma ReadDataInv(s: State, s': State)
    requires Inv(s) && ReadData(s, s')
    ensures Inv(s')
  {
    hide EncodeAll, Encode, Ring, LastFct;
    var f, p := s.flusher, Pending(s);
    RingRest(s.q, f.i, f.h);
    RingRest(s.q, f.i, s.head);
    NextPending(s, s', f.n);
    CutFront(p[0].fct, p[0].data, EncodeAll(p[0].fct, p[1..]));
    CutFront(p[0].fct, p[0].data, EncodeAll(p[0].fct, p[..f.n][1..]));
    assert Pending(s') == p[1..];
    assert Front(s', Ring(s.q, f.i + 1, f.h), Pending(s')[..f.n - 1]);
  }

  lemma StoreTailInv(s: State, s': State)
    requires Inv(s) && StoreTail(s, s')
    ensures Inv(s')
  {
  }

  lemma NextInv(s: State, s': State)
    requires Inv(s) && Next(s, s')
    ensures Inv(s')
  {
    hide Inv;
    if StoreWord(s, s') { StoreWordInv(s, s'); }
    else if Publish(s, s') { PublishInv(s, s'); }
    else if Start(s, s') || BeginGp(s, s') || EndGp(s, s') || OtherGp(s, s') { StartInv(s, s'); }
    else if ReadWord(s, s') { ReadWordInv(s, s'); }
    else if ReadFct(s, s') { ReadFctInv(s, s'); }
    else if ReadData(s, s') { ReadDataInv(s, s'); }
    else if StoreTail(s, s') { StoreTailInv(s, s'); }
    else { MoveInv(s, s'); }
  }

  lemma {:induction false} RunInv(r: seq<State>, i: nat)
    requires Run(r) && i < |r|
    ensures Inv(r[i])
  {
    hide Inv, Next;
    if i == 0 {
      InitInv(r[0]);
    } else {
      RunInv(r, i - 1);
      NextInv(r[i - 1], r[i]);
    }
  }

  // ---------- grace periods ----------

  /** The grace period of the flush began after the calls it is to make were queued. */
  predicate StampInv(s: State) {
    && |s.stamps| == |s.queued| && s.gp <= s.begun && (forall j :: 0 <= j < |s.stamps| ==> s.stamps[j] <= s.begun)
    && (!s.flusher.Off? ==> |s.made| + s.flusher.n <= |s.queued|)
    && (!s.flusher.Off? && !s.flusher.Sync? ==>
          forall j :: 0 <= j < |s.stamps| && j < |s.made| + s.flusher.n ==> s.stamps[j] < s.gp)
  }

  /** What steps do to the records of grace periods. */
  lemma StampFrame(s: State, s': State)
    requires Next(s, s')
    ensures s.begun <= s'.begun
    ensures || (s'.stamps == s.stamps && s'.queued == s.queued)
            || (s'.stamps == s.stamps + [s.begun] && |s'.queued| == |s.queued| + 1)
    ensures s'.gp == s.gp || (s.flusher.Sync? && s'.flusher.InGp? && s'.gp == s.begun + 1 <= s'.begun)
    ensures s.flusher.Off? ==> s'.flusher.Off? || s'.flusher.Sync?
    ensures s.flusher.Sync? ==> s'.flusher.Sync? || (s'.flusher.InGp? && s'.gp == s.begun + 1)
  {
  }

  lemma StampKept(s: State, s': State)
    requires Inv(s) && Next(s, s') && StampInv(s)
    ensures StampInv(s')
  {
    StampFrame(s, s');
    CallsCounted(s, s');
    hide Inv, Next;
  }

  lemma {:induction false} RunStamp(r: seq<State>, i: nat)
    requires Run(r) && i < |r|
    ensures StampInv(r[i])
  {
    hide Inv, Next, StampInv;
    if i == 0 {
      FirstStamp(r[0]);
    } else {
      RunStamp(r, i - 1);
      RunInv(r, i - 1);
      StampKept(r[i - 1], r[i]);
    }
  }

  lemma FirstStamp(s: State)
    requires Init(s)
    ensures StampInv(s)
  {
  }

  // ---------- theorems ----------

  lemma {:induction false} StampedSince(r: seq<State>, j: nat, i: nat)
    requires Run(r) && j <= i < |r|
    ensures |r[j].queued| <= |r[i].queued| == |r[i].stamps| && r[j].begun <= r[i].begun
    ensures forall k :: |r[j].queued| <= k < |r[i].stamps| ==> r[j].begun <= r[i].stamps[k]
    decreases i
  {
    hide Next, Inv;
    RunStamp(r, i);
    if j < i {
      StampedSince(r, j, i - 1);
      assert Next(r[i - 1], r[i - 1 + 1]);
      StampFrame(r[i - 1], r[i]);
    }
  }

  /**
   The call a flush is about to make was queued before the grace period of the
   flush began, and that has ended: every state in which it was not yet queued
   precedes the beginning.
   */
  lemma MadeAfterGracePeriod(r: seq<State>, i: nat)
    requires Run(r) && i < |r| && (r[i].flusher.Loop? || r[i].flusher.Fct? || r[i].flusher.Data?)
    requires r[i].flusher.i != r[i].flusher.h
    ensures |r[i].made| < |r[i].stamps| == |r[i].queued| && r[i].stamps[|r[i].made|] < r[i].gp <= r[i].begun
    ensures forall j :: 0 <= j <= i && |r[j].queued| <= |r[i].made| ==> r[j].begun < r[i].gp
  {
    RunStamp(r, i);
    RunInv(r, i);
    hide Next, Inv;
    var k := |r[i].made|;
    assert k < |r[i].stamps| && r[i].stamps[k] < r[i].gp;
    forall j | 0 <= j <= i && |r[j].queued| <= k
      ensures r[j].begun < r[i].gp
    {
      StampedSince(r, j, i);
      assert r[j].begun <= r[i].stamps[k];
    }
  }

  /** The calls made are the calls queued, in their order, from the first on. */
  lemma MadeInOrder(r: seq<State>, i: nat)
    requires Run(r) && i < |r|
    ensures r[i].made <= r[i].queued
  {
    RunInv(r, i);
  }

  /**
   The words in use, those being stored included, never exceed the ring: no
   slot is stored to before it has been read and the tail moved on.
   */
  lemma NoUnreadSlotOverwritten(r: seq<State>, i: nat)
    requires Run(r) && i < |r| && r[i].owner.Storing? && r[i].owner.left != []
    ensures r[i].tail <= r[i].head <= r[i].owner.at < r[i].tail + SIZE
    ensures forall k :: r[i].tail <= k < r[i].owner.at ==> k % SIZE != r[i].owner.at % SIZE
  {
    RunInv(r, i);
    forall k | r[i].tail <= k < r[i].owner.at
      ensures k % SIZE != r[i].owner.at % SIZE
    {
      SlotsDiffer(k, r[i].owner.at);
    }
  }

  /**
   A flush reads whole calls: it never runs past the head it read, and when it
   stores the tail it has made all the calls queued before it started.
   */
  lemma FlushEndsOnHead(r: seq<State>, i: nat)
    requires Run(r) && i < |r| && !r[i].flusher.Off?
    ensures r[i].flusher.i <= r[i].flusher.h <= r[i].head
    ensures r[i].flusher.i == r[i].flusher.h ==>
              r[i].flusher.n == 0 && !r[i].flusher.Fct? && !r[i].flusher.Data?
  {
    RunInv(r, i);
  }

  /** With nothing in use, every queued call has been made. */
  lemma EmptyRingAllMade(r: seq<State>, i: nat)
    requires Run(r) && i < |r| && r[i].flusher.Off? && r[i].head == r[i].tail
    ensures r[i].made == r[i].queued
  {
    RunInv(r, i);
    var s := r[i];
    NothingLeft(s.q, s.head, s.lastOut, Pending(s));
  }

  lemma CallsCounted(s: State, s': State)
    requires Inv(s) && Next(s, s')
    ensures s.made <= s'.made && s.queued <= s'.queued
    ensures !s.flusher.Off? && !s'.flusher.Off? ==>
              s'.flusher.h == s.flusher.h && s'.flusher.n + |s'.made| == s.flusher.n + |s.made|
    ensures s.flusher.Off? && !s'.flusher.Off? ==> s'.flusher.n + |s'.made| == |s.queued|
  {
    hide EncodeAll, Encode, Ring, LastFct;
    if ReadWord(s, s') {
      assert |Ring(s.q, s.flusher.i, s.flusher.h)| > 0;
      FirstWord(s.lastOut, Ring(s.q, s.flusher.i, s.flusher.h), Pending(s)[..s.flusher.n]);
    }
  }

  lemma {:induction false} FlushCounts(r: seq<State>, b: nat, e: nat)
    requires Run(r) && b < e < |r| && Start(r[b], r[b + 1]) && forall i :: b < i <= e ==> !r[i].flusher.Off?
    ensures r[e].flusher.n + |r[e].made| == |r[b].queued|
  {
    hide Inv, Next, Start;
    if e == b + 1 {
      RunInv(r, b);
      assert Next(r[b], r[b + 1]);
      assert r[b].flusher.Off? by { StartsOff(r[b], r[b + 1]); }
      CallsCounted(r[b], r[b + 1]);
    } else {
      FlushCounts(r, b, e - 1);
      RunInv(r, e - 1);
      assert Next(r[e - 1], r[e]);
      CallsCounted(r[e - 1], r[e]);
    }
  }

  lemma StartsOff(s: State, s': State)
    requires Start(s, s')
    ensures s.flusher.Off?
  {
  }

  /**
   A flush that started in state `b` and is about to end in state `e` has made
   every call queued by `b`, and exactly those since.
   */
  lemma FlushMakesAllBefore(r: seq<State>, b: nat, e: nat)
    requires Run(r) && b + 1 < e + 1 < |r| && Start(r[b], r[b + 1]) && (forall i :: b < i <= e ==> !r[i].flusher.Off?)
    requires StoreTail(r[e], r[e + 1])
    ensures |r[b].queued| <= |r[e].queued| && r[e].made == r[e].queued[..|r[b].queued|]
  {
    RunInv(r, e);
    FlushCounts(r, b, e);
    FlushEndsOnHead(r, e);
  }

  lemma WaitsForFlush(s: State, s': State)
    requires Next(s, s') && s.owner.Full? && s'.owner.Full?
    ensures s'.head == s.head
    ensures !s.flusher.Off? && !s'.flusher.Off? ==> s'.flusher.h == s.flusher.h
    ensures s.flusher.Off? && !s'.flusher.Off? ==> s'.flusher.h == s.head
  {
  }

  lemma {:induction false} FlushOfFullRing(r: seq<State>, b: nat, e: nat)
    requires Run(r) && b < e < |r| && Start(r[b], r[b + 1])
    requires forall i :: b < i <= e ==> !r[i].flusher.Off?
    requires forall i :: b <= i <= e ==> r[i].owner.Full?
    ensures r[e].flusher.h == r[e].head
  {
    hide Next, Start;
    StartsOff(r[b], r[b + 1]);
    if e > b + 1 { FlushOfFullRing(r, b, e - 1); }
    assert Next(r[e - 1], r[e]);
    WaitsForFlush(r[e - 1], r[e]);
  }

  /** A flush during which the owner waits leaves the ring empty, as the owner asserts. */
  lemma FullOwnerFindsEmptyRing(r: seq<State>, b: nat, e: nat)
    requires Run(r) && b + 1 < e + 1 < |r| && Start(r[b], r[b + 1]) && StoreTail(r[e], r[e + 1])
    requires forall i :: b < i <= e ==> !r[i].flusher.Off?
    requires forall i :: b <= i <= e ==> r[i].owner.Full?
    ensures r[e + 1].head == r[e + 1].tail
  {
    FlushOfFullRing(r, b, e);
  }
}
