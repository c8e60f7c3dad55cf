/**
 `synchronize_rcu` as a whole: callers that share grace periods (`GpBatching`)
 and the detection of each grace period (`GracePeriod`) run together. The leader
 of a batch pops the stack, runs one grace period, and only then wakes its
 batch; readers go on all the time.
 */
module Synchronize {
  import B = GpBatching
  import G = GracePeriod

  /** Where the leader is: no leader at work, stack popped, grace period under way, grace period over. */
  datatype Phase = Quiet | Popped | Running | Over

  datatype State = State(b: B.State, g: G.State, phase: Phase)

  predicate Init(s: State) { B.Init(s.b) && G.Init(s.g) && s.phase == Quiet }

  // ---------- steps ----------

  /** A step of the callers other than the two that enclose the grace period. */
  ghost predicate CallerStep(b: B.State, b': B.State) {
    || B.Push(b, b')
    || exists c :: B.JoinStep(b, b', c) || B.LeadMove(b, b', c) || B.FetchMove(b, b', c) || B.CheckMove(b, b', c)
                   || B.WakeMove(b, b', c)
  }

  /** A step of the readers, or of the writer inside its grace period. */
  ghost predicate DetectStep(g: G.State, g': G.State) {
    || (exists t :: G.ReaderStep(g, g', t) || G.Classify(g, g', t))
    || G.WaitStep(g, g') || G.SwitchPhase(g, g')
  }

  predicate Pop(s: State, s': State, c: B.Id) {
    s.phase == Quiet && B.PopAll(s.b, s'.b, c) && s' == s.(b := s'.b, phase := Popped)
  }

  predicate Begin(s: State, s': State) {
    s.phase == Popped && G.Begin(s.g, s'.g) && s' == s.(g := s'.g, phase := Running)
  }

  predicate Finish(s: State, s': State) {
    s.phase == Running && G.Finish(s.g, s'.g) && s' == s.(g := s'.g, phase := Over)
  }

  predicate End(s: State, s': State, c: B.Id) {
    s.phase == Over && B.EndGp(s.b, s'.b, c) && s' == s.(b := s'.b, phase := Quiet)
  }

  ghost predicate Next(s: State, s': State) {
    || (CallerStep(s.b, s'.b) && s' == s.(b := s'.b))
    || (DetectStep(s.g, s'.g) && s' == s.(g := s'.g))
    || (exists c :: Pop(s, s', c) || End(s, s', c))
    || Begin(s, s') || Finish(s, s')
  }

  ghost predicate Run(r: seq<State>) {
    && |r| > 0 && Init(r[0])
    && forall i :: 0 <= i < |r| - 1 ==> Next(r[i], r[i + 1])
  }

  // ---------- the invariant ----------

  ghost predicate Inv(s: State) {
    && B.Inv(s.b) && G.Inv(s.g)
    && (s.phase == Quiet <==> s.b.begun == s.b.ended)
    && (s.phase == Running <==> !s.g.w.Off?)
  }

  lemma CallerCounts(b: B.State, b': B.State)
    requires CallerStep(b, b')
    ensures b'.begun == b.begun && b'.ended == b.ended
  {
  }

  lemma CallerKeeps(b: B.State, b': B.State)
    requires B.Inv(b) && CallerStep(b, b')
    ensures B.Inv(b')
  {
    hide B.Inv, B.JoinStep, B.LeadMove, B.FetchMove, B.CheckMove, B.WakeMove, B.Push;
    if B.Push(b, b') {
      B.PushInv(b, b');
    } else {
      var c :| B.JoinStep(b, b', c) || B.LeadMove(b, b', c) || B.FetchMove(b, b', c) || B.CheckMove(b, b', c)
               || B.WakeMove(b, b', c);
      if B.JoinStep(b, b', c) { B.JoinInv(b, b', c); }
      else if B.LeadMove(b, b', c) { B.LeadInv(b, b', c); }
      else if B.FetchMove(b, b', c) { B.FetchInv(b, b', c); }
      else if B.CheckMove(b, b', c) { B.CheckInv(b, b', c); }
      else { B.WakeInv(b, b', c); }
    }
  }

  lemma DetectIsNext(g: G.State, g': G.State)
    requires DetectStep(g, g')
    ensures G.Next(g, g')
  {
    hide G.ReaderStep, G.Classify, G.WaitStep, G.SwitchPhase;
  }

  lemma DetectFrame(g: G.State, g': G.State)
    requires DetectStep(g, g')
    ensures g'.w.Off? == g.w.Off? && g'.began == g.began
  {
  }

  lemma DetectKeeps(g: G.State, g': G.State)
    requires G.Inv(g) && DetectStep(g, g')
    ensures G.Inv(g') && g'.w.Off? == g.w.Off? && g'.began == g.began
  {
    hide G.Inv, G.Next, DetectStep;
    DetectIsNext(g, g');
    G.NextInv(g, g');
    DetectFrame(g, g');
  }

  lemma NextInv(s: State, s': State)
    requires Inv(s) && Next(s, s')
    ensures Inv(s')
  {
    hide B.Inv, G.Inv, CallerStep, DetectStep, B.PopAll, B.EndGp, G.Begin, G.Finish;
    if CallerStep(s.b, s'.b) && s' == s.(b := s'.b) {
      CallerKeeps(s.b, s'.b);
      CallerCounts(s.b, s'.b);
    } else if DetectStep(s.g, s'.g) && s' == s.(g := s'.g) {
      DetectKeeps(s.g, s'.g);
    } else if c :| Pop(s, s', c) || End(s, s', c) {
      LeaderKeeps(s.b, s'.b, c);
    } else {
      WriterKeeps(s.g, s'.g);
    }
  }

  lemma LeaderKeeps(b: B.State, b': B.State, c: B.Id)
    requires B.Inv(b) && (B.PopAll(b, b', c) || B.EndGp(b, b', c))
    ensures B.Inv(b')
    ensures B.PopAll(b, b', c) ==> b'.begun != b'.ended
    ensures B.EndGp(b, b', c) ==> b'.begun == b.begun == b'.ended
  {
    assert B.CallInv(b, c);
    B.GpInv(b, b', c);
  }

  lemma WriterKeeps(g: G.State, g': G.State)
    requires G.Inv(g) && (G.Begin(g, g') || G.Finish(g, g'))
    ensures G.Inv(g') && (G.Begin(g, g') ==> !g'.w.Off?) && (G.Finish(g, g') ==> g'.w.Off?)
  {
    assert G.Next(g, g');
    G.NextInv(g, g');
    hide G.Inv, G.Next;
  }

  lemma {:induction false} RunInv(r: seq<State>, i: nat)
    requires Run(r) && i < |r|
    ensures Inv(r[i])
  {
    hide Inv, Next;
    if i == 0 {
      B.InitInv(r[0].b);
      G.InitInv(r[0].g);
      FirstInv(r[0]);
    } else {
      RunInv(r, i - 1);
      NextInv(r[i - 1], r[i]);
    }
  }

  lemma FirstInv(s: State)
    requires Init(s) && B.Inv(s.b) && G.Inv(s.g)
    ensures Inv(s)
  {
    hide B.Inv, G.Inv;
  }

  // ---------- the sections a call waits for ----------

  /** The section number `sec` of reader `t` is over. */
  predicate Ended(g: G.State, t: G.Tid, sec: nat) {
    t in g.readers && sec <= g.readers[t].sec && (G.InSection(g, t) ==> sec < g.readers[t].sec)
  }

  /** It has begun at least. */
  predicate Begun(g: G.State, t: G.Tid, sec: nat) { t in g.readers && sec <= g.readers[t].sec }

  lemma SectionsGoOn(g: G.State, g': G.State, t: G.Tid, sec: nat)
    requires G.Inv(g) && G.Next(g, g') && Begun(g, t, sec)
    ensures Begun(g', t, sec) && (Ended(g, t, sec) ==> Ended(g', t, sec))
  {
    assert G.ReaderInv(g, t);
    hide G.ReaderStep, G.Nest, G.Phase, G.Inv, G.ReaderInv;
    if u :| G.ReaderStep(g, g', u) {
      ReaderGoesOn(g, g', u, t, sec);
    } else {
      assert g'.readers == g.readers;
    }
  }

  lemma ReaderGoesOn(g: G.State, g': G.State, u: G.Tid, t: G.Tid, sec: nat)
    requires G.ReaderStep(g, g', u) && Begun(g, t, sec) && G.ReaderInv(g, t)
    ensures Begun(g', t, sec) && (Ended(g, t, sec) ==> Ended(g', t, sec))
  {
    hide G.Nest, G.Phase;
  }

  /**
   A section open when `n` grace periods had begun: it is over once a later grace
   period has ended, and a later one under way waits for it.
   */
  predicate Waits(s: State, n: nat, t: G.Tid, sec: nat) {
    && Begun(s.g, t, sec)
    && (s.b.ended > n ==> Ended(s.g, t, sec))
    && (s.b.begun > n && s.phase == Over ==> Ended(s.g, t, sec))
    && (s.b.begun > n && s.phase == Running && !Ended(s.g, t, sec) ==> t in s.g.began && s.g.began[t] == sec)
  }

  lemma DoneEnds(g: G.State, t: G.Tid, sec: nat)
    requires G.Inv(g) && g.w.Done? && Begun(g, t, sec) && (!Ended(g, t, sec) ==> t in g.began && g.began[t] == sec)
    ensures Ended(g, t, sec)
  {
    if !Ended(g, t, sec) { assert G.StillOpen(g, t); }
  }

  lemma WaitsKept(s: State, s': State, n: nat, t: G.Tid, sec: nat)
    requires Inv(s) && Next(s, s') && Waits(s, n, t, sec) && s.b.begun >= n
    ensures Waits(s', n, t, sec) && s'.b.begun >= n
  {
    hide B.Inv, G.Inv, CallerStep, DetectStep, B.PopAll, B.EndGp;
    if CallerStep(s.b, s'.b) && s' == s.(b := s'.b) {
      CallerCounts(s.b, s'.b);
    } else if DetectStep(s.g, s'.g) && s' == s.(g := s'.g) {
      DetectIsNext(s.g, s'.g);
      DetectKeeps(s.g, s'.g);
      SectionsGoOn(s.g, s'.g, t, sec);
      hide Ended, Begun;
    } else if c :| Pop(s, s', c) || End(s, s', c) {
      LeaderCounts(s.b, s'.b, c);
    } else if Begin(s, s') {
      BeginWaits(s, s', n, t, sec);
    } else {
      if s.b.begun > n { DoneEnds(s.g, t, sec); }
      assert Ended(s'.g, t, sec) == Ended(s.g, t, sec);
    }
  }

  lemma LeaderCounts(b: B.State, b': B.State, c: B.Id)
    requires B.Inv(b) && (B.PopAll(b, b', c) || B.EndGp(b, b', c))
    ensures B.PopAll(b, b', c) ==> b'.begun == b.begun + 1 && b'.ended == b.ended
    ensures B.EndGp(b, b', c) ==> b'.begun == b.begun && b'.ended == b.begun
  {
    assert B.CallInv(b, c);
  }

  lemma BeginWaits(s: State, s': State, n: nat, t: G.Tid, sec: nat)
    requires Begin(s, s') && Waits(s, n, t, sec)
    ensures Waits(s', n, t, sec)
  {
    hide G.Nest;
  }

  /** The callers' part of a step is a step of theirs, if it is any. */
  lemma CallersMove(s: State, s': State)
    requires Next(s, s')
    ensures s'.b == s.b || B.Next(s.b, s'.b)
  {
    hide B.JoinStep, B.Push, B.SetRunning, B.TakeLock, B.PopAll, B.EndGp, B.FetchNext, B.WakeDone, B.CheckRunning;
    hide B.StoreWakeup, B.LoadRunning, B.CallFutexWake, B.SetTeardown, DetectStep;
    if c :| Pop(s, s', c) || End(s, s', c) {
      assert B.LeadStep(s.b, s'.b, c);
    } else if CallerStep(s.b, s'.b) && !B.Push(s.b, s'.b) {
      var c :| B.JoinStep(s.b, s'.b, c) || B.LeadMove(s.b, s'.b, c) || B.FetchMove(s.b, s'.b, c)
               || B.CheckMove(s.b, s'.b, c) || B.WakeMove(s.b, s'.b, c);
      assert B.JoinStep(s.b, s'.b, c) || B.LeadStep(s.b, s'.b, c);
    }
  }

  lemma {:induction false} SinceThen(r: seq<State>, j: nat, i: nat, c: B.Id, t: G.Tid)
    requires Run(r) && j <= i < |r| && |r[j].b.calls| <= c && G.InSection(r[j].g, t)
    ensures Waits(r[i], r[j].b.begun, t, r[j].g.readers[t].sec) && r[j].b.begun <= r[i].b.begun
    ensures c < |r[i].b.calls| ==> r[j].b.begun <= r[i].b.calls[c].pushed
  {
    hide Inv, Next, Waits;
    if i == j {
      RunInv(r, j);
      OpenWaits(r[j], t);
    } else {
      SinceThen(r, j, i - 1, c, t);
      RunInv(r, i - 1);
      assert Next(r[i - 1], r[i]);
      WaitsKept(r[i - 1], r[i], r[j].b.begun, t, r[j].g.readers[t].sec);
      CallersMove(r[i - 1], r[i]);
      if r[i].b != r[i - 1].b { B.NextCounts(r[i - 1].b, r[i].b); }
    }
  }

  lemma OpenWaits(s: State, t: G.Tid)
    requires Inv(s) && G.InSection(s.g, t)
    ensures Waits(s, s.b.begun, t, s.g.readers[t].sec)
  {
    assert B.GlobalInv(s.b);
    hide G.Inv;
  }

  /** The detection's part of a step is a step of its own, if it is any. */
  lemma DetectionMoves(s: State, s': State)
    requires Next(s, s')
    ensures s'.g == s.g || G.Next(s.g, s'.g)
  {
    hide CallerStep, DetectStep, B.PopAll, B.EndGp, G.Begin, G.Finish;
    if DetectStep(s.g, s'.g) { DetectIsNext(s.g, s'.g); }
  }

  lemma {:induction false} SameSection(r: seq<State>, j: nat, i: nat, t: G.Tid)
    requires Run(r) && j <= i < |r| && forall m :: j <= m <= i ==> G.InSection(r[m].g, t)
    ensures G.InSection(r[j].g, t) && G.InSection(r[i].g, t) && r[i].g.readers[t].sec == r[j].g.readers[t].sec
    decreases i
  {
    hide Next, Init, Inv;
    if j < i {
      SameSection(r, j, i - 1, t);
      assert Next(r[i - 1], r[i - 1 + 1]);
      DetectionMoves(r[i - 1], r[i]);
      if r[i].g != r[i - 1].g { StepInSection(r[i - 1], r[i], t) by { RunInv(r, i - 1); } }
    }
  }

  lemma StepInSection(s: State, s': State, t: G.Tid)
    requires Inv(s) && G.Next(s.g, s'.g) && G.InSection(s.g, t) && G.InSection(s'.g, t)
    ensures s'.g.readers[t].sec == s.g.readers[t].sec
  {
    hide G.Next, B.Inv, G.Inv;
    G.SectionGoesOn(s.g, s'.g, t);
  }

  /**
   When a call of `synchronize_rcu` that was not yet under way in state `j` has
   returned in state `i`, whether it led its batch or was woken by the leader,
   every read-side section open in `j` has ended in between: its reader was
   outside, and is so or in a later section.
   */
  lemma SynchronizeCovers(r: seq<State>, j: nat, i: nat, c: B.Id, t: G.Tid)
    requires Run(r) && j <= i < |r| && |r[j].b.calls| <= c < |r[i].b.calls| && r[i].b.calls[c].pc.Returned?
    requires G.InSection(r[j].g, t)
    ensures exists m :: j <= m <= i && !G.InSection(r[m].g, t)
    ensures t in r[i].g.readers && r[j].g.readers[t].sec <= r[i].g.readers[t].sec
    ensures G.InSection(r[i].g, t) ==> r[j].g.readers[t].sec < r[i].g.readers[t].sec
  {
    hide Run;
    SinceThen(r, j, i, c, t);
    RunInv(r, i);
    ServedByEnd(r[i].b, c);
    if forall m :: j <= m <= i ==> G.InSection(r[m].g, t) { SameSection(r, j, i, t); }
  }

  lemma ServedByEnd(b: B.State, c: B.Id)
    requires B.Inv(b) && c < |b.calls| && b.calls[c].pc.Returned?
    ensures b.calls[c].pushed < b.ended
  {
    assert B.CallInv(b, c);
  }
}
