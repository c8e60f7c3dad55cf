/**
 Grace-period polling: a single callback that counts grace periods, requeues
 itself as long as somebody waits, and hands out target numbers. The numbers
 are unsigned 64-bit words compared by the sign of their difference; `count`,
 `latest` and the tickets are the same numbers without wrap-around.
 */
module PollWorker {

  const MODULUS: nat := 0x1_0000_0000_0000_0000
  const HALF: nat := 0x8000_0000_0000_0000

  type Word = x: nat | x < MODULUS

  function Wrap(n: nat): Word { n % MODULUS }

  /** `(long) (a - b) < 0` */
  predicate Before(a: Word, b: Word) { (a + MODULUS - b) % MODULUS >= HALF }

  /** The comparison of wrapped numbers tells their order exactly as long as they are less than half the range apart. */
  lemma BeforeExact(a: nat, b: nat)
    requires a < b + HALF && b <= a + HALF
    ensures Before(Wrap(a), Wrap(b)) <==> a < b
  {
    WrapDifference(a, b);
    if a < b {
      assert (a + MODULUS - b) % MODULUS == a + MODULUS - b;
    } else {
      assert (a - b + MODULUS) % MODULUS == a - b;
    }
  }

  lemma WrapDifference(a: nat, b: nat)
    requires b <= a + MODULUS
    ensures (Wrap(a) + MODULUS - Wrap(b)) % MODULUS == (a + MODULUS - b) % MODULUS
  {
    var i, j := a / MODULUS, b / MODULUS;
    assert a == i * MODULUS + Wrap(a) && b == j * MODULUS + Wrap(b);
    SameRemainder(Wrap(a) + MODULUS - Wrap(b), a + MODULUS - b, i - j);
  }

  lemma SameRemainder(x: nat, y: nat, k: int)
    requires y == x + k * MODULUS
    ensures x % MODULUS == y % MODULUS
  {
  }

  lemma WrapNext(n: nat)
    ensures (Wrap(n) + 1) % MODULUS == Wrap(n + 1)
  {
    SameRemainder(Wrap(n) + 1, n + 1, n / MODULUS);
  }

  /** Exactly when an earlier number, however much earlier, reads as being before a later one. */
  lemma BeforeIff(a: nat, b: nat)
    requires a <= b
    ensures Before(Wrap(a), Wrap(b)) <==> 0 < (b - a) % MODULUS <= HALF
  {
    var d, q := (b - a) % MODULUS, (b - a) / MODULUS;
    assert b - a == q * MODULUS + d;
    WrapShift(a + d, q);
    WrapDifference(a, a + d);
    if d == 0 { assert (a + MODULUS - (a + d)) % MODULUS == 0; }
    else { assert (a + MODULUS - (a + d)) % MODULUS == MODULUS - d; }
  }

  lemma WrapShift(n: nat, q: nat)
    ensures Wrap(n + q * MODULUS) == Wrap(n)
  {
    SameRemainder(n, n + q * MODULUS, q);
  }

  /** A passed target is hidden in the second half of every turn of the counter, and where the turn is full. */
  lemma WrapHidesTarget(a: nat, turns: nat, d: nat)
    requires d == 0 || HALF < d < MODULUS
    ensures !Before(Wrap(a), Wrap(a + turns * MODULUS + d))
  {
    SameRemainder(d, turns * MODULUS + d, turns);
    BeforeIff(a, a + turns * MODULUS + d);
  }

  /** What `start_poll_synchronize_rcu` gave out, and how many grace periods had begun by then. */
  datatype Ticket = Ticket(target: nat, at: nat)

  class Worker {
    var currentState: Word
    var latestTarget: Word
    var active: bool
    /** How often the callback is queued, the last time by a `call_rcu` when `stamp` grace periods had begun. */
    var queued: nat
    ghost var stamp: nat
    /** The grace period the callback last ran after, and all tickets given out. */
    ghost var lastGp: nat
    ghost var count: nat
    ghost var latest: nat
    ghost var issued: seq<Ticket>

    ghost predicate Valid()
      reads this
    {
      && currentState == Wrap(count) && latestTarget == Wrap(latest) && queued == (if active then 1 else 0)
      && (active ==> lastGp <= stamp && count <= latest <= count + 1)
      && (!active ==> latest + 1 == count || (count == 0 && latest == 0 && issued == []))
      && forall i :: 0 <= i < |issued| ==> TicketInv(issued[i])
    }

    ghost predicate TicketInv(t: Ticket)
      reads this
    {
      && t.target <= latest
      && (t.target < count ==> t.at < lastGp)
      && (t.target == count ==> t.at <= stamp)
    }

    constructor ()
      ensures Valid() && issued == [] && count == 0 && !active
    {
      currentState, latestTarget, active, queued := 0, 0, false, 0;
      stamp, lastGp, count, latest, issued := 0, 0, 0, 0, [];
    }

    /** `urcu_poll_worker_cb`, run after grace period `gp`; `begun` grace periods have begun by now. */
    method Callback(ghost gp: nat, ghost begun: nat)
      requires Valid() && queued > 0 && stamp < gp <= begun
      requires forall i :: 0 <= i < |issued| ==> issued[i].at <= begun
      modifies this
      ensures Valid() && count == old(count) + 1 && lastGp == gp && issued == old(issued) && latest == old(latest)
      ensures active <==> old(latest) > old(count)
      ensures active ==> stamp == begun
    {
      BeforeExact(latest, count + 1);
      WrapNext(count);
      hide Wrap, Before;
      queued := queued - 1;
      currentState := (currentState + 1) % MODULUS;
      count := count + 1;
      lastGp := gp;
      if !Before(latestTarget, currentState) {
        queued := queued + 1;
        stamp := begun;
      } else {
        active := false;
      }
    }

    /** `start_poll_synchronize_rcu` */
    method StartPoll(ghost begun: nat) returns (target: Word)
      requires Valid() && (active ==> stamp <= begun) && lastGp <= begun
      modifies this
      ensures Valid() && active && count == old(count) && lastGp == old(lastGp)
      ensures target == Wrap(latest) && latest == if old(active) then count + 1 else count
      ensures issued == old(issued) + [Ticket(latest, begun)]
      ensures !old(active) ==> stamp == begun
      ensures old(active) ==> stamp == old(stamp)
    {
      WrapNext(count);
      hide Wrap;
      target := currentState;
      var wasActive := active;
      ghost var t := count;
      if !wasActive {
        active := true;
      } else {
        target := (target + 1) % MODULUS;
        t := t + 1;
      }
      latestTarget := target;
      latest := t;
      if !wasActive {
        queued := queued + 1;
        stamp := begun;
      }
      issued := issued + [Ticket(t, begun)];
    }

    /** `poll_state_synchronize_rcu` of the target of a ticket. */
    method PollState(target: Word, ghost t: Ticket) returns (reached: bool)
      requires Valid() && t in issued && target == Wrap(t.target)
      ensures t.target <= count ==> (reached <==> 0 < (count - t.target) % MODULUS <= HALF)
      ensures count < t.target ==> !reached
      ensures reached ==> t.target < count && t.at < lastGp
      ensures !reached && count <= t.target + HALF ==> active && count <= t.target <= count + 1
      ensures !active && count <= t.target + HALF ==> reached
    {
      reached := Before(target, currentState);
      hide Wrap, Before;
      if t.target <= count { BeforeIff(t.target, count); } else { BeforeExact(t.target, count); }
    }
  }

  /** At most two more callbacks bring the count past any target given out. */
  lemma TwoMoreCallbacks(w: Worker, t: Ticket)
    requires w.Valid() && t in w.issued
    ensures t.target < w.count + 2
  {
    var i :| 0 <= i < |w.issued| && w.issued[i] == t;
    assert w.TicketInv(w.issued[i]);
  }
}
