/** The concurrency limit across channels: a resizable FIFO semaphore. */
module Scheduling {

  /** Requests are numbered in arrival order. `granted` lists the requests served so far,
      `waiters` those still queued, `released` those whose release function has run. */
  datatype Sem = Sem(
    available: int, permits: int, waiters: seq<nat>, granted: seq<nat>, released: set<nat>, next: nat)

  datatype Op = Acquire | Release(ticket: nat) | SetPermits(permits: int)

  function Init(permits: int): Sem {
    Sem(permits, permits, [], [], {}, 0)
  }

  function Grant(s: Sem): Sem
    requires s.waiters != []
  {
    s.(waiters := s.waiters[1..], granted := s.granted + [s.waiters[0]])
  }

  /** Serves waiters while permits are free. */
  function Wake(s: Sem): Sem
    decreases |s.waiters|
  {
    if s.available > 0 && s.waiters != [] then Wake(Grant(s).(available := s.available - 1)) else s
  }

  function Step(s: Sem, op: Op): Sem {
    match op
    case Acquire =>
      if s.available > 0
      then s.(available := s.available - 1, granted := s.granted + [s.next], next := s.next + 1)
      else s.(waiters := s.waiters + [s.next], next := s.next + 1)
    case Release(t) =>
      if t !in s.granted || t in s.released then s else
      var r := s.(released := s.released + {t});
      if r.available < 0 then r.(available := r.available + 1)
      else if r.waiters != [] then Grant(r)
      else r.(available := r.available + 1)
    case SetPermits(n) =>
      if n < 1 then s else
      Wake(s.(permits := n, available := s.available + n - s.permits))
  }

  function Run(s: Sem, ops: seq<Op>): Sem {
    if ops == [] then s else Step(Run(s, ops[..|ops| - 1]), ops[|ops| - 1])
  }

  function Held(s: Sem): int { |s.granted| - |s.released| }

  /** Grants then waiters are exactly the requests in arrival order; permits are conserved. */
  ghost predicate Accounted(s: Sem) {
    && |s.granted| + |s.waiters| == s.next
    && (forall i :: 0 <= i < |s.granted| ==> s.granted[i] == i)
    && (forall i :: 0 <= i < |s.waiters| ==> s.waiters[i] == |s.granted| + i)
    && (forall t :: t in s.released ==> t < |s.granted|)
    && s.available + Held(s) == s.permits
    && s.permits >= 1
  }

  /** No one waits while a permit is free. */
  ghost predicate Fair(s: Sem) {
    Accounted(s) && (s.waiters != [] ==> s.available <= 0)
  }

  lemma {:induction false} WakeServesInOrder(s: Sem)
    requires Accounted(s)
    ensures var w := Wake(s);
      && Fair(w) && w.permits == s.permits && w.next == s.next && w.released == s.released
      && s.granted <= w.granted
      && (|w.granted| > |s.granted| ==> Held(w) <= w.permits)
    decreases |s.waiters|
  {
    if s.available > 0 && s.waiters != [] {
      WakeServesInOrder(Grant(s).(available := s.available - 1));
    }
  }

  lemma StepKeepsFair(s: Sem, op: Op)
    requires Fair(s)
    ensures var t := Step(s, op);
      && Fair(t)
      && s.granted <= t.granted
      && (|t.granted| > |s.granted| ==> Held(t) <= t.permits)
  {
    if op.SetPermits? && op.permits >= 1 {
      WakeServesInOrder(s.(permits := op.permits, available := s.available + op.permits - s.permits));
    }
  }

  /** Every run conserves permits, serves requests in arrival order, never revokes a grant,
      and never leaves a request waiting beside a free permit. */
  lemma {:induction false} RunsAreFair(permits: int, ops: seq<Op>)
    requires permits >= 1
    ensures Fair(Run(Init(permits), ops))
    ensures forall k :: 0 <= k <= |ops| ==> Run(Init(permits), ops[..k]).granted <= Run(Init(permits), ops).granted
  {
    if ops != [] {
      var front := ops[..|ops| - 1];
      RunsAreFair(permits, front);
      StepKeepsFair(Run(Init(permits), front), ops[|ops| - 1]);
      forall k | 0 <= k <= |ops|
        ensures Run(Init(permits), ops[..k]).granted <= Run(Init(permits), ops).granted
      {
        if k < |ops| {
          assert front[..k] == ops[..k];
        } else {
          assert ops[..k] == ops;
        }
      }
    }
  }

  lemma ReleasingTwiceIsReleasingOnce(s: Sem, t: nat)
    requires Fair(s)
    ensures Step(Step(s, Release(t)), Release(t)) == Step(s, Release(t))
  {
    assert t in s.granted ==> t in Step(s, Release(t)).released;
  }

  /** The ticket each channel with a turn in flight holds. */
  ghost predicate HoldsPermits(s: Sem, flights: map<string, nat>) {
    && (forall c :: c in flights ==> flights[c] < |s.granted| && flights[c] !in s.released)
    && (forall c, d :: c in flights && d in flights && c != d ==> flights[c] != flights[d])
  }

  lemma {:induction false} FlightsAreHeld(s: Sem, flights: map<string, nat>, taken: set<nat>)
    requires HoldsPermits(s, flights)
    requires forall t :: t in taken ==> t < |s.granted|
    requires forall c :: c in flights ==> flights[c] !in taken
    requires s.released <= taken
    ensures |flights| + |taken| <= |s.granted|
    decreases flights
  {
    if flights == map[] {
      Below(taken, |s.granted|);
    } else {
      var c :| c in flights;
      var rest := flights - {c};
      assert flights.Keys == rest.Keys + {c};
      FlightsAreHeld(s, rest, taken + {flights[c]});
    }
  }

  lemma {:induction false} Below(s: set<nat>, n: nat)
    requires forall t :: t in s ==> t < n
    ensures |s| <= n
  {
    if n == 0 {
      assert s == {};
    } else {
      Below(s - {n - 1}, n - 1);
    }
  }

  /** With one permit per turn, a step that starts a turn leaves at most `permits` turns in
      flight, however the ceiling was moved before. */
  lemma StartingATurnRespectsTheCeiling(s: Sem, op: Op, flights: map<string, nat>)
    requires Fair(s) && HoldsPermits(Step(s, op), flights)
    requires |Step(s, op).granted| > |s.granted|
    ensures |flights| <= Step(s, op).permits
  {
    StepKeepsFair(s, op);
    FlightsAreHeld(Step(s, op), flights, Step(s, op).released);
  }

  // ---------------------------------------------------------------- the class

  /** A waiter is the number of its request; a permit's release function is its ticket, and
      `released` is the flag each of those closures keeps. */
  class Semaphore {
    var available: int
    var permits: int
    var waiters: seq<nat>
    var released: set<nat>
    var next: nat
    ghost var granted: seq<nat>

    ghost function Model(): Sem reads this {
      Sem(available, permits, waiters, granted, released, next)
    }

    ghost predicate Valid() reads this { Fair(Model()) }

    constructor (permits: int)
      requires permits >= 1
      ensures Valid() && Model() == Init(permits)
    {
      this.available, this.permits := permits, permits;
      this.waiters, this.released, this.next, this.granted := [], {}, 0, [];
    }

    /** The factory's guard: fewer than one permit is refused. */
    static method Make(permits: int) returns (s: Semaphore?)
      ensures s == null <==> permits < 1
      ensures s != null ==> fresh(s) && s.Valid() && s.Model() == Init(permits)
    {
      if permits < 1 { return null; }
      s := new Semaphore(permits);
    }

    /** Answers the request's ticket and whether it was served at once. */
    method Acquire() returns (ticket: nat, served: bool)
      requires Valid()
      modifies this
      ensures Valid() && Model() == Step(old(Model()), Op.Acquire)
      ensures ticket == old(next) && (served <==> ticket in granted)
    {
      StepKeepsFair(Model(), Op.Acquire);
      ticket, served := next, available > 0;
      next := next + 1;
      if served {
        available := available - 1;
        granted := granted + [ticket];
      } else {
        waiters := waiters + [ticket];
      }
    }

    /** Runs the release function that `ticket`'s acquire returned. */
    method Release(ticket: nat)
      requires Valid() && ticket in granted
      modifies this
      ensures Valid() && Model() == Step(old(Model()), Op.Release(ticket))
    {
      StepKeepsFair(Model(), Op.Release(ticket));
      if ticket in released { return; }
      released := released + {ticket};
      if available < 0 {
        available := available + 1;
        return;
      }
      if waiters != [] {
        granted := granted + [waiters[0]];
        waiters := waiters[1..];
        return;
      }
      available := available + 1;
    }

    /** Refused, changing nothing, for fewer than one permit. */
    method SetPermits(n: int) returns (ok: bool)
      requires Valid()
      modifies this
      ensures Valid() && Model() == Step(old(Model()), Op.SetPermits(n))
      ensures ok <==> n >= 1
    {
      StepKeepsFair(Model(), Op.SetPermits(n));
      if n < 1 { return false; }
      var delta := n - permits;
      permits := n;
      available := available + delta;
      ghost var target := Wake(Model());
      while available > 0 && waiters != []
        invariant Wake(Model()) == target
        decreases |waiters|
      {
        available := available - 1;
        granted := granted + [waiters[0]];
        waiters := waiters[1..];
      }
      return true;
    }
  }
}
