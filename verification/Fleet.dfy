/** Every channel's actor over the one semaphore: a turn in flight holds a permit of its own. */
module Fleet {
  import opened Tables
  import opened TurnContexts
  import opened ActorModel
  import opened ActorProofs
  import S = Scheduling

  // ---------------------------------------------- what one message does to the permit

  /** A permit is given back only by closing a turn, and one message closes at most one. */
  ghost predicate KeepsPermit(a: Actor, b: Actor) {
    && (b.closed == a.closed || (a.turn.Some? && b.closed == a.closed + [a.turn.value]))
    && (b.closed == a.closed ==> b.permits >= a.permits)
  }

  lemma SettleKeepsPermit(a: Actor, reason: string, env: Env)
    requires Fresh(a.db, env.turnId)
    ensures KeepsPermit(a, Settle(a, reason, env).a)
  {
    if a.turn.Some? {
      ClosingLeaves(a, reason, env);
      var c := CloseTurn(a, reason, env);
      assert c.closed == a.closed + [a.turn.value];
      hide CloseTurn, StartTurn, Fresh;
      if c.queue != [] { StartKeepsPermit(c.(queue := c.queue[1..]), c.queue[0], env); }
    }
  }

  lemma StartKeepsPermit(a: Actor, e: Event, env: Env)
    requires Fresh(a.db, env.turnId)
    ensures var b := StartTurn(a, e, env).a; b.closed == a.closed && b.permits == a.permits + 1
  {
    hide OpenTurn;
  }

  lemma CancelKeepsPermit(a: Actor, reason: string, env: Env)
    requires Fresh(a.db, env.turnId)
    ensures KeepsPermit(a, OnCancel(a, reason, env).a)
  {
    CancelIs(a, reason, env);
    var e := EmitSettled(a);
    assert e == a.(mailbox := e.mailbox);
    hide OnCancel, EmitSettled, Settle, Fresh;
    if a.turn.Some? && a.session.Some? { SettleKeepsPermit(e.(staleSettles := a.staleSettles + 1), reason, env); }
  }

  lemma InboundKeepsPermit(a: Actor, e: Event, env: Env)
    requires Fresh(a.db, env.turnId)
    ensures KeepsPermit(a, OnInbound(a, e, env).a)
  {
    StartKeepsPermit(a, e, env);
    hide StartTurn, Fresh, OfferSteer, AcceptSteer, OrdinalTaken, WithSteeringInput;
  }

  lemma PiKeepsPermit(a: Actor, p: PiEvent, env: Env)
    requires Fresh(a.db, env.turnId)
    ensures KeepsPermit(a, OnPiEvent(a, p, env).a)
  {
    SettleKeepsPermit(if a.inFlight == [] then a else a.(inFlight := a.inFlight[1..]), "end_turn", env);
    hide Settle, Fresh, SetTurnState;
  }

  lemma PumpKeepsPermit(s: Actor, env: Env)
    requires Fresh(s.db, env.turnId)
    ensures KeepsPermit(s, Pump(s, env))
  {
    if s.mailbox != [] {
      hide OnCancel, OnInbound, OnPiEvent, Fresh;
      var a := s.(mailbox := s.mailbox[1..]);
      match s.mailbox[0]
      case Inbound(e) => InboundKeepsPermit(a, e, env);
      case Pi(p) => PiKeepsPermit(a, p, env);
      case Cancel(reason) => CancelKeepsPermit(a, reason, env);
      case Rotate => CancelKeepsPermit(a, "rotated", env);
      case Close => CancelKeepsPermit(a, "shutdown", env);
    }
  }

  lemma StepKeepsPermit(a: Actor, step: Step)
    requires Possible(a, step)
    ensures KeepsPermit(a, Next(a, step))
  {
    if step.Turn? { PumpKeepsPermit(a, step.env); }
    hide Pump, Fresh;
  }

  // ------------------------------------------------------------------- the fleet

  /** `tickets` names the permit each channel's turn, or hanging start, holds. */
  datatype Fleet = Fleet(actors: map<string, Actor>, sem: S.Sem, tickets: map<string, nat>)

  /** Someone asks for a permit; the limit is moved; a channel's actor takes a step, giving its
      permit back if the step closes a turn and claiming `ticket` if it starts one. */
  datatype Move = Ask | Resize(permits: int) | Act(channelId: string, step: Step, ticket: nat)

  predicate Ended(a: Actor, b: Actor) { |b.closed| > |a.closed| }

  predicate Started(a: Actor, b: Actor) { b.permits == 1 && (a.permits == 0 || Ended(a, b)) }

  /** The semaphore once the ended turn, if any, gave its permit back. */
  function Returned(f: Fleet, c: string, ended: bool): S.Sem {
    if ended && c in f.tickets then S.Step(f.sem, S.Release(f.tickets[c])) else f.sem
  }

  /** The tickets left once `c` gave its own back, if it did, and with the one it claimed, if any. */
  function Kept(f: Fleet, c: string, ended: bool): map<string, nat> {
    if ended then f.tickets - {c} else f.tickets
  }

  function Claimed(kept: map<string, nat>, c: string, ticket: nat, started: bool): map<string, nat> {
    if started then kept[c := ticket] else kept
  }

  ghost predicate CanMove(f: Fleet, m: Move) {
    match m
    case Ask => true
    case Resize(n) => true
    case Act(c, step, ticket) =>
      && c in f.actors && Possible(f.actors[c], step)
      && var b := Next(f.actors[c], step);
         var sem := Returned(f, c, Ended(f.actors[c], b));
         Started(f.actors[c], b) ==>
           ticket in sem.granted && ticket !in sem.released && ticket !in (f.tickets - {c}).Values
  }

  ghost function Moved(f: Fleet, m: Move): Fleet
    requires CanMove(f, m)
  {
    match m
    case Ask => f.(sem := S.Step(f.sem, S.Acquire))
    case Resize(n) => f.(sem := S.Step(f.sem, S.SetPermits(n)))
    case Act(c, step, ticket) =>
      var a := f.actors[c];
      var b := Next(a, step);
      Fleet(f.actors[c := b], Returned(f, c, Ended(a, b)),
            Claimed(Kept(f, c, Ended(a, b)), c, ticket, Started(a, b)))
  }

  /** Every actor is in a reachable state, and a channel holds a ticket exactly when its actor
      holds a permit; the tickets are granted, not given back, and all different. */
  ghost predicate Linked(f: Fleet) {
    && S.Fair(f.sem) && S.HoldsPermits(f.sem, f.tickets)
    && (forall c :: c in f.actors ==> Valid(f.actors[c]))
    && (forall c :: c in f.tickets <==> c in f.actors && f.actors[c].permits == 1)
  }

  lemma StandsOnOnePermit(a: Actor)
    requires Valid(a)
    ensures a.permits <= 1 && (a.turn.Some? ==> a.permits == 1)
  {
    hide Rows, SettlesTracked;
  }

  /** What a step does to the seat of its channel. */
  lemma SeatFollows(a: Actor, step: Step)
    requires Valid(a) && Possible(a, step)
    ensures var b := Next(a, step);
      && Valid(b) && (Ended(a, b) ==> a.permits == 1)
      && (b.permits == 1 <==> (Started(a, b) || (a.permits == 1 && !Ended(a, b))))
  {
    StepValid(a, step);
    StepKeepsPermit(a, step);
    StandsOnOnePermit(a);
    StandsOnOnePermit(Next(a, step));
    hide Valid, Next, Possible;
  }

  /** Giving a ticket back leaves the others held. */
  lemma ReturningKeepsHeld(f: Fleet, c: string, ended: bool)
    requires Linked(f)
    ensures var sem := Returned(f, c, ended);
      && S.Fair(sem) && S.HoldsPermits(sem, Kept(f, c, ended))
  {
    hide Valid;
    if ended && c in f.tickets { S.StepKeepsFair(f.sem, S.Release(f.tickets[c])); }
  }

  lemma MoveKeepsLinked(f: Fleet, m: Move)
    requires Linked(f) && CanMove(f, m)
    ensures Linked(Moved(f, m))
  {
    match m
    case Ask =>
      S.StepKeepsFair(f.sem, S.Acquire);
      MoreGranted(f, S.Step(f.sem, S.Acquire));
    case Resize(n) =>
      S.StepKeepsFair(f.sem, S.SetPermits(n));
      if n >= 1 { S.WakeServesInOrder(f.sem.(permits := n, available := f.sem.available + n - f.sem.permits)); }
      MoreGranted(f, S.Step(f.sem, S.SetPermits(n)));
    case Act(c, step, ticket) => ActKeepsLinked(f, c, step, ticket);
  }

  lemma MoreGranted(f: Fleet, sem: S.Sem)
    requires Linked(f) && S.Fair(sem) && f.sem.granted <= sem.granted && sem.released == f.sem.released
    ensures Linked(f.(sem := sem))
  {
    hide Valid, S.Fair;
  }

  lemma ActKeepsLinked(f: Fleet, c: string, step: Step, ticket: nat)
    requires Linked(f) && CanMove(f, Act(c, step, ticket))
    ensures Linked(Moved(f, Act(c, step, ticket)))
  {
    var a := f.actors[c];
    hide Valid, Possible, Next, Returned, S.Fair, S.HoldsPermits, Linked;
    SeatOf(f, c);
    SeatFollows(a, step);
    var b := Next(a, step);
    ReturningKeepsHeld(f, c, Ended(a, b));
    TicketIsFree(f, c, step, ticket);
    KeptIs(f, c, Ended(a, b));
    assert Moved(f, Act(c, step, ticket)) ==
      Fleet(f.actors[c := b], Returned(f, c, Ended(a, b)), Claimed(Kept(f, c, Ended(a, b)), c, ticket, Started(a, b)));
    hide *;
    SeatIsTaken(f, c, b, Returned(f, c, Ended(a, b)), Kept(f, c, Ended(a, b)), ticket, Started(a, b));
  }

  lemma KeptIs(f: Fleet, c: string, ended: bool)
    ensures Kept(f, c, ended) - {c} == f.tickets - {c}
    ensures c in Kept(f, c, ended) <==> c in f.tickets && !ended
    ensures forall d :: d != c ==> (d in Kept(f, c, ended) <==> d in f.tickets)
  {
  }

  lemma SeatOf(f: Fleet, c: string)
    requires Linked(f) && c in f.actors
    ensures Valid(f.actors[c]) && (c in f.tickets <==> f.actors[c].permits == 1)
  {
    hide Valid, S.Fair, S.HoldsPermits;
  }

  lemma TicketIsFree(f: Fleet, c: string, step: Step, ticket: nat)
    requires CanMove(f, Act(c, step, ticket))
    ensures var a := f.actors[c];
      var b := Next(a, step);
      Started(a, b) ==>
        && ticket in Returned(f, c, Ended(a, b)).granted
        && ticket !in Returned(f, c, Ended(a, b)).released
        && ticket !in (f.tickets - {c}).Values
  {
    hide Possible, Next, Returned;
  }

  /** Channel `c`, now `b`, claims a ticket if `started`. */
  lemma SeatIsTaken(f: Fleet, c: string, b: Actor, sem: S.Sem, kept: map<string, nat>, ticket: nat, started: bool)
    requires Linked(f) && c in f.actors && Valid(b) && S.Fair(sem) && S.HoldsPermits(sem, kept)
    requires forall d :: d != c ==> (d in kept <==> d in f.tickets)
    requires started ==> ticket in sem.granted && ticket !in sem.released && ticket !in (kept - {c}).Values
    requires b.permits == 1 <==> started || c in kept
    ensures Linked(Fleet(f.actors[c := b], sem, Claimed(kept, c, ticket, started)))
  {
    hide Valid, S.Fair, S.HoldsPermits, Linked;
    ClaimingKeepsHeld(sem, kept, c, ticket, started);
    Reseated(f, c, b, sem, Claimed(kept, c, ticket, started));
  }

  lemma Reseated(f: Fleet, c: string, b: Actor, sem: S.Sem, tickets: map<string, nat>)
    requires Linked(f) && c in f.actors && Valid(b) && S.Fair(sem) && S.HoldsPermits(sem, tickets)
    requires c in tickets <==> b.permits == 1
    requires forall d :: d != c ==> (d in tickets <==> d in f.tickets)
    ensures Linked(Fleet(f.actors[c := b], sem, tickets))
  {
    hide Valid, S.Fair, S.HoldsPermits;
  }

  lemma ClaimingKeepsHeld(sem: S.Sem, kept: map<string, nat>, c: string, ticket: nat, started: bool)
    requires S.Fair(sem) && S.HoldsPermits(sem, kept)
    requires started ==> ticket in sem.granted && ticket !in sem.released && ticket !in (kept - {c}).Values
    ensures S.HoldsPermits(sem, Claimed(kept, c, ticket, started))
  {
    if started {
      assert forall d :: d in kept && d != c ==> kept[d] in (kept - {c}).Values by {
        forall d | d in kept && d != c ensures kept[d] in (kept - {c}).Values { assert d in kept - {c}; }
      }
    }
  }

  /** The channels with a turn in flight. */
  function InFlight(f: Fleet): set<string> { set c | c in f.actors && f.actors[c].turn.Some? }

  lemma TurnsHoldTickets(f: Fleet)
    requires Linked(f)
    ensures InFlight(f) <= f.tickets.Keys && |InFlight(f)| <= |f.tickets|
  {
    forall c | c in InFlight(f) ensures c in f.tickets {
      StandsOnOnePermit(f.actors[c]);
    }
    Fewer(InFlight(f), f.tickets.Keys);
    assert |f.tickets.Keys| == |f.tickets|;
  }

  lemma Fewer<T>(a: set<T>, b: set<T>)
    requires a <= b
    ensures |a| <= |b|
  {
    assert b == a + (b - a) && a !! (b - a);
  }

  /** Over any number of channels, whatever their actors do and however the limit is moved: a
      move that hands a permit out leaves at most the current limit of turns in flight. */
  lemma NoGrantExceedsTheLimit(f: Fleet, m: Move)
    requires Linked(f) && CanMove(f, m) && |Moved(f, m).sem.granted| > |f.sem.granted|
    ensures |InFlight(Moved(f, m))| <= Moved(f, m).sem.permits
  {
    var g := Moved(f, m);
    MoveKeepsLinked(f, m);
    TurnsHoldTickets(g);
    assert S.Fair(f.sem) && S.HoldsPermits(g.sem, g.tickets);
    hide Linked;
    match m
    case Ask => S.StartingATurnRespectsTheCeiling(f.sem, S.Acquire, g.tickets);
    case Resize(n) => S.StartingATurnRespectsTheCeiling(f.sem, S.SetPermits(n), g.tickets);
    case Act(c, step, ticket) =>
      hide Next, Possible;
      S.StartingATurnRespectsTheCeiling(f.sem, S.Release(f.tickets[c]), g.tickets);
  }

  ghost predicate Follows(trace: seq<Fleet>, moves: seq<Move>) {
    && |trace| == |moves| + 1
    && forall i :: 0 <= i < |moves| ==> CanMove(trace[i], moves[i]) && trace[i + 1] == Moved(trace[i], moves[i])
  }

  lemma NewFleetIsLinked(channels: set<string>, permits: int)
    requires permits >= 1
    ensures Linked(Fleet(map c | c in channels :: NewActor(c), S.Init(permits), map[]))
  {
    forall c: string ensures Valid(NewActor(c)) { NewActorIsValid(c); }
    hide Valid;
  }

  /** In every run of a fleet: each turn in flight holds a permit of its own, and no grant ever
      takes the turns in flight over the limit. */
  lemma {:induction false} RunsRespectTheLimit(channels: set<string>, permits: int, trace: seq<Fleet>, moves: seq<Move>, n: nat)
    requires permits >= 1 && Follows(trace, moves) && n < |trace|
    requires trace[0] == Fleet(map c | c in channels :: NewActor(c), S.Init(permits), map[])
    ensures Linked(trace[n]) && |InFlight(trace[n])| <= |trace[n].tickets|
    ensures n > 0 && |trace[n].sem.granted| > |trace[n - 1].sem.granted| ==> |InFlight(trace[n])| <= trace[n].sem.permits
  {
    hide Linked, CanMove, Moved;
    if n == 0 {
      NewFleetIsLinked(channels, permits);
    } else {
      RunsRespectTheLimit(channels, permits, trace, moves, n - 1);
      assert CanMove(trace[n - 1], moves[n - 1]) && trace[n] == Moved(trace[n - 1], moves[n - 1]);
      MoveKeepsLinked(trace[n - 1], moves[n - 1]);
      if |trace[n].sem.granted| > |trace[n - 1].sem.granted| { NoGrantExceedsTheLimit(trace[n - 1], moves[n - 1]); }
    }
    TurnsHoldTickets(trace[n]);
  }
}
