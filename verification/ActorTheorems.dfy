/** What the actor's invariant means: where an event is, which settle closes which turn,
    and the exact conditions under which an event or a turn is given up. */
module ActorTheorems {
  import opened Basics
  import opened Tables
  import opened TurnContexts
  import opened ActorModel
  import opened ActorProofs

  /** The disposition, turn and position that go with the place an event is in. */
  ghost predicate RowSaysWhere(a: Actor, id: string) {
    && (id in Posted(a.mailbox) || id in Ids(a.queue) ==> Waiting(a.db, id))
    && (id in ActiveIds(a) ==>
          exists i: nat ::
            && i < |ActiveIds(a)| && ActiveIds(a)[i] == id
            && RowIs(a.db, id, if i == 0 then Prompted else SteerDelivered, Some(a.turn.value.turnId), Some(i)))
    && (id in ClosedIds(a.closed) ==>
          exists k: nat, i: nat ::
            && k < |a.closed| && i < |a.closed[k].accepted| && a.closed[k].accepted[i] == id
            && RowIs(a.db, id, Completed, Some(a.closed[k].turnId), Some(i)))
  }

  /** An admitted event is in one place only, and its row says which and at what position. */
  lemma AnAdmittedEventIsInOnePlace(a: Actor, id: string)
    requires Valid(a) && id in a.db.inbox
    ensures multiset(Posted(a.mailbox))[id] + multiset(Ids(a.queue))[id] + multiset(ActiveIds(a))[id]
      + multiset(ClosedIds(a.closed))[id] + multiset(a.lost)[id] == 1
    ensures RowSaysWhere(a, id)
  {
    assert Census(a)[id] == multiset(a.db.inbox.Keys)[id] == 1;
    if id in Posted(a.mailbox) { PostedComesFrom(a.mailbox, id); }
    if id in Ids(a.queue) {
      var i :| 0 <= i < |a.queue| && Ids(a.queue)[i] == id;
      assert Waiting(a.db, a.queue[i].id);
    }
    if id in ActiveIds(a) {
      var i: nat :| i < |ActiveIds(a)| && ActiveIds(a)[i] == id;
      assert RowIs(a.db, id, if i == 0 then Prompted else SteerDelivered, Some(a.turn.value.turnId), Some(i));
    }
    if id in ClosedIds(a.closed) {
      var k, i := ClosedComesFrom(a.closed, id);
      assert InputsAgree(a.closed[k], a.db, false);
    }
  }

  lemma {:induction false} ClosedComesFrom(closed: seq<TurnContext>, id: string) returns (k: nat, i: nat)
    requires id in ClosedIds(closed)
    ensures k < |closed| && i < |closed[k].accepted| && closed[k].accepted[i] == id
  {
    var n := |closed| - 1;
    if id in closed[n].accepted {
      k := n;
      i :| 0 <= i < |closed[n].accepted| && closed[n].accepted[i] == id;
    } else {
      k, i := ClosedComesFrom(closed[..n], id);
    }
  }

  // ------------------------------------------------------------------ settles

  /** An `agent_settled` closes a turn exactly when it is that turn's own run's: a straggler
      of an aborted run changes nothing but the count of stragglers. */
  lemma ASettleClosesOnlyItsOwnTurn(s: Actor, env: Env)
    requires Lifecycle(s) && s.mailbox != [] && s.mailbox[0] == Pi(AgentSettled)
    requires Fresh(s.db, env.turnId)
    ensures Pump(s, env).closed != s.closed <==> Heard(s) && s.inFlight == [s.turn.value.turnId]
    ensures Pump(s, env).closed != s.closed ==> Pump(s, env).closed == s.closed + [s.turn.value]
    ensures Pump(s, env).closed == s.closed ==>
      Pump(s, env) == s.(mailbox := s.mailbox[1..], inFlight := s.inFlight[1..], staleSettles := s.staleSettles - 1)
  {
    assert |s.inFlight| >= 1;
    if s.staleSettles == 0 {
      var a := s.(mailbox := s.mailbox[1..], inFlight := s.inFlight[1..]);
      DispatchKeepsClosed(CloseTurn(a, "end_turn", env), env);
    } else {
      assert Heard(s) ==> |s.inFlight| > 1;
    }
  }

  lemma DispatchKeepsClosed(a: Actor, env: Env)
    requires Fresh(a.db, env.turnId)
    ensures DispatchQueued(a, env).a.closed == a.closed
  {
  }

  // ------------------------------------------------------------- lost events

  /** The message at the head would steer its event into the running turn. */
  predicate WouldSteer(s: Actor) {
    && s.mailbox != [] && s.mailbox[0].Inbound? && s.turn.Some? && s.session.Some?
    && s.phase in {Phase.Running, Phase.Settling}
    && s.turn.value.threadRootId == s.mailbox[0].event.threadRoot
  }

  /** The event whose turn the message at the head would start. */
  function WouldStart(s: Actor): Option<Event>
    requires s.mailbox != []
  {
    match s.mailbox[0]
    case Inbound(e) => if s.phase == Idle then Some(e) else None
    case Pi(p) =>
      if p == AgentSettled && s.staleSettles == 0 && s.turn.Some? && s.queue != [] then Some(s.queue[0]) else None
    case _ =>
      if s.turn.Some? && s.session.Some? && s.queue != [] then Some(s.queue[0]) else None
  }

  predicate NeedsSession(s: Actor, e: Event, env: Env) {
    s.session.None? || env.disposed || s.session.value != SessionRoot(e)
  }

  /** Some other event was offered to the running turn as a steer and refused by Pi. */
  ghost predicate RejectedBefore(s: Actor, id: string)
    requires s.turn.Some?
  {
    exists key :: key in s.db.inputs && key.0 == s.turn.value.turnId && key.1 !in s.turn.value.accepted && key.1 != id
  }

  /** What the rows of the running turn say when the next message arrives. */
  ghost predicate SteerRows(s: Actor) {
    && (s.turn.Some? ==> InputsAgree(s.turn.value, s.db, true) && OnlyRejectsBeyond(s.turn.value, s.db))
    && UniqueOrdinals(s.db)
    && (WouldSteer(s) ==> s.mailbox[0].event.id !in s.turn.value.accepted)
  }

  lemma ValidGivesSteerRows(s: Actor)
    requires Rows(s)
    ensures SteerRows(s)
  {
    if WouldSteer(s) {
      var id := s.mailbox[0].event.id;
      PostedHolds(s.mailbox, 0);
      assert Census(s)[id] == multiset(s.db.inbox.Keys)[id] <= 1;
    }
  }

  /** An event is given up exactly when its handler throws: it steers a turn that had a steer
      refused before, or it starts a turn whose session cannot be opened. */
  lemma AnEventIsLostExactlyWhen(s: Actor, env: Env)
    requires SteerRows(s) && s.mailbox != [] && Fresh(s.db, env.turnId)
    requires s.turn.Some? ==> s.phase in {Phase.Running, Phase.Settling, Closed}
    ensures Pump(s, env).lost != s.lost <==>
      || (WouldSteer(s) && RejectedBefore(s, s.mailbox[0].event.id))
      || (WouldStart(s).Some? && NeedsSession(s, WouldStart(s).value, env) && !env.opens)
  {
    hide SteerRows;
    if WouldSteer(s) {
      RejectedMeansTaken(s, s.mailbox[0].event.id);
      SteerLoses(s.(mailbox := s.mailbox[1..]), s.mailbox[0].event, env);
    } else {
      StartLoses(s, env);
    }
  }

  lemma RejectedMeansTaken(s: Actor, id: string)
    requires SteerRows(s) && WouldSteer(s) && s.mailbox[0].event.id == id
    ensures RejectedBefore(s, id) <==> OrdinalTaken(s.db, s.turn.value.turnId, id, |s.turn.value.inputs|)
  {
    var c := s.turn.value;
    forall key | key in s.db.inputs && key.0 == c.turnId && key.1 in c.accepted
      ensures s.db.inputs[key].ordinal < |c.inputs|
    {
      var i :| 0 <= i < |c.accepted| && c.accepted[i] == key.1;
      assert key == (c.turnId, c.accepted[i]);
    }
    if (c.turnId, id) in s.db.inputs {
      forall key | key in s.db.inputs && key.0 == c.turnId && key.1 !in c.accepted ensures key.1 == id {
        assert s.db.inputs[key].ordinal == s.db.inputs[(c.turnId, id)].ordinal;
      }
    }
  }

  lemma SteerLoses(a: Actor, e: Event, env: Env)
    requires a.turn.Some? && a.session.Some?
    ensures SteerTurn(a, e, env).a.lost != a.lost <==> OrdinalTaken(a.db, a.turn.value.turnId, e.id, |a.turn.value.inputs|)
  {
  }

  lemma StartTurnLoses(a: Actor, e: Event, env: Env)
    requires Fresh(a.db, env.turnId)
    ensures StartTurn(a, e, env).a.lost != a.lost <==> NeedsSession(a, e, env) && !env.opens
  {
  }

  lemma DispatchLoses(a: Actor, env: Env)
    requires Fresh(a.db, env.turnId)
    ensures DispatchQueued(a, env).a.lost != a.lost <==>
      a.queue != [] && NeedsSession(a, a.queue[0], env) && !env.opens
  {
    if a.queue != [] { StartTurnLoses(a.(queue := a.queue[1..]), a.queue[0], env); }
  }

  lemma CancelLoses(a: Actor, reason: string, env: Env)
    requires Fresh(a.db, env.turnId)
    ensures OnCancel(a, reason, env).a.lost != a.lost <==>
      a.turn.Some? && a.session.Some? && a.queue != [] && NeedsSession(a, a.queue[0], env) && !env.opens
  {
    hide StartTurn, DispatchQueued;
    if a.turn.Some? && a.session.Some? {
      var b := EmitSettled(a);
      DispatchLoses(CloseTurn(b.(staleSettles := b.staleSettles + 1), reason, env), env);
    }
  }

  lemma StartLoses(s: Actor, env: Env)
    requires s.mailbox != [] && !WouldSteer(s) && Fresh(s.db, env.turnId)
    requires s.turn.Some? ==> s.phase in {Phase.Running, Phase.Settling, Closed}
    ensures Pump(s, env).lost != s.lost <==>
      WouldStart(s).Some? && NeedsSession(s, WouldStart(s).value, env) && !env.opens
  {
    hide StartTurn, DispatchQueued, OnCancel;
    var m, a := s.mailbox[0], s.(mailbox := s.mailbox[1..]);
    match m
    case Inbound(e) => StartTurnLoses(a, e, env);
    case Pi(p) =>
      if p == AgentSettled && s.staleSettles == 0 && s.turn.Some? {
        var b := if a.inFlight == [] then a else a.(inFlight := a.inFlight[1..]);
        DispatchLoses(CloseTurn(b, "end_turn", env), env);
      }
    case Cancel(reason) => CancelLoses(a, reason, env);
    case Rotate => CancelLoses(a, "rotated", env);
    case Close => CancelLoses(a, "shutdown", env);
  }

  /** The repository's own release of a pending steer would have left the ordinal free: after
      it no later steer of the turn collides, while the actor's plain requeue always does. */
  lemma ReleasingWouldFreeTheOrdinal(a: Actor, e: Event, other: string)
    requires Rows(a) && a.turn.Some? && e.id in a.db.inbox && e.id !in a.turn.value.accepted && other != e.id
    requires other !in a.turn.value.accepted && (a.turn.value.turnId, other) !in a.db.inputs
    requires !OrdinalTaken(a.db, a.turn.value.turnId, e.id, |a.turn.value.inputs|)
    ensures var c := a.turn.value;
      var offered := OfferSteer(a.db, c, e);
      && !OrdinalTaken(ReleaseSteerPending(offered, e.id), c.turnId, other, |c.inputs|)
      && OrdinalTaken(SetDispositionAndTurn(offered, e.id, Queued, None), c.turnId, other, |c.inputs|)
  {
    var c := a.turn.value;
    OfferedRows(c, a.db, e);
    FreeOrdinalMeansNoReject(c, a.db, e.id);
    forall key | key in a.db.inputs && key.0 == c.turnId && key.1 != e.id
      ensures a.db.inputs[key].ordinal != |c.inputs|
    {
      var i :| 0 <= i < |c.accepted| && c.accepted[i] == key.1;
      assert key == (c.turnId, c.accepted[i]);
    }
    hide Rows;
    TheReleasedOrdinalIsFree(a.db, c, e, other);
    TheRequeuedOrdinalIsTaken(a.db, c, e, other);
  }

  lemma TheReleasedOrdinalIsFree(db: Db, c: TurnContext, e: Event, other: string)
    requires e.id in db.inbox && other != e.id && !OrdinalTaken(db, c.turnId, e.id, |c.inputs|)
    requires forall key :: key in db.inputs && key.0 == c.turnId && key.1 != e.id ==> db.inputs[key].ordinal != |c.inputs|
    ensures !OrdinalTaken(ReleaseSteerPending(OfferSteer(db, c, e), e.id), c.turnId, other, |c.inputs|)
  {
  }

  lemma TheRequeuedOrdinalIsTaken(db: Db, c: TurnContext, e: Event, other: string)
    requires e.id in db.inbox && other != e.id && !OrdinalTaken(db, c.turnId, e.id, |c.inputs|)
    requires (c.turnId, other) !in db.inputs
    requires (c.turnId, e.id) in db.inputs ==> db.inputs[(c.turnId, e.id)].ordinal == |c.inputs|
    ensures OrdinalTaken(SetDispositionAndTurn(OfferSteer(db, c, e), e.id, Queued, None), c.turnId, other, |c.inputs|)
  {
    var requeued := SetDispositionAndTurn(OfferSteer(db, c, e), e.id, Queued, None);
    hide OrdinalTaken;
    assert (c.turnId, e.id) in requeued.inputs && requeued.inputs[(c.turnId, e.id)].ordinal == |c.inputs|;
    assert OrdinalTaken(requeued, c.turnId, other, |c.inputs|) by {
      assert (c.turnId, other) !in requeued.inputs;
      IsTaken(requeued, c.turnId, e.id, other, |c.inputs|);
    }
  }

  lemma IsTaken(db: Db, t: string, id: string, other: string, ordinal: nat)
    requires (t, id) in db.inputs && db.inputs[(t, id)].ordinal == ordinal && (t, other) !in db.inputs
    ensures OrdinalTaken(db, t, other, ordinal)
  {
  }

  // ------------------------------------------------------ rotate, close, wedge

  /** A turn whose settle nobody will hear and whose session is gone. */
  predicate Stranded(a: Actor) {
    a.turn.Some? && a.session.None? && a.phase in {Phase.Running, Phase.Settling}
  }

  /** Rotating strands a turn exactly when a turn was active and an event was queued. */
  lemma RotateStrandsExactlyWhen(a: Actor, env: Env)
    requires Lifecycle(a) && !Stranded(a) && Fresh(a.db, env.turnId) && OnRotate(a, env).Done?
    ensures Stranded(OnRotate(a, env).a) <==> a.turn.Some? && a.queue != []
  {
  }

  /** A stranded turn never closes and never changes: no settle, cancel, rotate, close or
      new message moves it, before or after a close. */
  lemma {:induction false} AStrandedTurnIsForever(trace: seq<Actor>, steps: seq<Step>)
    requires Follows(trace, steps) && Valid(trace[0]) && Adrift(trace[0])
    ensures forall i :: 0 <= i < |trace| ==>
      SameTurnHeld(trace[0], trace[i]) && trace[i].closed == trace[0].closed && Adrift(trace[i])
  {
    hide Valid, Next, Possible, Adrift;
    if steps != [] {
      var n := |steps| - 1;
      AStrandedTurnIsForever(trace[..n + 1], steps[..n]);
      RunsAreValid(trace[..n + 1], steps[..n]);
      assert trace[n] == trace[..n + 1][n];
      AdriftStep(trace[n], steps[n]);
      assert forall i :: 0 <= i < n + 1 ==> trace[i] == trace[..n + 1][i];
    }
  }

  /** Stranded, closed or not. */
  predicate Adrift(a: Actor) {
    Stranded(a) || (a.turn.Some? && a.session.None? && a.phase == Closed)
  }

  /** The same turn is active; steers cannot join a turn without a session. */
  predicate SameTurnHeld(a: Actor, b: Actor) { b.turn == a.turn }

  lemma AdriftStep(a: Actor, step: Step)
    requires Valid(a) && Possible(a, step) && Adrift(a)
    ensures var b := Next(a, step); SameTurnHeld(a, b) && b.closed == a.closed && Adrift(b)
  {
    hide Rows, Fresh;
    if step.Turn? { AdriftPump(a, step.env); }
  }

  lemma AdriftPump(s: Actor, env: Env)
    requires Tracked(s) && Adrift(s) && Fresh(s.db, env.turnId)
    ensures var b := Pump(s, env); b.turn == s.turn && b.closed == s.closed && Adrift(b)
  {
    hide Fresh, StartTurn, SetTurnState, SetDisposition;
    if s.mailbox != [] && s.mailbox[0] == Pi(AgentSettled) { ASettleIsDiscounted(s); }
  }

  /** Without a turn that hears its settle, a settle at the head is one to discount. */
  lemma ASettleIsDiscounted(s: Actor)
    requires Tracked(s) && s.mailbox != [] && s.mailbox[0] == Pi(AgentSettled) && (s.shut || !Heard(s))
    ensures s.staleSettles > 0
  {
  }

  /** An actor whose session failed to open stays in `starting` with its permit until it is
      closed, and in `closed` from then on: nothing starts or closes a turn again. */
  lemma {:induction false} AFailedStartWedges(trace: seq<Actor>, steps: seq<Step>)
    requires Follows(trace, steps) && Valid(trace[0]) && trace[0].phase == Starting
    ensures forall i :: 0 <= i < |trace| ==>
      trace[i].turn.None? && trace[i].closed == trace[0].closed && trace[i].permits == 1
      && trace[i].phase in {Starting, Closed}
  {
    hide Valid, Next, Possible;
    StartingHoldsPermit(trace[0]);
    if steps != [] {
      var n := |steps| - 1;
      AFailedStartWedges(trace[..n + 1], steps[..n]);
      RunsAreValid(trace[..n + 1], steps[..n]);
      assert trace[n] == trace[..n + 1][n];
      WedgedStep(trace[n], steps[n]);
      assert forall i :: 0 <= i < n + 1 ==> trace[i] == trace[..n + 1][i];
    }
  }

  lemma StartingHoldsPermit(a: Actor)
    requires Valid(a) && a.phase == Starting
    ensures a.turn.None? && a.permits == 1
  {
    hide Rows;
  }

  lemma WedgedStep(a: Actor, step: Step)
    requires Valid(a) && Possible(a, step) && a.phase in {Starting, Closed} && a.turn.None?
    ensures var b := Next(a, step);
      b.turn.None? && b.closed == a.closed && b.permits == a.permits && b.phase in {Starting, Closed}
  {
    hide Rows, Fresh;
    if step.Turn? { WedgedPump(a, step.env); }
  }

  lemma WedgedPump(s: Actor, env: Env)
    requires Tracked(s) && s.phase in {Starting, Closed} && s.turn.None? && Fresh(s.db, env.turnId)
    ensures var b := Pump(s, env);
      b.turn.None? && b.closed == s.closed && b.permits == s.permits && b.phase in {Starting, Closed}
  {
    hide Fresh, StartTurn, SetTurnState, SetDisposition;
    if s.mailbox != [] && s.mailbox[0] == Pi(AgentSettled) { ASettleIsDiscounted(s); }
  }

  /** Closing ends with no turn exactly when there was none, or it could be cancelled and
      nothing was queued behind it; a failing start keeps the actor from closing at all. */
  lemma CloseEndsTheTurnExactlyWhen(a: Actor, env: Env)
    requires Lifecycle(a) && Fresh(a.db, env.turnId)
    ensures OnClose(a, env).Threw? ==> OnClose(a, env).a.phase == Starting
    ensures OnClose(a, env).Done? ==>
      && OnClose(a, env).a.phase == Closed
      && (OnClose(a, env).a.turn.None? <==> a.turn.None? || (a.session.Some? && a.queue == []))
  {
  }

  // ------------------------------------------------------- a closed actor pumps on

  /** The message at the head gets a closed actor going again: a turn outlived the close, and
      it is a cancel or a rotate that reaches its session, the end of a run, or a second close
      whose cancel starts a queued event and fails. */
  predicate Reopens(s: Actor, env: Env) {
    && s.turn.Some? && s.mailbox != []
    && match s.mailbox[0]
       case Cancel(_) => s.session.Some?
       case Rotate => s.session.Some?
       case Pi(p) => p == AgentEnd(false)
       case Close => s.session.Some? && s.queue != [] && NeedsSession(s, s.queue[0], env) && !env.opens
       case Inbound(_) => false
  }

  /** A closed actor leaves `closed` exactly then: closing does not stop the pump, only the
      posting, so what was posted behind the close is still handled. */
  lemma AClosedActorReopensExactlyWhen(s: Actor, env: Env)
    requires Tracked(s) && s.phase == Closed && Fresh(s.db, env.turnId)
    ensures Pump(s, env).phase != Closed <==> Reopens(s, env)
  {
    hide Fresh, SetTurnState, SetDisposition, StartTurn, OnCancel;
    if s.mailbox != [] {
      var m, a := s.mailbox[0], s.(mailbox := s.mailbox[1..]);
      match m
      case Inbound(e) =>
      case Pi(p) => if p == AgentSettled { ASettleIsDiscounted(s); }
      case Cancel(reason) => CancelLeavesClosed(a, reason, env);
      case Rotate => CancelLeavesClosed(a, "rotated", env);
      case Close => CancelLeavesClosed(a, "shutdown", env);
    }
  }

  /** A cancel that reaches a session ends idle, or starts the next queued event or fails to. */
  lemma CancelLeavesClosed(a: Actor, reason: string, env: Env)
    requires Fresh(a.db, env.turnId)
    ensures var r := OnCancel(a, reason, env);
      if a.turn.None? || a.session.None? then r == Done(a)
      else
        && r.a.phase != Closed
        && (r.Threw? <==> a.queue != [] && NeedsSession(a, a.queue[0], env) && !env.opens)
  {
    hide Fresh, CompleteTurnInputs, SetTurnState, OpenTurn;
  }

  /** Once a close was handled no settle closes a turn, in any run: the turns that run on or
      start again never hear their own. */
  lemma AfterACloseNoSettleIsHeard(channelId: string, trace: seq<Actor>, steps: seq<Step>, i: nat)
    requires Follows(trace, steps) && trace[0] == NewActor(channelId) && i < |steps|
    requires trace[i].shut && steps[i].Turn? && trace[i].mailbox != [] && trace[i].mailbox[0] == Pi(AgentSettled)
    ensures trace[i + 1].turn == trace[i].turn && trace[i + 1].closed == trace[i].closed
    ensures trace[i + 1].phase == trace[i].phase
  {
    NewActorIsValid(channelId);
    RunsAreValid(trace, steps);
    assert Valid(trace[i]);
    assert Possible(trace[i], steps[i]) && trace[i + 1] == Next(trace[i], steps[i]);
    hide Rows, Follows, Fresh, Settle;
    ASettleIsDiscounted(trace[i]);
  }

  // ------------------------------------------------------------ a late agent_end

  /** An `agent_end` does not say whose run it ends. One that was posted behind a cancel puts
      the turn started from the queue into settling, though nothing of it has ended, and so
      exactly when the cancel reached a session and the next turn did start. */
  lemma ALateAgentEndSettlesTheNextTurnExactlyWhen(s: Actor, reason: string, env: Env, later: Env)
    requires s.turn.Some? && s.turn.value.turnId in s.db.turns && s.queue != [] && Fresh(s.db, env.turnId)
    requires |s.mailbox| >= 2 && s.mailbox[0] == Cancel(reason) && s.mailbox[1] == Pi(AgentEnd(false))
    requires Fresh(Pump(s, env).db, later.turnId)
    ensures var b := Pump(Pump(s, env), later);
      && (IsRunning(Pump(s, env), env.turnId) <==>
            (s.session.Some? && (env.opens || !NeedsSession(s, s.queue[0], env))))
      && (IsRunning(Pump(s, env), env.turnId) ==>
            && Pump(s, env).turn.value.primaryId == s.queue[0].id
            && b.phase == Phase.Settling && b.turn == Pump(s, env).turn && b.inFlight == Pump(s, env).inFlight
            && env.turnId in b.db.turns && b.db.turns[env.turnId].state == TurnState.Settling)
  {
    CancelStartsTheNext(s.(mailbox := s.mailbox[1..]), reason, env);
    hide OnCancel, Fresh;
  }

  /** The turn an assistant message at the head of the mailbox is recorded under, if any: the
      handler hands the output router whatever turn is active by then. */
  function RecordedUnder(a: Actor): Option<TurnContext> {
    if a.mailbox != [] && a.mailbox[0].Pi? && a.mailbox[0].pi.MessageEnd? then a.turn else None
  }

  /** A message the cancelled run completed, posted behind the cancel, does not say whose it is
      either. It is recorded as the next turn's, so in reply to the queued event, exactly when
      the cancel reached a session and that turn started; as its own turn's exactly when the
      cancel reached none; and otherwise not at all. */
  lemma ALateMessageGoesToTheNextTurnExactlyWhen(s: Actor, reason: string, env: Env, messageId: string)
    requires s.turn.Some? && s.turn.value.turnId in s.db.turns && Fresh(s.db, env.turnId)
    requires |s.mailbox| >= 2 && s.mailbox[0] == Cancel(reason) && s.mailbox[1] == Pi(MessageEnd(messageId))
    ensures var under := RecordedUnder(Pump(s, env));
      var starts := s.queue != [] && (env.opens || !NeedsSession(s, s.queue[0], env));
      && (under == s.turn <==> s.session.None?)
      && ((under.Some? && under.value.turnId == env.turnId) <==> s.session.Some? && starts)
      && (s.session.Some? && starts ==> under.value.primaryId == s.queue[0].id)
      && (under.None? <==> s.session.Some? && !starts)
  {
    var a := s.(mailbox := s.mailbox[1..]);
    CancelIs(a, reason, env);
    if s.session.Some? && s.queue != [] {
      CancelPassesOn(a, reason, env);
      hide OnCancel, Fresh;
    } else if s.session.Some? {
      EmittingLeaves(a);
      hide Fresh, EmitSettled;
      var e := EmitSettled(a).(staleSettles := a.staleSettles + 1);
      ClosingLeaves(e, reason, env);
      hide CloseTurn, OnCancel;
      assert OnCancel(a, reason, env) == Done(CloseTurn(e, reason, env));
    }
  }

  /** The turn a cancel leaves active is the next one, or none. */
  lemma CancelPassesOn(a: Actor, reason: string, env: Env)
    requires a.turn.Some? && a.session.Some? && a.queue != [] && Fresh(a.db, env.turnId) && a.mailbox != []
    ensures var b, starts := OnCancel(a, reason, env).a, env.opens || !NeedsSession(a, a.queue[0], env);
      && b.mailbox != [] && b.mailbox[0] == a.mailbox[0] && (b.turn.Some? <==> starts)
      && (starts ==> b.turn.value.turnId == env.turnId && b.turn.value.primaryId == a.queue[0].id)
  {
    CancelIs(a, reason, env);
    EmittingLeaves(a);
    var e := EmitSettled(a).(staleSettles := a.staleSettles + 1);
    ClosingLeaves(e, reason, env);
    hide OnCancel, EmitSettled, CloseTurn, StartTurn, Fresh;
    var c := CloseTurn(e, reason, env);
    StartsOrNot(c.(queue := c.queue[1..]), c.queue[0], env);
  }

  lemma StartsOrNot(a: Actor, e: Event, env: Env)
    requires a.turn.None? && Fresh(a.db, env.turnId)
    ensures var b, starts := StartTurn(a, e, env).a, env.opens || !NeedsSession(a, e, env);
      && (b.turn.Some? <==> starts) && b.mailbox == a.mailbox
      && (starts ==> b.turn.value.turnId == env.turnId && b.turn.value.primaryId == e.id)
  {
    hide OpenTurn;
  }

  predicate IsRunning(a: Actor, turnId: string) {
    a.turn.Some? && a.turn.value.turnId == turnId && a.phase == Phase.Running
  }

  lemma CancelStartsTheNext(a: Actor, reason: string, env: Env)
    requires a.turn.Some? && a.queue != [] && Fresh(a.db, env.turnId) && a.mailbox != []
    requires a.turn.value.turnId in a.db.turns
    ensures var b := OnCancel(a, reason, env).a;
      && (IsRunning(b, env.turnId) <==> (a.session.Some? && (env.opens || !NeedsSession(a, a.queue[0], env))))
      && (IsRunning(b, env.turnId) ==>
            && b.turn.value.primaryId == a.queue[0].id
            && b.mailbox != [] && b.mailbox[0] == a.mailbox[0] && env.turnId in b.db.turns)
  {
    CancelIs(a, reason, env);
    if a.session.Some? {
      EmittingLeaves(a);
      hide *;
      SettleStartsTheNext(EmitSettled(a).(staleSettles := a.staleSettles + 1), reason, env);
    }
  }

  lemma EmittingLeaves(a: Actor)
    ensures var e := EmitSettled(a); e == a.(mailbox := e.mailbox)
    ensures a.mailbox != [] ==> EmitSettled(a).mailbox != [] && EmitSettled(a).mailbox[0] == a.mailbox[0]
  {
  }

  lemma SettleStartsTheNext(a: Actor, reason: string, env: Env)
    requires a.turn.Some? && a.queue != [] && Fresh(a.db, env.turnId)
    ensures var b := Settle(a, reason, env).a;
      && (IsRunning(b, env.turnId) <==> (env.opens || !NeedsSession(a, a.queue[0], env)))
      && (IsRunning(b, env.turnId) ==> b.turn.value.primaryId == a.queue[0].id && env.turnId in b.db.turns)
      && b.mailbox == a.mailbox
  {
    ClosingLeaves(a, reason, env);
    hide StartTurn, CloseTurn, Fresh;
    var c := CloseTurn(a, reason, env);
    StartsRunning(c.(queue := c.queue[1..]), c.queue[0], env);
  }

  lemma StartsRunning(a: Actor, e: Event, env: Env)
    requires a.turn.None? && Fresh(a.db, env.turnId)
    ensures var b := StartTurn(a, e, env).a;
      && (IsRunning(b, env.turnId) <==> (env.opens || !NeedsSession(a, e, env)))
      && b.mailbox == a.mailbox && env.turnId in b.db.turns
      && (b.turn.Some? ==> b.turn.value.primaryId == e.id)
  {
  }

  // --------------------------------------------------------------------- runs

  /** In every run of a new actor, at every point, an admitted event is in exactly one place:
      the mailbox, the queue, the active turn, one settled turn, or given up by a handler that
      threw or by an actor that was closed; and its row says which, at what position. */
  lemma NoRunLosesTrackOfAnEvent(channelId: string, trace: seq<Actor>, steps: seq<Step>, i: nat, id: string)
    requires Follows(trace, steps) && trace[0] == NewActor(channelId) && i < |trace|
    requires id in trace[i].db.inbox
    ensures var a := trace[i];
      multiset(Posted(a.mailbox))[id] + multiset(Ids(a.queue))[id] + multiset(ActiveIds(a))[id]
      + multiset(ClosedIds(a.closed))[id] + multiset(a.lost)[id] == 1
    ensures RowSaysWhere(trace[i], id)
    ensures trace[i].phase == Idle ==> trace[i].queue == [] && trace[i].turn.None?
  {
    NewActorIsValid(channelId);
    RunsAreValid(trace, steps);
    assert Valid(trace[i]);
    AnAdmittedEventIsInOnePlace(trace[i], id);
    hide Rows;
  }

  /** Each step a run took came back without a throw, and nothing was offered to a closed actor. */
  ghost predicate Smooth(trace: seq<Actor>, steps: seq<Step>)
    requires Follows(trace, steps)
  {
    forall k :: 0 <= k < |steps| ==> SmoothStep(trace[k], steps[k])
  }

  ghost predicate SmoothStep(a: Actor, step: Step)
    requires Possible(a, step)
  {
    match step
    case Offer(_, _) => a.phase != Closed
    case Turn(env) => a.mailbox != [] ==> Handle(a.(mailbox := a.mailbox[1..]), a.mailbox[0], env).Done?
    case _ => true
  }

  lemma {:induction false} SmoothRunsLoseNothing(channelId: string, trace: seq<Actor>, steps: seq<Step>)
    requires Follows(trace, steps) && trace[0] == NewActor(channelId) && Smooth(trace, steps)
    ensures forall i :: 0 <= i < |trace| ==> trace[i].lost == []
  {
    hide Next, Possible, SmoothStep;
    if steps != [] {
      var n := |steps| - 1;
      assert Follows(trace[..n + 1], steps[..n]);
      assert forall k :: 0 <= k < n ==> trace[..n + 1][k] == trace[k] && steps[..n][k] == steps[k];
      SmoothRunsLoseNothing(channelId, trace[..n + 1], steps[..n]);
      assert trace[n] == trace[..n + 1][n];
      SmoothStepLosesNothing(trace[n], steps[n]);
      assert forall i :: 0 <= i < n + 1 ==> trace[i] == trace[..n + 1][i];
    }
  }

  lemma SmoothStepLosesNothing(a: Actor, step: Step)
    requires Possible(a, step) && SmoothStep(a, step)
    ensures Next(a, step).lost == a.lost
  {
    if step.Turn? && a.mailbox != [] { DoneLosesNothing(a.(mailbox := a.mailbox[1..]), a.mailbox[0], step.env); }
  }

  lemma DoneLosesNothing(a: Actor, m: Message, env: Env)
    requires Fresh(a.db, env.turnId) && Handle(a, m, env).Done?
    ensures Handle(a, m, env).a.lost == a.lost
  {
    hide Fresh, OnCancel, OnInbound, OnPiEvent, Unsubscribe;
    match m
    case Inbound(e) => InboundLosesByThrowing(a, e, env);
    case Pi(p) => PiLosesByThrowing(a, p, env);
    case Cancel(reason) => CancelLosesByThrowing(a, reason, env);
    case Rotate =>
      CancelLosesByThrowing(a, "rotated", env);
      UnsubscribeLosesNothing(OnCancel(a, "rotated", env).a);
    case Close =>
      CancelLosesByThrowing(a, "shutdown", env);
      UnsubscribeLosesNothing(a);
      UnsubscribeLosesNothing(OnCancel(a, "shutdown", env).a);
  }

  lemma UnsubscribeLosesNothing(a: Actor)
    ensures Unsubscribe(a).lost == a.lost
  {
  }

  lemma StartLosesByThrowing(a: Actor, e: Event, env: Env)
    requires Fresh(a.db, env.turnId)
    ensures StartTurn(a, e, env).Done? ==> StartTurn(a, e, env).a.lost == a.lost
  {
    hide OpenTurn;
  }

  lemma InboundLosesByThrowing(a: Actor, e: Event, env: Env)
    requires Fresh(a.db, env.turnId)
    ensures OnInbound(a, e, env).Done? ==> OnInbound(a, e, env).a.lost == a.lost
  {
    hide StartTurn, OfferSteer, AcceptSteer, OrdinalTaken, WithSteeringInput;
    if a.phase == Idle { StartLosesByThrowing(a, e, env); }
  }

  lemma SettleLosesByThrowing(a: Actor, reason: string, env: Env)
    requires Fresh(a.db, env.turnId)
    ensures Settle(a, reason, env).Done? ==> Settle(a, reason, env).a.lost == a.lost
  {
    hide StartTurn;
    if a.turn.Some? && a.queue != [] {
      var c := CloseTurn(a, reason, env);
      StartLosesByThrowing(c.(queue := c.queue[1..]), c.queue[0], env);
    }
  }

  lemma PiLosesByThrowing(a: Actor, p: PiEvent, env: Env)
    requires Fresh(a.db, env.turnId)
    ensures OnPiEvent(a, p, env).Done? ==> OnPiEvent(a, p, env).a.lost == a.lost
  {
    hide Settle, SetTurnState;
    SettleLosesByThrowing(if a.inFlight == [] then a else a.(inFlight := a.inFlight[1..]), "end_turn", env);
  }

  lemma CancelLosesByThrowing(a: Actor, reason: string, env: Env)
    requires Fresh(a.db, env.turnId)
    ensures OnCancel(a, reason, env).Done? ==> OnCancel(a, reason, env).a.lost == a.lost
  {
    var b := EmitSettled(a);
    assert b.lost == a.lost && b.db == a.db;
    hide Settle, EmitSettled;
    SettleLosesByThrowing(b.(staleSettles := b.staleSettles + 1), reason, env);
  }

  /** A run in which no handler throws and nothing is offered after close holds every admitted
      event in exactly one of the mailbox, the queue, the active turn and one settled turn, and
      the event's row agrees. */
  lemma ASmoothRunHoldsEveryEvent(channelId: string, trace: seq<Actor>, steps: seq<Step>, i: nat, id: string)
    requires Follows(trace, steps) && trace[0] == NewActor(channelId) && Smooth(trace, steps)
    requires i < |trace| && id in trace[i].db.inbox
    ensures var a := trace[i];
      && a.lost == []
      && multiset(Posted(a.mailbox))[id] + multiset(Ids(a.queue))[id] + multiset(ActiveIds(a))[id]
         + multiset(ClosedIds(a.closed))[id] == 1
    ensures RowSaysWhere(trace[i], id)
  {
    SmoothRunsLoseNothing(channelId, trace, steps);
    NoRunLosesTrackOfAnEvent(channelId, trace, steps, i, id);
    hide Follows, Smooth, RowSaysWhere;
    assert multiset(trace[i].lost)[id] == 0;
  }

  /** In every run of a new actor, a step gives an event up exactly when it offers a new one to
      a closed actor, or handles a message that steers into a turn with a refused steer or
      starts a turn whose session cannot be opened. */
  lemma ARunLosesAnEventExactlyWhen(channelId: string, trace: seq<Actor>, steps: seq<Step>, i: nat)
    requires Follows(trace, steps) && trace[0] == NewActor(channelId) && i < |steps|
    ensures trace[i + 1].lost != trace[i].lost <==>
      match steps[i]
      case Offer(e, _) => e.id !in trace[i].db.inbox && trace[i].phase == Closed
      case Turn(env) =>
        && trace[i].mailbox != []
        && (|| (WouldSteer(trace[i]) && RejectedBefore(trace[i], trace[i].mailbox[0].event.id))
            || (WouldStart(trace[i]).Some? && NeedsSession(trace[i], WouldStart(trace[i]).value, env) && !env.opens))
      case _ => false
  {
    NewActorIsValid(channelId);
    RunsAreValid(trace, steps);
    var s := trace[i];
    assert Valid(s);
    assert Possible(s, steps[i]) && trace[i + 1] == Next(s, steps[i]);
    hide Follows;
    if steps[i].Turn? && s.mailbox != [] {
      ValidGivesSteerRows(s);
      hide SteerRows, Rows;
      AnEventIsLostExactlyWhen(s, steps[i].env);
    }
    hide Pump, Rows;
  }

  /** In every run of a new actor, an `agent_settled` closes no turn or the one whose own run
      it ends. */
  lemma NoRunClosesAnothersTurn(channelId: string, trace: seq<Actor>, steps: seq<Step>, i: nat)
    requires Follows(trace, steps) && trace[0] == NewActor(channelId) && i < |steps|
    requires steps[i].Turn? && trace[i].mailbox != [] && trace[i].mailbox[0] == Pi(AgentSettled)
    ensures var a, b := trace[i], trace[i + 1];
      || b.closed == a.closed
      || (a.turn.Some? && b.closed == a.closed + [a.turn.value] && a.inFlight == [a.turn.value.turnId])
  {
    NewActorIsValid(channelId);
    RunsAreValid(trace, steps);
    assert Valid(trace[i]);
    assert Possible(trace[i], steps[i]) && trace[i + 1] == Next(trace[i], steps[i]);
    if trace[i].shut {
      AfterACloseNoSettleIsHeard(channelId, trace, steps, i);
    } else {
      hide Rows, Follows;
      ASettleClosesOnlyItsOwnTurn(trace[i], steps[i].env);
    }
  }
}
