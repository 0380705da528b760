/** An actor over a store that an earlier process left: its runs are the runs of an actor over an
    empty store with the kept rows laid under, so what holds of those survives every restart. */
module Restarts {
  import opened Basics
  import opened Tables
  import opened TurnContexts
  import opened ActorModel
  import opened ActorProofs
  import D = ActorDebts
  import T = ActorTheorems
  import R = Recovery
  import RR = RecoveryReruns
  import C = CrashReplay

  /** The rows of `db` and those of `kept`. */
  function With(db: Db, kept: Db): Db {
    Db(db.inbox + kept.inbox, db.turns + kept.turns, db.inputs + kept.inputs, kept.intents, kept.outbox)
  }

  function Over(a: Actor, kept: Db): Actor { a.(db := With(a.db, kept)) }

  function OverOutcome(o: Outcome, kept: Db): Outcome {
    match o
    case Done(a) => Done(Over(a, kept))
    case Threw(a) => Threw(Over(a, kept))
  }

  /** The old store knows nothing of the turn. */
  ghost predicate Foreign(kept: Db, t: string) {
    && t !in kept.turns
    && (forall key :: key in kept.inputs ==> key.0 != t)
    && (forall id :: id in kept.inbox ==> kept.inbox[id].turnId != Some(t))
  }

  /** Every turn that a row names has its own row. */
  ghost predicate Linked(kept: Db) {
    && (forall id :: id in kept.inbox && kept.inbox[id].turnId.Some? ==> kept.inbox[id].turnId.value in kept.turns)
    && (forall key :: key in kept.inputs ==> key.0 in kept.turns)
  }

  /** The new rows share no event and no turn with the old ones. */
  ghost predicate Apart(db: Db, kept: Db) {
    && (forall id :: id in db.inbox ==> id !in kept.inbox)
    && (forall t :: t in db.turns ==> Foreign(kept, t))
    && (forall key :: key in db.inputs ==> key.0 in db.turns)
  }

  // ------------------------------------------------------------- one statement

  /** A key the rows below do not have is written as if they were not there. */
  lemma Laid<K, V>(added: map<K, V>, below: map<K, V>, k: K, v: V)
    requires k !in below
    ensures added[k := v] + below == (added + below)[k := v]
    ensures k in added + below <==> k in added
    ensures k in added ==> (added + below)[k] == added[k]
  {
  }

  lemma DispositionOver(db: Db, kept: Db, id: string, d: Disposition)
    requires id !in kept.inbox
    ensures SetDisposition(With(db, kept), id, d) == With(SetDisposition(db, id, d), kept)
  {
    if id in db.inbox { Laid(db.inbox, kept.inbox, id, db.inbox[id].(disposition := d)); }
  }

  lemma ReleasedOver(db: Db, kept: Db, id: string, d: Disposition)
    requires id !in kept.inbox
    ensures SetDispositionAndTurn(With(db, kept), id, d, None) == With(SetDispositionAndTurn(db, id, d, None), kept)
  {
    if id in db.inbox {
      Laid(db.inbox, kept.inbox, id, db.inbox[id].(disposition := d, turnId := None, ordinal := None));
    }
  }

  lemma AssignOver(db: Db, kept: Db, id: string, t: string, ordinal: nat, d: Disposition)
    requires id !in kept.inbox
    ensures AssignToTurn(With(db, kept), id, t, ordinal, d) == With(AssignToTurn(db, id, t, ordinal, d), kept)
  {
  }

  lemma OrdinalOver(db: Db, kept: Db, t: string, id: string, ordinal: nat)
    requires Foreign(kept, t)
    ensures OrdinalTaken(With(db, kept), t, id, ordinal) <==> OrdinalTaken(db, t, id, ordinal)
  {
    var both := With(db, kept);
    assert forall key :: key in both.inputs && key.0 == t <==> key in db.inputs && key.0 == t;
    assert forall key :: key in db.inputs && key.0 == t ==> both.inputs[key] == db.inputs[key];
  }

  lemma InputOver(db: Db, kept: Db, t: string, id: string, role: Role, ordinal: nat)
    requires Foreign(kept, t) && !OrdinalTaken(db, t, id, ordinal)
    ensures !OrdinalTaken(With(db, kept), t, id, ordinal)
    ensures AddInput(With(db, kept), t, id, role, ordinal) == With(AddInput(db, t, id, role, ordinal), kept)
  {
    OrdinalOver(db, kept, t, id, ordinal);
    assert (t, id) !in kept.inputs;
    hide OrdinalTaken, Foreign;
    Laid(db.inputs, kept.inputs, (t, id), InputRow(role, ordinal, None));
  }

  lemma DeliveredOver(db: Db, kept: Db, t: string, id: string, at: int)
    requires Foreign(kept, t)
    ensures MarkInputDelivered(With(db, kept), t, id, at) == With(MarkInputDelivered(db, t, id, at), kept)
  {
    assert (t, id) !in kept.inputs;
  }

  lemma StateOver(db: Db, kept: Db, t: string, state: TurnState, reason: Option<string>, now: int)
    requires Foreign(kept, t)
    ensures SetTurnState(With(db, kept), t, state, reason, now) == With(SetTurnState(db, t, state, reason, now), kept)
  {
  }

  lemma CompleteOver(db: Db, kept: Db, t: string)
    requires Foreign(kept, t) && forall id :: id in db.inbox ==> id !in kept.inbox
    ensures CompleteTurnInputs(With(db, kept), t) == With(CompleteTurnInputs(db, t), kept)
  {
    var both := With(db, kept);
    var l, r := CompleteTurnInputs(both, t).inbox, CompleteTurnInputs(db, t).inbox + kept.inbox;
    forall id | id in l ensures l[id] == r[id] {
      if id in kept.inbox { assert both.inbox[id] == kept.inbox[id]; } else { assert both.inbox[id] == db.inbox[id]; }
    }
    assert l.Keys == r.Keys;
    assert l == r;
  }

  lemma CreateOver(db: Db, kept: Db, t: string, row: TurnRow)
    requires Foreign(kept, t)
    ensures CreateTurn(With(db, kept), t, row) == With(CreateTurn(db, t, row), kept)
  {
  }

  lemma FreshOver(db: Db, kept: Db, t: string)
    requires Foreign(kept, t)
    ensures Fresh(With(db, kept), t) <==> Fresh(db, t)
  {
    var both := With(db, kept);
    assert forall key :: key in both.inputs && key.0 == t <==> key in db.inputs && key.0 == t;
  }

  // --------------------------------------------------------------- one handler

  lemma OpenOver(db: Db, kept: Db, channelId: string, e: Event, env: Env)
    requires Fresh(db, env.turnId) && Foreign(kept, env.turnId) && e.id !in kept.inbox
    ensures Fresh(With(db, kept), env.turnId)
    ensures OpenTurn(With(db, kept), channelId, e, env) == With(OpenTurn(db, channelId, e, env), kept)
  {
    FreshOver(db, kept, env.turnId);
    var row := TurnRow(channelId, e.threadRoot, e.id, Created, env.now, None, None);
    var created := CreateTurn(db, env.turnId, row);
    assert !OrdinalTaken(created, env.turnId, e.id, 0);
    CreateOver(db, kept, env.turnId, row);
    InputOver(created, kept, env.turnId, e.id, Primary, 0);
    AssignOver(AddInput(created, env.turnId, e.id, Primary, 0), kept, e.id, env.turnId, 0, Prompted);
    hide With, CreateTurn, AddInput, AssignToTurn, Foreign, Fresh, OrdinalTaken;
  }

  lemma LaunchOver(a: Actor, kept: Db, e: Event, env: Env)
    requires Foreign(kept, env.turnId)
    ensures Launch(Over(a, kept), e, env) == Over(Launch(a, e, env), kept)
  {
    StateOver(a.db, kept, env.turnId, TurnState.Running, None, env.now);
    DeliveredOver(SetTurnState(a.db, env.turnId, TurnState.Running, None, env.now), kept, env.turnId, e.id, env.now);
    hide With, SetTurnState, MarkInputDelivered, Foreign;
  }

  lemma ReleaseOver(a: Actor, kept: Db, root: Option<string>, env: Env)
    ensures ReleaseStaleSession(Over(a, kept), root, env) == Over(ReleaseStaleSession(a, root, env), kept)
  {
    hide With;
  }

  lemma StartOver(a: Actor, kept: Db, e: Event, env: Env)
    requires Fresh(a.db, env.turnId) && Foreign(kept, env.turnId) && e.id !in kept.inbox
    ensures Fresh(Over(a, kept).db, env.turnId)
    ensures StartTurn(Over(a, kept), e, env) == OverOutcome(StartTurn(a, e, env), kept)
  {
    OpenOver(a.db, kept, a.channelId, e, env);
    hide With, OpenTurn, Foreign, Fresh, Launch, ReleaseStaleSession;
    var begun := Begin(a, e, env);
    assert Begin(Over(a, kept), e, env) == Over(begun, kept);
    ReleaseOver(begun, kept, SessionRoot(e), env);
    var ready := ReleaseStaleSession(begun, SessionRoot(e), env);
    LaunchOver(ready, kept, e, env);
    LaunchOver(ready.(session := Some(SessionRoot(e)), subscribed := true), kept, e, env);
    hide Begin;
  }

  lemma SteerOver(a: Actor, kept: Db, e: Event, env: Env)
    requires a.turn.Some? && Foreign(kept, a.turn.value.turnId) && e.id !in kept.inbox
    ensures SteerTurn(Over(a, kept), e, env) == OverOutcome(SteerTurn(a, e, env), kept)
  {
    var c, n := a.turn.value, |a.turn.value.inputs|;
    DispositionOver(a.db, kept, e.id, Queued);
    OrdinalOver(a.db, kept, c.turnId, e.id, n);
    if a.session.Some? && !OrdinalTaken(a.db, c.turnId, e.id, n) {
      InputOver(a.db, kept, c.turnId, e.id, Role.Steer, n);
      AssignOver(AddInput(a.db, c.turnId, e.id, Role.Steer, n), kept, e.id, c.turnId, n, SteerPending);
      var offered := OfferSteer(a.db, c, e);
      DispositionOver(offered, kept, e.id, SteerDelivered);
      ReleasedOver(offered, kept, e.id, Queued);
      DeliveredOver(SetDisposition(offered, e.id, SteerDelivered), kept, c.turnId, e.id, env.now);
      hide With, AddInput, AssignToTurn, SetDisposition, SetDispositionAndTurn, MarkInputDelivered, Foreign, OrdinalTaken;
      assert OfferSteer(With(a.db, kept), c, e) == With(offered, kept);
    }
    hide With, Foreign, OrdinalTaken, OfferSteer, SetDisposition, AcceptSteer, WithSteeringInput;
  }

  lemma InboundOver(a: Actor, kept: Db, e: Event, env: Env)
    requires Fresh(a.db, env.turnId) && Foreign(kept, env.turnId) && e.id !in kept.inbox
    requires a.turn.Some? ==> Foreign(kept, a.turn.value.turnId)
    ensures Fresh(Over(a, kept).db, env.turnId)
    ensures OnInbound(Over(a, kept), e, env) == OverOutcome(OnInbound(a, e, env), kept)
  {
    FreshOver(a.db, kept, env.turnId);
    StartOver(a, kept, e, env);
    if a.turn.Some? { SteerOver(a, kept, e, env); }
    DispositionOver(a.db, kept, e.id, Queued);
    hide With, Foreign, Fresh, StartTurn, SteerTurn, SetDisposition;
  }

  /** What the handlers take for granted of the actor and the old store. */
  ghost predicate Free(a: Actor, kept: Db, env: Env) {
    && Fresh(a.db, env.turnId) && Foreign(kept, env.turnId)
    && (a.turn.Some? ==> Foreign(kept, a.turn.value.turnId))
    && (a.queue != [] ==> a.queue[0].id !in kept.inbox)
    && (forall id :: id in a.db.inbox ==> id !in kept.inbox)
  }

  lemma SettleOver(a: Actor, kept: Db, reason: string, env: Env)
    requires Free(a, kept, env)
    ensures Fresh(Over(a, kept).db, env.turnId)
    ensures Settle(Over(a, kept), reason, env) == OverOutcome(Settle(a, reason, env), kept)
  {
    FreshOver(a.db, kept, env.turnId);
    if a.turn.Some? {
      var t := a.turn.value.turnId;
      StateOver(a.db, kept, t, Finished, Some(reason), env.now);
      CompleteOver(SetTurnState(a.db, t, Finished, Some(reason), env.now), kept, t);
      ClosingLeaves(a, reason, env);
      var c := CloseTurn(a, reason, env);
      assert CloseTurn(Over(a, kept), reason, env) == Over(c, kept) by { hide With, CompleteTurnInputs, SetTurnState; }
      hide With, CloseTurn, Foreign, Fresh, StartTurn;
      if a.queue != [] { StartOver(c.(queue := c.queue[1..]), kept, a.queue[0], env); }
    }
    hide With, Foreign, Fresh, StartTurn;
  }

  lemma AgentEndOver(a: Actor, kept: Db, willRetry: bool, env: Env)
    requires Free(a, kept, env) && Fresh(Over(a, kept).db, env.turnId)
    ensures OnPiEvent(Over(a, kept), AgentEnd(willRetry), env) == OverOutcome(OnPiEvent(a, AgentEnd(willRetry), env), kept)
  {
    FreeTurn(a, kept, env);
    hide With, Foreign, Fresh, SetTurnState, Settle, Free;
    if a.turn.Some? { StateOver(a.db, kept, a.turn.value.turnId, TurnState.Settling, None, env.now); }
  }

  lemma AgentSettledOver(a: Actor, kept: Db, env: Env)
    requires Free(a, kept, env) && Fresh(Over(a, kept).db, env.turnId)
    ensures OnPiEvent(Over(a, kept), AgentSettled, env) == OverOutcome(OnPiEvent(a, AgentSettled, env), kept)
  {
    var b := if a.inFlight == [] then a else a.(inFlight := a.inFlight[1..]);
    assert Free(b, kept, env);
    FreeTurn(a, kept, env);
    hide With, Foreign, Fresh, Settle, SetTurnState, Free;
    SettleOver(b, kept, "end_turn", env);
  }

  lemma PiOver(a: Actor, kept: Db, p: PiEvent, env: Env)
    requires Free(a, kept, env)
    ensures Fresh(Over(a, kept).db, env.turnId)
    ensures OnPiEvent(Over(a, kept), p, env) == OverOutcome(OnPiEvent(a, p, env), kept)
  {
    FreeTurn(a, kept, env);
    FreshOver(a.db, kept, env.turnId);
    hide With, Foreign, Fresh, Settle, SetTurnState, Free;
    match p
    case Streaming =>
    case MessageEnd(_) =>
    case AgentEnd(willRetry) => AgentEndOver(a, kept, willRetry, env);
    case AgentSettled => AgentSettledOver(a, kept, env);
  }

  lemma EmitOver(a: Actor, kept: Db)
    ensures EmitSettled(Over(a, kept)) == Over(EmitSettled(a), kept)
    ensures EmitSettled(a) == a.(mailbox := EmitSettled(a).mailbox)
  {
    hide With;
  }

  lemma UnsubscribeOver(a: Actor, kept: Db)
    ensures Unsubscribe(Over(a, kept)) == Over(Unsubscribe(a), kept)
  {
    hide With;
  }

  lemma SettlingOver(a: Actor, kept: Db, reason: string, env: Env)
    requires Free(a, kept, env)
    ensures var e := EmitSettled(a).(staleSettles := a.staleSettles + 1);
      && Fresh(e.db, env.turnId) && Fresh(Over(e, kept).db, env.turnId)
      && Settle(Over(e, kept), reason, env) == OverOutcome(Settle(e, reason, env), kept)
  {
    EmitOver(a, kept);
    var e := EmitSettled(a).(staleSettles := a.staleSettles + 1);
    assert Free(e, kept, env) by { hide EmitSettled; }
    hide *;
    SettleOver(e, kept, reason, env);
    FreeTurn(e, kept, env);
  }

  lemma CancelOver(a: Actor, kept: Db, reason: string, env: Env)
    requires Free(a, kept, env)
    ensures Fresh(Over(a, kept).db, env.turnId)
    ensures OnCancel(Over(a, kept), reason, env) == OverOutcome(OnCancel(a, reason, env), kept)
  {
    FreeTurn(a, kept, env);
    FreshOver(a.db, kept, env.turnId);
    var e, o := EmitSettled(a).(staleSettles := a.staleSettles + 1), Over(a, kept);
    assert EmitSettled(o).(staleSettles := o.staleSettles + 1) == Over(e, kept) by {
      hide *;
      EmitOver(a, kept);
      SameRaise(EmitSettled(a), a.staleSettles, kept);
    }
    assert o.turn == a.turn && o.session == a.session && o.staleSettles == a.staleSettles;
    hide *;
    SettlingOver(a, kept, reason, env);
    CancelIs(a, reason, env);
    CancelIs(o, reason, env);
    if a.turn.None? || a.session.None? { OverDone(a, kept); }
  }

  lemma SameRaise(e: Actor, n: nat, kept: Db)
    ensures Over(e, kept).(staleSettles := n + 1) == Over(e.(staleSettles := n + 1), kept)
    ensures Over(e, kept).staleSettles == e.staleSettles
  {
  }

  lemma OverDone(a: Actor, kept: Db)
    ensures OverOutcome(Done(a), kept) == Done(Over(a, kept))
  {
  }

  lemma RotateOver(a: Actor, kept: Db, env: Env)
    requires Free(a, kept, env)
    ensures Fresh(Over(a, kept).db, env.turnId)
    ensures OnRotate(Over(a, kept), env) == OverOutcome(OnRotate(a, env), kept)
  {
    FreeTurn(a, kept, env);
    hide With, Foreign, Fresh, OnCancel, Unsubscribe, Free;
    CancelOver(a, kept, "rotated", env);
    UnsubscribeOver(OnCancel(a, "rotated", env).a, kept);
  }

  lemma CloseOver(a: Actor, kept: Db, env: Env)
    requires Free(a, kept, env)
    ensures Fresh(Over(a, kept).db, env.turnId)
    ensures OnClose(Over(a, kept), env) == OverOutcome(OnClose(a, env), kept)
  {
    FreeTurn(a, kept, env);
    hide With, Foreign, Fresh, OnCancel, Unsubscribe, Free;
    CancelOver(a, kept, "shutdown", env);
    UnsubscribeOver(a, kept);
    UnsubscribeOver(OnCancel(a, "shutdown", env).a, kept);
  }

  lemma PumpOver(s: Actor, kept: Db, env: Env)
    requires Free(s, kept, env)
    requires s.mailbox != [] && s.mailbox[0].Inbound? ==> s.mailbox[0].event.id !in kept.inbox
    ensures Fresh(Over(s, kept).db, env.turnId)
    ensures Pump(Over(s, kept), env) == Over(Pump(s, env), kept)
  {
    FreshOver(s.db, kept, env.turnId);
    if s.mailbox != [] {
      var a := s.(mailbox := s.mailbox[1..]);
      assert Free(a, kept, env);
      hide With, Foreign, Fresh, OnCancel, OnPiEvent, OnInbound, OnRotate, OnClose, Free;
      match s.mailbox[0]
      case Inbound(e) => InboundOver(a, kept, e, env) by { FreeTurn(a, kept, env); }
      case Pi(p) => PiOver(a, kept, p, env);
      case Cancel(reason) => CancelOver(a, kept, reason, env);
      case Rotate => RotateOver(a, kept, env);
      case Close => CloseOver(a, kept, env);
    }
  }

  lemma FreeTurn(a: Actor, kept: Db, env: Env)
    requires Free(a, kept, env)
    ensures Fresh(a.db, env.turnId) && Foreign(kept, env.turnId)
    ensures a.turn.Some? ==> Foreign(kept, a.turn.value.turnId)
  {
  }

  // ------------------------------------------------------------------ one step

  /** A handler writes no turn's row but those there are and the one it starts. */
  lemma StartTurns(a: Actor, e: Event, env: Env)
    requires Fresh(a.db, env.turnId)
    ensures StartTurn(a, e, env).a.db.turns.Keys <= a.db.turns.Keys + {env.turnId}
  {
  }

  lemma SettleTurns(a: Actor, reason: string, env: Env)
    requires Fresh(a.db, env.turnId)
    ensures Settle(a, reason, env).a.db.turns.Keys <= a.db.turns.Keys + {env.turnId}
  {
    if a.turn.Some? {
      ClosingLeaves(a, reason, env);
      var c := CloseTurn(a, reason, env);
      assert c.db.turns.Keys == a.db.turns.Keys;
      hide CloseTurn, StartTurn, Fresh;
      if c.queue != [] { StartTurns(c.(queue := c.queue[1..]), c.queue[0], env); }
    }
  }

  lemma CancelTurns(a: Actor, reason: string, env: Env)
    requires Fresh(a.db, env.turnId)
    ensures OnCancel(a, reason, env).a.db.turns.Keys <= a.db.turns.Keys + {env.turnId}
  {
    CancelIs(a, reason, env);
    hide OnCancel, EmitSettled, Settle, Fresh;
    if a.turn.Some? && a.session.Some? { SettleTurns(EmitSettled(a).(staleSettles := a.staleSettles + 1), reason, env); }
  }

  lemma SteerTurns(a: Actor, e: Event, env: Env)
    requires a.turn.Some?
    ensures SteerTurn(a, e, env).a.db.turns == a.db.turns
  {
    var c, n := a.turn.value, |a.turn.value.inputs|;
    if a.session.Some? && !OrdinalTaken(a.db, c.turnId, e.id, n) {
      OfferTurns(a.db, c, e);
      AnswerTurns(OfferSteer(a.db, c, e), c, e, env.now);
    }
    hide OrdinalTaken, WithSteeringInput, OfferSteer, AcceptSteer, SetDispositionAndTurn;
  }

  lemma OfferTurns(db: Db, c: TurnContext, e: Event)
    requires !OrdinalTaken(db, c.turnId, e.id, |c.inputs|)
    ensures OfferSteer(db, c, e).turns == db.turns
  {
    hide OrdinalTaken;
  }

  lemma AnswerTurns(db: Db, c: TurnContext, e: Event, now: int)
    ensures AcceptSteer(db, c, e, now).turns == db.turns
    ensures SetDispositionAndTurn(db, e.id, Queued, None).turns == db.turns
  {
  }

  lemma InboundTurns(a: Actor, e: Event, env: Env)
    requires Fresh(a.db, env.turnId)
    ensures OnInbound(a, e, env).a.db.turns.Keys <= a.db.turns.Keys + {env.turnId}
  {
    StartTurns(a, e, env);
    if a.turn.Some? { SteerTurns(a, e, env); }
    hide StartTurn, SteerTurn, Fresh;
  }

  lemma PiTurns(a: Actor, p: PiEvent, env: Env)
    requires Fresh(a.db, env.turnId)
    ensures OnPiEvent(a, p, env).a.db.turns.Keys <= a.db.turns.Keys + {env.turnId}
  {
    SettleTurns(if a.inFlight == [] then a else a.(inFlight := a.inFlight[1..]), "end_turn", env);
    hide Settle, Fresh;
  }

  lemma PumpTurns(s: Actor, env: Env)
    requires Fresh(s.db, env.turnId)
    ensures Pump(s, env).db.turns.Keys <= s.db.turns.Keys + {env.turnId}
  {
    if s.mailbox != [] {
      var a := s.(mailbox := s.mailbox[1..]);
      hide OnCancel, OnPiEvent, OnInbound, Fresh;
      match s.mailbox[0]
      case Inbound(e) => InboundTurns(a, e, env);
      case Pi(p) => PiTurns(a, p, env);
      case Cancel(reason) => CancelTurns(a, reason, env);
      case Rotate => CancelTurns(a, "rotated", env);
      case Close => CancelTurns(a, "shutdown", env);
    }
  }

  /** The actor over the old rows stands where `c` stands without them. */
  ghost predicate Shadows(a: Actor, c: Actor, kept: Db) {
    Valid(c) && Apart(c.db, kept) && a == Over(c, kept)
  }

  lemma ForeignToLinked(kept: Db, t: string)
    requires Linked(kept) && t !in kept.turns
    ensures Foreign(kept, t)
  {
  }

  lemma ItIsFree(c: Actor, kept: Db, env: Env)
    requires Valid(c) && Apart(c.db, kept) && Linked(kept) && Fresh(With(c.db, kept), env.turnId)
    ensures Free(c, kept, env)
    ensures c.mailbox != [] && c.mailbox[0].Inbound? ==> c.mailbox[0].event.id !in kept.inbox
  {
    ForeignToLinked(kept, env.turnId);
    FreshOver(c.db, kept, env.turnId);
    D.HandsAreKnown(c);
    if c.turn.Some? { assert InputsAgree(c.turn.value, c.db, true); }
    hide Rows, Tracked;
  }

  lemma StillApart(from: Db, to: Db, kept: Db, t: string)
    requires Apart(from, kept) && Foreign(kept, t)
    requires to.inbox.Keys == from.inbox.Keys && to.turns.Keys <= from.turns.Keys + {t}
    requires forall key :: key in to.inputs ==> key.0 in to.turns
    ensures Apart(to, kept)
  {
    hide Foreign;
  }

  lemma PumpKeepsInbox(s: Actor, env: Env)
    requires Valid(s) && Fresh(s.db, env.turnId)
    ensures Pump(s, env).db.inbox.Keys == s.db.inbox.Keys
  {
    assert Posture(s);
    hide Rows, Tracked, Fresh;
    if s.mailbox != [] { D.PumpEffects(s, env); }
  }

  lemma PumpShadows(a: Actor, c: Actor, kept: Db, env: Env)
    requires Shadows(a, c, kept) && Linked(kept) && Fresh(a.db, env.turnId)
    ensures Fresh(c.db, env.turnId) && Shadows(Pump(a, env), Pump(c, env), kept)
  {
    ItIsFree(c, kept, env);
    FreeTurn(c, kept, env);
    hide Pump, Fresh, With, Free, Linked, Apart, Foreign;
    PumpOver(c, kept, env);
    PumpTurns(c, env);
    PumpKeepsInbox(c, env);
    PumpIsValid(c, env);
    hide Valid;
    StillApart(c.db, Pump(c, env).db, kept, env.turnId);
  }

  lemma PumpIsValid(c: Actor, env: Env)
    requires Valid(c) && Fresh(c.db, env.turnId)
    ensures Valid(Pump(c, env)) && forall key :: key in Pump(c, env).db.inputs ==> key.0 in Pump(c, env).db.turns
  {
    StepValid(c, Turn(env));
    assert Next(c, Turn(env)) == Pump(c, env);
    hide Pump, Tracked, Fresh;
    assert Agreement(Pump(c, env));
  }

  lemma SubmitOver(c: Actor, kept: Db, e: Event, receivedAt: int)
    requires e.id !in kept.inbox
    ensures Submit(Over(c, kept), e, receivedAt) == Over(Submit(c, e, receivedAt), kept)
  {
    Laid(c.db.inbox, kept.inbox, e.id, InboxRow(c.channelId, receivedAt, Queued, None, None));
    if e.id in c.db.inbox { assert Submit(c, e, receivedAt) == c; }
  }

  lemma OfferShadows(a: Actor, c: Actor, kept: Db, e: Event, receivedAt: int)
    requires Shadows(a, c, kept)
    ensures if e.id in kept.inbox then Submit(a, e, receivedAt) == a
      else Shadows(Submit(a, e, receivedAt), Submit(c, e, receivedAt), kept)
  {
    if e.id !in kept.inbox {
      StepValid(c, Offer(e, receivedAt));
      assert Next(c, Offer(e, receivedAt)) == Submit(c, e, receivedAt);
      hide Valid, With;
      SubmitOver(c, kept, e, receivedAt);
      SubmitApart(c, kept, e, receivedAt);
    }
  }

  lemma SubmitApart(c: Actor, kept: Db, e: Event, receivedAt: int)
    requires Apart(c.db, kept) && e.id !in kept.inbox
    ensures Apart(Submit(c, e, receivedAt).db, kept)
  {
    hide Foreign;
  }

  lemma StepShadows(a: Actor, c: Actor, kept: Db, step: Step)
    requires Shadows(a, c, kept) && Linked(kept) && Possible(a, step)
    ensures if step.Offer? && step.event.id in kept.inbox then Next(a, step) == a
      else Possible(c, step) && Shadows(Next(a, step), Next(c, step), kept)
  {
    hide Linked, Fresh, Apart, Shadows;
    match step
    case Offer(e, at) => OfferShadows(a, c, kept, e, at);
    case Turn(env) => PumpShadows(a, c, kept, env);
    case Notify(m) => PostShadows(a, c, kept, step);
    case Emit => PostShadows(a, c, kept, step);
  }

  lemma PostShadows(a: Actor, c: Actor, kept: Db, step: Step)
    requires Shadows(a, c, kept) && (step.Notify? || step.Emit?) && Possible(a, step)
    ensures Possible(c, step) && Shadows(Next(a, step), Next(c, step), kept)
  {
    StepValid(c, step);
    hide Valid, Apart;
    EmitOver(c, kept);
    hide With;
  }

  // --------------------------------------------------------------------- runs

  lemma Starts(channelId: string, kept: Db)
    ensures Shadows(NewActor(channelId).(db := kept), NewActor(channelId), kept)
  {
    NewActorIsValid(channelId);
    hide Valid;
    assert EMPTY_DB.inbox + kept.inbox == kept.inbox && EMPTY_DB.turns + kept.turns == kept.turns;
    assert EMPTY_DB.inputs + kept.inputs == kept.inputs;
  }

  /** Whatever an earlier process left, a run over it ends where some run over an empty store
      ends, but for the old rows, which are all as they were. */
  lemma {:induction false} ARestartedRunIsAFreshRun(channelId: string, kept: Db, trace: seq<Actor>, steps: seq<Step>)
    returns (clean: seq<Actor>, cleanSteps: seq<Step>)
    requires Linked(kept) && Follows(trace, steps) && trace[0] == NewActor(channelId).(db := kept)
    ensures Follows(clean, cleanSteps) && clean[0] == NewActor(channelId)
    ensures Shadows(trace[|steps|], clean[|cleanSteps|], kept)
  {
    hide Next, Possible, Shadows, Linked;
    if steps == [] {
      Starts(channelId, kept);
      clean, cleanSteps := [NewActor(channelId)], [];
    } else {
      var n := |steps| - 1;
      clean, cleanSteps := ARestartedRunIsAFreshRun(channelId, kept, trace[..n + 1], steps[..n]);
      var a, c := trace[n], clean[|cleanSteps|];
      assert Possible(a, steps[n]) && trace[n + 1] == Next(a, steps[n]);
      StepShadows(a, c, kept, steps[n]);
      if !(steps[n].Offer? && steps[n].event.id in kept.inbox) {
        OneMore(clean, cleanSteps, steps[n]);
        clean, cleanSteps := clean + [Next(c, steps[n])], cleanSteps + [steps[n]];
      }
    }
  }

  lemma OneMore(trace: seq<Actor>, steps: seq<Step>, step: Step)
    requires Follows(trace, steps) && Possible(trace[|steps|], step)
    ensures Follows(trace + [Next(trace[|steps|], step)], steps + [step])
  {
    hide Next, Possible;
    var longer, more := trace + [Next(trace[|steps|], step)], steps + [step];
    forall i | 0 <= i < |more| ensures Possible(longer[i], more[i]) && longer[i + 1] == Next(longer[i], more[i]) {
      if i < |steps| { assert longer[i] == trace[i] && longer[i + 1] == trace[i + 1] && more[i] == steps[i]; }
    }
  }

  /** So in a run over an old store an event is either of that store, and then its row does not
      change and no part of the actor holds it, or it is in exactly one place, and its row says
      which. The old turns and inputs stay as they are too. */
  lemma ARestartKeepsEveryEvent(channelId: string, kept: Db, trace: seq<Actor>, steps: seq<Step>, id: string)
    requires Linked(kept) && Follows(trace, steps) && trace[0] == NewActor(channelId).(db := kept)
    requires id in trace[|steps|].db.inbox
    ensures var a := trace[|steps|];
      var places := multiset(Posted(a.mailbox))[id] + multiset(Ids(a.queue))[id] + multiset(ActiveIds(a))[id]
        + multiset(ClosedIds(a.closed))[id] + multiset(a.lost)[id];
      && places == (if id in kept.inbox then 0 else 1)
      && (if id in kept.inbox then a.db.inbox[id] == kept.inbox[id] else T.RowSaysWhere(a, id))
      && (forall t :: t in kept.turns ==> t in a.db.turns && a.db.turns[t] == kept.turns[t])
      && (forall key :: key in kept.inputs ==> key in a.db.inputs && a.db.inputs[key] == kept.inputs[key])
  {
    var clean, cleanSteps := ARestartedRunIsAFreshRun(channelId, kept, trace, steps);
    var a, c := trace[|steps|], clean[|cleanSteps|];
    hide Follows, Linked;
    if id in kept.inbox {
      assert id !in c.db.inbox;
      NowhereHeld(c, id);
    } else {
      T.AnAdmittedEventIsInOnePlace(c, id);
      hide Valid;
      RowsSayTheSame(c, kept, id);
    }
  }

  lemma NowhereHeld(c: Actor, id: string)
    requires Valid(c) && id !in c.db.inbox
    ensures multiset(Posted(c.mailbox))[id] + multiset(Ids(c.queue))[id] + multiset(ActiveIds(c))[id]
      + multiset(ClosedIds(c.closed))[id] + multiset(c.lost)[id] == 0
  {
    assert Census(c)[id] == multiset(c.db.inbox.Keys)[id] == 0;
  }

  lemma RowsSayTheSame(c: Actor, kept: Db, id: string)
    requires T.RowSaysWhere(c, id) && id !in kept.inbox
    ensures T.RowSaysWhere(Over(c, kept), id)
  {
    forall d: Disposition, t: Option<string>, n: Option<nat> | RowIs(c.db, id, d, t, n) ensures RowIs(With(c.db, kept), id, d, t, n) {}
    hide RowIs;
  }

  // ------------------------------------------------------------ and once more

  /** A store in which a turn and everything that names it were written. */
  ghost predicate Extends(from: Db, to: Db) {
    && from.turns.Keys <= to.turns.Keys
    && (forall id :: id in to.inbox && to.inbox[id].turnId.Some? ==>
          to.inbox[id].turnId.value in to.turns || (id in from.inbox && to.inbox[id].turnId == from.inbox[id].turnId))
    && (forall key :: key in to.inputs ==> key in from.inputs || key.0 in to.turns)
  }

  lemma ExtendsLinked(from: Db, to: Db)
    requires Linked(from) && Extends(from, to)
    ensures Linked(to)
  {
  }

  lemma StartExtends(from: Db, channelId: string, e: Event, env: Env, db: Db)
    requires Fresh(from, env.turnId) && C.StartStores(from, channelId, e, env, db)
    ensures Extends(from, db)
  {
  }

  lemma SteerExtends(from: Db, c: TurnContext, e: Event, db: Db)
    requires !OrdinalTaken(from, c.turnId, e.id, |c.inputs|) && C.SteerStores(from, c, e, db) && c.turnId in from.turns
    ensures Extends(from, db)
  {
    hide OrdinalTaken;
  }

  lemma EndExtends(a: Actor, reason: string, env: Env, db: Db)
    requires Linked(a.db) && Fresh(a.db, env.turnId) && C.EndStores(a, reason, env, db)
    ensures Linked(db)
  {
    var c := CloseTurn(a, reason, env);
    ClosingLeaves(a, reason, env);
    assert Extends(a.db, c.db);
    ExtendsLinked(a.db, c.db);
    hide CloseTurn, Fresh, Linked, C.StartStores, Extends;
    if db != c.db {
      StartExtends(c.db, a.channelId, a.queue[0], env, db);
      ExtendsLinked(c.db, db);
    }
  }

  lemma MidwayIsLinked(s: Actor, env: Env, db: Db)
    requires Linked(s.db) && Fresh(s.db, env.turnId) && C.Midway(s, env, db)
    requires s.turn.Some? ==> s.turn.value.turnId in s.db.turns
    ensures Linked(db)
  {
    hide Linked, Fresh, C.StartStores, C.SteerStores, C.EndStores, Extends, OrdinalTaken;
    match s.mailbox[0]
    case Inbound(e) =>
      if s.turn.Some? && s.phase in {Phase.Running, Phase.Settling} && s.turn.value.threadRootId == e.threadRoot {
        SteerExtends(s.db, s.turn.value, e, db);
      } else {
        StartExtends(s.db, s.channelId, e, env, db);
      }
      ExtendsLinked(s.db, db);
    case Pi(p) => EndExtends(s, "end_turn", env, db);
    case Cancel(reason) => EndExtends(s, reason, env, db);
    case Rotate => EndExtends(s, "rotated", env, db);
    case Close => EndExtends(s, "shutdown", env, db);
  }

  lemma ShadowIsLinked(a: Actor, c: Actor, kept: Db)
    requires Linked(kept) && Shadows(a, c, kept)
    ensures Linked(a.db) && (a.turn.Some? ==> a.turn.value.turnId in a.db.turns)
  {
    assert Agreement(c);
    if c.turn.Some? { assert InputsAgree(c.turn.value, c.db, true); }
    hide Tracked, InputsAgree;
  }

  /** Whenever the process dies in such a run, between two messages or inside a handler, the
      store it leaves, and the one recovery makes of it, can be run over once more. */
  lemma ACrashLeavesAStoreToRestartFrom(
    channelId: string, kept: Db, trace: seq<Actor>, steps: seq<Step>, env: Env, db: Db, now: int, budget: nat, at: int)
    requires Linked(kept) && Follows(trace, steps) && trace[0] == NewActor(channelId).(db := kept)
    requires Fresh(trace[|steps|].db, env.turnId)
    requires db == trace[|steps|].db || C.Midway(trace[|steps|], env, db)
    ensures Linked(db) && Linked(R.Applied(db, R.PlanFor(db, now, budget), at))
  {
    var clean, cleanSteps := ARestartedRunIsAFreshRun(channelId, kept, trace, steps);
    var a, c := trace[|steps|], clean[|cleanSteps|];
    ShadowIsLinked(a, c, kept);
    hide Linked, Shadows, Follows, C.Midway, R.Applied, R.PlanFor, Fresh;
    if db != a.db { MidwayIsLinked(a, env, db); }
    RR.ApplyingAPlan(db, now, budget, at);
    RecoveredIsLinked(db, R.Applied(db, R.PlanFor(db, now, budget), at), budget);
  }

  lemma RecoveredIsLinked(db: Db, to: Db, budget: nat)
    requires Linked(db) && RR.Recovered(db, to, budget)
    ensures Linked(to)
  {
  }
}
