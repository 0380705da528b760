/** The channel actor's mailbox steps as functions on its state, its environment and the
    durable tables. One mailbox message is one step. */
module ActorModel {
  import opened Basics
  import opened Tables
  import opened TurnContexts

  /** `threadRoot` is the canonical thread root of the event. */
  datatype Event = Event(id: string, threadRoot: string, pubkey: string, createdAt: int)

  datatype Phase = Idle | Starting | Running | Settling | Closed

  datatype PiEvent = AgentSettled | AgentEnd(willRetry: bool) | MessageEnd(messageId: string) | Streaming

  datatype Message = Inbound(event: Event) | Pi(pi: PiEvent) | Cancel(reason: string) | Rotate | Close

  /** What the environment answers while one message is handled: the fresh turn id, the
      clock, whether a cached session was disposed, whether opening a session succeeds,
      and whether Pi takes a steer. */
  datatype Env = Env(turnId: string, now: int, disposed: bool, opens: bool, steers: bool)

  /** The actor's fields and tables, then four histories the program does not store: the
      contexts of closed turns, the events no part of the actor holds any more, the
      prompted turns whose `agent_settled` is still unprocessed, oldest first, and whether a
      close was ever handled.
      `session` is the cached session's thread root (null for the channel's own). */
  datatype Actor = Actor(
    channelId: string, phase: Phase, mailbox: seq<Message>, queue: seq<Event>,
    turn: Option<TurnContext>, session: Option<Option<string>>, subscribed: bool,
    staleSettles: nat, permits: nat, db: Db,
    closed: seq<TurnContext>, lost: seq<string>, inFlight: seq<string>, shut: bool)

  /** Whether the handler returned or threw, with the state it left behind. */
  datatype Outcome = Done(a: Actor) | Threw(a: Actor)

  function NewActor(channelId: string): Actor {
    Actor(channelId, Idle, [], [], None, None, false, 0, 0, EMPTY_DB, [], [], [], false)
  }

  // ------------------------------------------------------------------ posting

  function Post(a: Actor, m: Message): Actor {
    if a.phase == Closed && m != Close then a else a.(mailbox := a.mailbox + [m])
  }

  /** The dedup gate in front of the actor: only an event the inbox had not recorded is
      posted. A closed actor drops it after the row was written. */
  function Submit(a: Actor, e: Event, receivedAt: int): Actor {
    if e.id in a.db.inbox then a else
    var b := a.(db := InsertInbox(a.db, e.id, InboxRow(a.channelId, receivedAt, Queued, None, None)));
    if b.phase == Closed then b.(lost := b.lost + [e.id]) else Post(b, Inbound(e))
  }

  function Settles(mailbox: seq<Message>): nat {
    if mailbox == [] then 0 else (if mailbox[0] == Pi(AgentSettled) then 1 else 0) + Settles(mailbox[1..])
  }

  /** Runs that were prompted and have not emitted `agent_settled` yet. */
  function Outstanding(a: Actor): int { |a.inFlight| - Settles(a.mailbox) }

  /** Pi emits the next outstanding `agent_settled`; without a subscription nobody hears it. */
  function EmitSettled(a: Actor): Actor {
    if a.subscribed && Outstanding(a) > 0 then Post(a, Pi(AgentSettled)) else a
  }

  /** An unsubscribed run's `agent_settled` never arrives. */
  function Unsubscribe(a: Actor): Actor {
    a.(subscribed := false,
       inFlight := if 0 < Outstanding(a) then a.inFlight[..Settles(a.mailbox)] else a.inFlight)
  }

  // ----------------------------------------------------------------- handlers

  function Enqueue(a: Actor, e: Event): Actor {
    a.(db := SetDisposition(a.db, e.id, Queued), queue := a.queue + [e])
  }

  /** Drops a cached session that is disposed or belongs to another conversation. */
  function ReleaseStaleSession(a: Actor, root: Option<string>, env: Env): Actor {
    if a.session.Some? && (env.disposed || a.session.value != root)
    then Unsubscribe(a).(session := None) else a
  }

  /** The rows a turn is born with. */
  function OpenTurn(db: Db, channelId: string, e: Event, env: Env): Db
    requires env.turnId !in db.turns
    requires forall key :: key in db.inputs ==> key.0 != env.turnId
  {
    var created := CreateTurn(db, env.turnId,
      TurnRow(channelId, e.threadRoot, e.id, Created, env.now, None, None));
    AssignToTurn(AddInput(created, env.turnId, e.id, Primary, 0), e.id, env.turnId, 0, Prompted)
  }

  ghost predicate Fresh(db: Db, turnId: string) {
    turnId !in db.turns && forall key :: key in db.inputs ==> key.0 != turnId
  }

  function SessionRoot(e: Event): Option<string> {
    if e.threadRoot == e.id then None else Some(e.threadRoot)
  }

  function Begin(a: Actor, e: Event, env: Env): Actor
    requires Fresh(a.db, env.turnId)
  {
    a.(phase := Starting, permits := a.permits + 1, db := OpenTurn(a.db, a.channelId, e, env))
  }

  /** The turn becomes active and its prompt is handed to the session. */
  function Launch(a: Actor, e: Event, env: Env): Actor {
    a.(phase := Phase.Running,
       turn := Some(CreateTurnContext(
         env.turnId, a.channelId, e.threadRoot, e.id, e.pubkey, env.now, e.createdAt)),
       db := MarkInputDelivered(
         SetTurnState(a.db, env.turnId, TurnState.Running, None, env.now), env.turnId, e.id, env.now),
       inFlight := if a.subscribed then a.inFlight + [env.turnId] else a.inFlight)
  }

  function StartTurn(a: Actor, e: Event, env: Env): Outcome
    requires Fresh(a.db, env.turnId)
  {
    var ready := ReleaseStaleSession(Begin(a, e, env), SessionRoot(e), env);
    if ready.session.Some? then Done(Launch(ready, e, env))
    else if env.opens then Done(Launch(ready.(session := Some(SessionRoot(e)), subscribed := true), e, env))
    else Threw(ready.(lost := ready.lost + [e.id]))
  }

  function SteeringOf(e: Event): TurnContexts.Steering { TurnContexts.Steering(e.id, e.pubkey, e.createdAt) }

  /** The transaction that precedes the handoff: the input row and the pending marker. */
  function OfferSteer(db: Db, c: TurnContext, e: Event): Db
    requires !OrdinalTaken(db, c.turnId, e.id, |c.inputs|)
  {
    AssignToTurn(AddInput(db, c.turnId, e.id, Role.Steer, |c.inputs|), e.id, c.turnId, |c.inputs|, SteerPending)
  }

  function AcceptSteer(offered: Db, c: TurnContext, e: Event, now: int): Db {
    MarkInputDelivered(SetDisposition(offered, e.id, SteerDelivered), c.turnId, e.id, now)
  }

  function SteerTurn(a: Actor, e: Event, env: Env): Outcome
    requires a.turn.Some?
  {
    var c := a.turn.value;
    if a.session.None? then Done(Enqueue(a, e))
    else if OrdinalTaken(a.db, c.turnId, e.id, |c.inputs|) then Threw(a.(lost := a.lost + [e.id]))
    else
      var offered := OfferSteer(a.db, c, e);
      if env.steers then
        Done(a.(db := AcceptSteer(offered, c, e, env.now), turn := Some(WithSteeringInput(c, SteeringOf(e)))))
      else
        Done(a.(db := SetDispositionAndTurn(offered, e.id, Queued, None), queue := a.queue + [e]))
  }

  function OnInbound(a: Actor, e: Event, env: Env): Outcome
    requires Fresh(a.db, env.turnId)
  {
    if a.turn.Some? && a.phase in {Phase.Running, Phase.Settling} && a.turn.value.threadRootId == e.threadRoot
    then SteerTurn(a, e, env)
    else if a.phase == Idle then StartTurn(a, e, env)
    else Done(Enqueue(a, e))
  }

  function DispatchQueued(a: Actor, env: Env): Outcome
    requires Fresh(a.db, env.turnId)
  {
    if a.queue == [] then Done(a) else StartTurn(a.(queue := a.queue[1..]), a.queue[0], env)
  }

  /** The actor with its turn closed, before the queue is looked at. */
  function CloseTurn(a: Actor, reason: string, env: Env): Actor
    requires a.turn.Some?
  {
    var c := a.turn.value;
    a.(phase := Idle, turn := None, permits := if a.permits > 0 then a.permits - 1 else 0,
       db := CompleteTurnInputs(SetTurnState(a.db, c.turnId, Finished, Some(reason), env.now), c.turnId),
       closed := a.closed + [c])
  }

  function Settle(a: Actor, reason: string, env: Env): Outcome
    requires Fresh(a.db, env.turnId)
  {
    if a.turn.None? then Done(a.(phase := if a.phase == Closed then Closed else Idle))
    else DispatchQueued(CloseTurn(a, reason, env), env)
  }

  function OnPiEvent(a: Actor, p: PiEvent, env: Env): Outcome
    requires Fresh(a.db, env.turnId)
  {
    match p
    case Streaming => Done(a)
    case MessageEnd(_) => Done(a)
    case AgentEnd(willRetry) =>
      if a.turn.Some? && !willRetry
      then Done(a.(phase := Phase.Settling,
                   db := SetTurnState(a.db, a.turn.value.turnId, TurnState.Settling, None, env.now)))
      else Done(a)
    case AgentSettled =>
      var b := if a.inFlight == [] then a else a.(inFlight := a.inFlight[1..]);
      if a.staleSettles > 0 then Done(b.(staleSettles := a.staleSettles - 1))
      else Settle(b, "end_turn", env)
  }

  /** `abort()` resolves only after the aborted run has emitted its `agent_settled`. */
  function OnCancel(a: Actor, reason: string, env: Env): Outcome
    requires Fresh(a.db, env.turnId)
  {
    if a.turn.None? || a.session.None? then Done(a) else
    var aborted := EmitSettled(a);
    Settle(aborted.(staleSettles := aborted.staleSettles + 1), reason, env)
  }

  function OnRotate(a: Actor, env: Env): Outcome
    requires Fresh(a.db, env.turnId)
  {
    match OnCancel(a, "rotated", env)
    case Threw(b) => Threw(b)
    case Done(b) => Done(Unsubscribe(b).(session := None))
  }

  function OnClose(a: Actor, env: Env): Outcome
    requires Fresh(a.db, env.turnId)
  {
    match if a.turn.Some? then OnCancel(a, "shutdown", env) else Done(a)
    case Threw(b) => Threw(b)
    case Done(b) => Done(Unsubscribe(b).(phase := Closed, shut := true))
  }

  function Handle(a: Actor, m: Message, env: Env): Outcome
    requires Fresh(a.db, env.turnId)
  {
    match m
    case Inbound(e) => OnInbound(a, e, env)
    case Pi(p) => OnPiEvent(a, p, env)
    case Cancel(reason) => OnCancel(a, reason, env)
    case Rotate => OnRotate(a, env)
    case Close => OnClose(a, env)
  }

  /** Takes the oldest message and handles it; a throw is logged and the pump goes on. */
  function Pump(a: Actor, env: Env): Actor
    requires Fresh(a.db, env.turnId)
  {
    if a.mailbox == [] then a else Handle(a.(mailbox := a.mailbox[1..]), a.mailbox[0], env).a
  }
}
