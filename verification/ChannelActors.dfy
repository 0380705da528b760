/** The channel actor: one mailbox, handled a message at a time. Every method leaves the
    state its step function describes; ActorProofs proves what those steps keep. */
module ChannelActors {
  import opened Basics
  import opened Tables
  import opened TurnContexts
  import opened Storage
  import M = ActorModel

  class ChannelActor {
    const channelId: string
    const db: Database
    var phase: M.Phase
    var mailbox: seq<M.Message>
    var queue: seq<M.Event>
    var turn: Option<TurnContext>
    var session: Option<Option<string>>
    var subscribed: bool
    var staleSettles: nat
    var permits: nat
    /** Pi's side of the session: prompted runs whose `agent_settled` is unprocessed. */
    var inFlight: seq<string>
    ghost var closed: seq<TurnContext>
    ghost var lost: seq<string>
    ghost var shut: bool

    ghost function Model(): M.Actor reads this, db {
      M.Actor(channelId, phase, mailbox, queue, turn, session, subscribed,
        staleSettles, permits, db.Model(), closed, lost, inFlight, shut)
    }

    constructor (channelId: string, db: Database)
      requires db.Model() == EMPTY_DB
      ensures Model() == M.NewActor(channelId) && this.db == db
    {
      this.channelId, this.db := channelId, db;
      phase, mailbox, queue, turn := M.Idle, [], [], None;
      session, subscribed, staleSettles, permits := None, false, 0, 0;
      closed, lost, inFlight, shut := [], [], [], false;
    }

    method Post(m: M.Message)
      modifies this
      ensures Model() == M.Post(old(Model()), m)
    {
      if phase == M.Closed && m != M.Close { return; }
      mailbox := mailbox + [m];
    }

    /** The dedup gate and the hand-over to the actor. */
    method Submit(e: M.Event, receivedAt: int)
      modifies this, db
      ensures Model() == M.Submit(old(Model()), e, receivedAt)
    {
      var inserted := db.InsertInbox(e.id, InboxRow(channelId, receivedAt, Queued, None, None));
      if inserted {
        if phase == M.Closed { lost := lost + [e.id]; }
        Post(M.Inbound(e));
      }
    }

    /** The session's listener posts the oldest `agent_settled` Pi still owes. */
    method EmitSettled()
      modifies this
      ensures Model() == M.EmitSettled(old(Model()))
    {
      if subscribed && |inFlight| > M.Settles(mailbox) { Post(M.Pi(M.AgentSettled)); }
    }

    method Unsubscribe()
      modifies this
      ensures Model() == M.Unsubscribe(old(Model()))
    {
      subscribed := false;
      if |inFlight| > M.Settles(mailbox) { inFlight := inFlight[..M.Settles(mailbox)]; }
    }

    method Enqueue(e: M.Event)
      modifies this, db
      ensures Model() == M.Enqueue(old(Model()), e)
    {
      db.SetDisposition(e.id, Queued);
      queue := queue + [e];
    }

    /** Reuses the cached session or opens one; answers false when opening throws. */
    method EnsureSession(root: Option<string>, env: M.Env) returns (ok: bool)
      modifies this
      ensures var ready := M.ReleaseStaleSession(old(Model()), root, env);
        && (ok <==> ready.session.Some? || env.opens)
        && Model() == if ready.session.Some? || !ok then ready
                      else ready.(session := Some(root), subscribed := true)
    {
      if session.Some? && (env.disposed || session.value != root) {
        Unsubscribe();
        session := None;
      }
      if session.Some? { return true; }
      if !env.opens { return false; }
      session, subscribed := Some(root), true;
      return true;
    }

    /** The transaction that makes the turn durable before anything is awaited. */
    method Begin(e: M.Event, env: M.Env)
      requires M.Fresh(db.Model(), env.turnId)
      modifies this, db
      ensures Model() == M.Begin(old(Model()), e, env)
    {
      phase := M.Starting;
      db.CreateTurn(env.turnId, TurnRow(channelId, e.threadRoot, e.id, Created, env.now, None, None));
      var added := db.AddInput(env.turnId, e.id, Primary, 0);
      db.AssignToTurn(e.id, env.turnId, 0, Prompted);
      permits := permits + 1;
    }

    method Launch(e: M.Event, env: M.Env)
      modifies this, db
      ensures Model() == M.Launch(old(Model()), e, env)
    {
      turn := Some(CreateTurnContext(
        env.turnId, channelId, e.threadRoot, e.id, e.pubkey, env.now, e.createdAt));
      phase := M.Phase.Running;
      db.SetTurnState(env.turnId, TurnState.Running, None, env.now);
      db.MarkInputDelivered(env.turnId, e.id, env.now);
      if subscribed { inFlight := inFlight + [env.turnId]; }
    }

    method StartTurn(e: M.Event, env: M.Env) returns (threw: bool)
      requires M.Fresh(db.Model(), env.turnId)
      modifies this, db
      ensures M.StartTurn(old(Model()), e, env) == if threw then M.Threw(Model()) else M.Done(Model())
    {
      hide M.Begin, M.Launch, M.ReleaseStaleSession;
      Begin(e, env);
      var ok := EnsureSession(M.SessionRoot(e), env);
      if !ok {
        lost := lost + [e.id];
        return true;
      }
      Launch(e, env);
      return false;
    }

    method Steer(e: M.Event, env: M.Env) returns (threw: bool)
      requires turn.Some?
      modifies this, db
      ensures M.SteerTurn(old(Model()), e, env) == if threw then M.Threw(Model()) else M.Done(Model())
    {
      if session.None? {
        Enqueue(e);
        return false;
      }
      var c := turn.value;
      var ordinal := |c.inputs|;
      var added := db.AddInput(c.turnId, e.id, Role.Steer, ordinal);
      if !added {
        lost := lost + [e.id];
        return true;
      }
      db.AssignToTurn(e.id, c.turnId, ordinal, SteerPending);
      if !env.steers {
        db.SetDispositionAndTurn(e.id, Queued, None);
        queue := queue + [e];
        return false;
      }
      turn := Some(WithSteeringInput(c, M.SteeringOf(e)));
      db.SetDisposition(e.id, SteerDelivered);
      db.MarkInputDelivered(c.turnId, e.id, env.now);
      return false;
    }

    method OnInbound(e: M.Event, env: M.Env) returns (threw: bool)
      requires M.Fresh(db.Model(), env.turnId)
      modifies this, db
      ensures M.OnInbound(old(Model()), e, env) == if threw then M.Threw(Model()) else M.Done(Model())
    {
      var steerable := turn.Some? && (phase == M.Phase.Running || phase == M.Phase.Settling);
      if steerable && turn.value.threadRootId == e.threadRoot {
        threw := Steer(e, env);
      } else if phase == M.Idle {
        threw := StartTurn(e, env);
      } else {
        Enqueue(e);
        threw := false;
      }
    }

    method DispatchQueued(env: M.Env) returns (threw: bool)
      requires M.Fresh(db.Model(), env.turnId)
      modifies this, db
      ensures M.DispatchQueued(old(Model()), env) == if threw then M.Threw(Model()) else M.Done(Model())
    {
      if queue == [] { return false; }
      var next := queue[0];
      queue := queue[1..];
      threw := StartTurn(next, env);
    }

    method Settle(reason: string, env: M.Env) returns (threw: bool)
      requires M.Fresh(db.Model(), env.turnId)
      modifies this, db
      ensures M.Settle(old(Model()), reason, env) == if threw then M.Threw(Model()) else M.Done(Model())
    {
      if turn.None? {
        if phase != M.Closed { phase := M.Idle; }
        return false;
      }
      var c := turn.value;
      if permits > 0 { permits := permits - 1; }
      db.SetTurnState(c.turnId, Finished, Some(reason), env.now);
      db.CompleteTurnInputs(c.turnId);
      closed := closed + [c];
      turn := None;
      phase := M.Idle;
      assert Model() == M.CloseTurn(old(Model()), reason, env);
      threw := DispatchQueued(env);
    }

    method OnPiEvent(p: M.PiEvent, env: M.Env) returns (threw: bool)
      requires M.Fresh(db.Model(), env.turnId)
      modifies this, db
      ensures M.OnPiEvent(old(Model()), p, env) == if threw then M.Threw(Model()) else M.Done(Model())
    {
      threw := false;
      match p {
        case Streaming =>
        case MessageEnd(_) =>
        case AgentEnd(willRetry) =>
          if turn.Some? && !willRetry {
            phase := M.Phase.Settling;
            db.SetTurnState(turn.value.turnId, TurnState.Settling, None, env.now);
          }
        case AgentSettled =>
          if inFlight != [] { inFlight := inFlight[1..]; }
          if staleSettles > 0 {
            staleSettles := staleSettles - 1;
          } else {
            threw := Settle("end_turn", env);
          }
      }
    }

    method OnCancel(reason: string, env: M.Env) returns (threw: bool)
      requires M.Fresh(db.Model(), env.turnId)
      modifies this, db
      ensures M.OnCancel(old(Model()), reason, env) == if threw then M.Threw(Model()) else M.Done(Model())
    {
      if turn.None? || session.None? { return false; }
      hide M.EmitSettled, M.Settle;
      Abort();
      threw := Settle(reason, env);
    }

    /** Aborts the session's run and discounts the settle it still emits. */
    method Abort()
      modifies this
      ensures var aborted := M.EmitSettled(old(Model()));
        Model() == aborted.(staleSettles := aborted.staleSettles + 1)
    {
      hide M.EmitSettled;
      EmitSettled();
      staleSettles := staleSettles + 1;
    }

    method OnRotate(env: M.Env) returns (threw: bool)
      requires M.Fresh(db.Model(), env.turnId)
      modifies this, db
      ensures M.OnRotate(old(Model()), env) == if threw then M.Threw(Model()) else M.Done(Model())
    {
      threw := OnCancel("rotated", env);
      if threw { return; }
      Unsubscribe();
      session := None;
    }

    method OnClose(env: M.Env) returns (threw: bool)
      requires M.Fresh(db.Model(), env.turnId)
      modifies this, db
      ensures M.OnClose(old(Model()), env) == if threw then M.Threw(Model()) else M.Done(Model())
    {
      threw := false;
      if turn.Some? { threw := OnCancel("shutdown", env); }
      if threw { return; }
      Unsubscribe();
      phase, shut := M.Closed, true;
    }

    method Handle(m: M.Message, env: M.Env) returns (threw: bool)
      requires M.Fresh(db.Model(), env.turnId)
      modifies this, db
      ensures M.Handle(old(Model()), m, env) == if threw then M.Threw(Model()) else M.Done(Model())
    {
      match m {
        case Inbound(e) => threw := OnInbound(e, env);
        case Pi(p) => threw := OnPiEvent(p, env);
        case Cancel(reason) => threw := OnCancel(reason, env);
        case Rotate => threw := OnRotate(env);
        case Close => threw := OnClose(env);
      }
    }

    /** One round of the pump loop: a throw is logged and the next message is taken. */
    method Pump(env: M.Env)
      requires M.Fresh(db.Model(), env.turnId)
      modifies this, db
      ensures Model() == M.Pump(old(Model()), env)
    {
      if mailbox == [] { return; }
      var message := mailbox[0];
      mailbox := mailbox[1..];
      var threw := Handle(message, env);
    }
  }
}
