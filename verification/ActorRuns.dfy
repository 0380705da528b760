/** Runs of a new actor that end where its comments say it never is: an event given up, a turn
    stranded, an actor wedged, a turn that outlives close, and a closed actor at work again. */
module ActorRuns {
  import opened Basics
  import opened Tables
  import opened ActorModel
  import opened ActorProofs
  import opened ActorTheorems

  /** A run of a new actor that ends in `last`. */
  ghost predicate Reached(channelId: string, trace: seq<Actor>, steps: seq<Step>, last: Actor) {
    Follows(trace, steps) && trace[0] == NewActor(channelId) && trace[|steps|] == last
  }

  lemma Extended(channelId: string, trace: seq<Actor>, steps: seq<Step>, last: Actor, step: Step)
    returns (longer: seq<Actor>, more: seq<Step>)
    requires Reached(channelId, trace, steps, last) && Possible(last, step)
    ensures Reached(channelId, longer, more, Next(last, step))
    ensures more == steps + [step] && longer[|steps|] == last
  {
    hide Next, Possible;
    longer, more := trace + [Next(last, step)], steps + [step];
    forall i | 0 <= i < |more| ensures Possible(longer[i], more[i]) && longer[i + 1] == Next(longer[i], more[i]) {
      if i < |steps| { assert longer[i] == trace[i] && longer[i + 1] == trace[i + 1] && more[i] == steps[i]; }
    }
  }

  /** The actor is busy with the turn of its first event and nothing else. */
  ghost predicate BusyWith(a: Actor, e: Event, env: Env) {
    && a.phase == Phase.Running && a.mailbox == [] && a.queue == [] && a.lost == [] && !a.shut
    && a.turn.Some? && a.turn.value.turnId == env.turnId && a.turn.value.threadRootId == e.threadRoot
    && |a.turn.value.inputs| == 1 && (env.turnId, e.id) in a.db.inputs && a.db.inputs[(env.turnId, e.id)].ordinal == 0
    && a.session == Some(SessionRoot(e)) && a.subscribed
    && a.db.turns.Keys == {env.turnId} && a.db.inputs.Keys == {(env.turnId, e.id)}
    && a.db.inbox.Keys == {e.id}
  }

  lemma FirstTurn(channelId: string, e: Event, env: Env) returns (trace: seq<Actor>, steps: seq<Step>, last: Actor)
    requires env.opens
    ensures Reached(channelId, trace, steps, last) && BusyWith(last, e, env)
  {
    var a0 := NewActor(channelId);
    var a1 := Submit(a0, e, 0);
    last := Pump(a1, env);
    FirstTurnStarts(channelId, e, env);
    hide Submit, Pump;
    trace, steps := [a0], [];
    assert Reached(channelId, trace, steps, a0);
    trace, steps := Extended(channelId, trace, steps, a0, Offer(e, 0));
    trace, steps := Extended(channelId, trace, steps, a1, Turn(env));
  }

  lemma FirstTurnStarts(channelId: string, e: Event, env: Env)
    ensures var a := Submit(NewActor(channelId), e, 0);
      && Fresh(a.db, env.turnId)
      && (env.opens ==> BusyWith(Pump(a, env), e, env))
      && (!env.opens ==> Pump(a, env).phase == Starting && Pump(a, env).lost == [e.id])
  {
    var a := Submit(NewActor(channelId), e, 0);
    assert a.mailbox == [Inbound(e)] && a.mailbox[1..] == [];
    assert a.db.inbox.Keys == {e.id} && a.db.turns == map[] && a.db.inputs == map[];
    hide Submit;
    var r := StartTurn(a.(mailbox := []), e, env);
    assert Pump(a, env) == r.a;
  }

  /** An event that has to wait: another thread's, or one for a busy actor without a session. */
  lemma Queues(a: Actor, e: Event, env: Env)
    requires a.mailbox == [] && e.id !in a.db.inbox && Fresh(a.db, env.turnId)
    requires a.phase in {Phase.Running, Phase.Settling} && a.turn.Some? && a.turn.value.threadRootId != e.threadRoot
    ensures var b := Pump(Submit(a, e, 0), env);
      && b == a.(db := b.db, queue := a.queue + [e])
      && b.db.turns == a.db.turns && b.db.inputs == a.db.inputs && b.db.inbox.Keys == a.db.inbox.Keys + {e.id}
      && Fresh(Submit(a, e, 0).db, env.turnId)
  {
    var s := Submit(a, e, 0);
    assert s.mailbox == [Inbound(e)] && s.mailbox[1..] == [];
  }

  /** The first turn runs and an event of another thread waits. */
  lemma TurnAndQueue(channelId: string, e1: Event, e2: Event, env1: Env, env2: Env)
    returns (trace: seq<Actor>, steps: seq<Step>, last: Actor)
    requires env1.opens && e1.id != e2.id && e1.threadRoot != e2.threadRoot && env1.turnId != env2.turnId
    ensures Reached(channelId, trace, steps, last)
    ensures last.queue == [e2] && last.phase == Phase.Running && last.mailbox == [] && !last.shut && last.turn.Some?
    ensures last.turn.value.turnId == env1.turnId && last.session == Some(SessionRoot(e1)) && last.subscribed
    ensures Fresh(last.db, env2.turnId) && last.db.turns.Keys == {env1.turnId}
    ensures last.db.inputs.Keys == {(env1.turnId, e1.id)}
  {
    var a: Actor;
    trace, steps, a := FirstTurn(channelId, e1, env1);
    Queues(a, e2, env2);
    hide Submit, Pump;
    trace, steps := Extended(channelId, trace, steps, a, Offer(e2, 0));
    trace, steps := Extended(channelId, trace, steps, Submit(a, e2, 0), Turn(env2));
    last := Pump(Submit(a, e2, 0), env2);
  }

  /** A rotate that finds an event queued leaves a stranded turn. */
  lemma ARotateCanStrand(channelId: string, e1: Event, e2: Event, env1: Env, env2: Env)
    returns (trace: seq<Actor>, steps: seq<Step>, last: Actor)
    requires env1.opens && env2.opens && e1.id != e2.id && e1.threadRoot != e2.threadRoot && env1.turnId != env2.turnId
    ensures Reached(channelId, trace, steps, last) && Stranded(last)
  {
    var a: Actor;
    trace, steps, a := TurnAndQueue(channelId, e1, e2, env1, env2);
    var b := Post(a, Rotate);
    trace, steps := Extended(channelId, trace, steps, a, Notify(Rotate));
    trace, steps := Extended(channelId, trace, steps, b, Turn(env2));
    last := Pump(b, env2);
    CancelThenStart(a, "rotated", env2);
    assert b.mailbox[1..] == [] && b.(mailbox := []) == a;
    hide OnCancel;
  }

  /** What cancelling with one event queued makes of the actor. */
  lemma CancelThenStart(a: Actor, reason: string, env: Env)
    requires a.turn.Some? && a.session.Some? && |a.queue| == 1 && env.opens && Fresh(a.db, env.turnId)
    ensures var r := OnCancel(a, reason, env);
      && r.Done? && r.a.phase == Phase.Running && r.a.queue == [] && r.a.turn.Some? && r.a.session.Some?
      && r.a.turn.value.turnId == env.turnId && r.a.shut == a.shut && a.mailbox <= r.a.mailbox
      && r.a.db.turns.Keys == a.db.turns.Keys + {env.turnId}
      && r.a.db.inputs.Keys == a.db.inputs.Keys + {(env.turnId, a.queue[0].id)}
  {
    CancelIs(a, reason, env);
    var e := EmitSettled(a);
    assert e == a.(mailbox := e.mailbox) && a.mailbox <= e.mailbox;
    hide OnCancel, EmitSettled;
    SettleThenStart(e.(staleSettles := a.staleSettles + 1), reason, env);
  }

  lemma SettleThenStart(a: Actor, reason: string, env: Env)
    requires a.turn.Some? && a.session.Some? && |a.queue| == 1 && env.opens && Fresh(a.db, env.turnId)
    ensures var r := Settle(a, reason, env);
      && r.Done? && r.a.phase == Phase.Running && r.a.queue == [] && r.a.turn.Some? && r.a.session.Some?
      && r.a.turn.value.turnId == env.turnId && r.a.shut == a.shut && r.a.mailbox == a.mailbox
      && r.a.db.turns.Keys == a.db.turns.Keys + {env.turnId}
      && r.a.db.inputs.Keys == a.db.inputs.Keys + {(env.turnId, a.queue[0].id)}
  {
    var c := CloseTurn(a, reason, env);
    assert c.db.turns.Keys == a.db.turns.Keys && c.db.inputs == a.db.inputs;
    ClosingLeaves(a, reason, env);
    hide CloseTurn;
    assert c.queue[1..] == [];
    StartWorks(c.(queue := []), c.queue[0], env);
  }

  lemma StartWorks(a: Actor, e: Event, env: Env)
    requires env.opens && Fresh(a.db, env.turnId)
    ensures var r := StartTurn(a, e, env);
      && r.Done? && r.a.phase == Phase.Running && r.a.queue == a.queue && r.a.turn.Some? && r.a.session.Some?
      && r.a.turn.value.turnId == env.turnId && r.a.shut == a.shut && r.a.mailbox == a.mailbox
      && r.a.db.turns.Keys == a.db.turns.Keys + {env.turnId}
      && r.a.db.inputs.Keys == a.db.inputs.Keys + {(env.turnId, e.id)}
  {
    var begun := Begin(a, e, env);
    OpenedKeys(a.db, a.channelId, e, env);
    var ready := ReleaseStaleSession(begun, SessionRoot(e), env);
    assert ready == begun.(session := ready.session, subscribed := ready.subscribed, inFlight := ready.inFlight);
    hide ReleaseStaleSession, Launch;
    if ready.session.Some? {
      Launches(ready, e, env);
    } else {
      Launches(ready.(session := Some(SessionRoot(e)), subscribed := true), e, env);
    }
  }

  lemma OpenedKeys(db: Db, channelId: string, e: Event, env: Env)
    requires Fresh(db, env.turnId)
    ensures var to := OpenTurn(db, channelId, e, env);
      to.turns.Keys == db.turns.Keys + {env.turnId} && to.inputs.Keys == db.inputs.Keys + {(env.turnId, e.id)}
  {
  }

  lemma Launches(a: Actor, e: Event, env: Env)
    ensures var b := Launch(a, e, env);
      && b.phase == Phase.Running && b.queue == a.queue && b.turn.Some? && b.turn.value.turnId == env.turnId
      && b.session == a.session && b.shut == a.shut && b.mailbox == a.mailbox
      && b.db.turns.Keys == a.db.turns.Keys && b.db.inputs.Keys == a.db.inputs.Keys
  {
  }

  /** A session that cannot be opened wedges the actor and gives the event up. */
  lemma AFailedStartCanWedge(channelId: string, e: Event, env: Env)
    returns (trace: seq<Actor>, steps: seq<Step>, last: Actor)
    requires !env.opens
    ensures Reached(channelId, trace, steps, last) && last.phase == Starting && last.lost == [e.id]
  {
    var a0 := NewActor(channelId);
    var a1 := Submit(a0, e, 0);
    FirstTurnStarts(channelId, e, env);
    hide Submit, Pump;
    trace, steps := [a0], [];
    assert Reached(channelId, trace, steps, a0);
    trace, steps := Extended(channelId, trace, steps, a0, Offer(e, 0));
    trace, steps := Extended(channelId, trace, steps, a1, Turn(env));
    last := Pump(a1, env);
  }

  /** A close that finds an event queued leaves a turn running behind it, with the cancel that
      was posted while the close was waiting still in its mailbox. */
  lemma ACloseCanBeOutlived(channelId: string, e1: Event, e2: Event, env1: Env, env2: Env, reason: string)
    returns (trace: seq<Actor>, steps: seq<Step>, last: Actor)
    requires env1.opens && env2.opens && e1.id != e2.id && e1.threadRoot != e2.threadRoot && env1.turnId != env2.turnId
    ensures Reached(channelId, trace, steps, last)
    ensures last.phase == Closed && last.shut && last.turn.Some? && last.session.Some?
    ensures last.mailbox != [] && last.mailbox[0] == Cancel(reason)
    ensures last.db.turns.Keys == {env1.turnId, env2.turnId}
    ensures last.db.inputs.Keys == {(env1.turnId, e1.id), (env2.turnId, e2.id)}
  {
    var a: Actor;
    trace, steps, a := TurnAndQueue(channelId, e1, e2, env1, env2);
    var b := Post(a, Close);
    var c := Post(b, Cancel(reason));
    trace, steps := Extended(channelId, trace, steps, a, Notify(Close));
    trace, steps := Extended(channelId, trace, steps, b, Notify(Cancel(reason)));
    trace, steps := Extended(channelId, trace, steps, c, Turn(env2));
    last := Pump(c, env2);
    assert c.mailbox[0] == Close && c.mailbox[1..] == [Cancel(reason)];
    var d := c.(mailbox := [Cancel(reason)]);
    CancelThenStart(d, "shutdown", env2);
    hide OnCancel, Fresh;
    assert last == OnClose(d, env2).a;
  }

  /** And that cancel gets the closed actor going again. */
  lemma ACloseCanBeUndone(channelId: string, e1: Event, e2: Event, env1: Env, env2: Env, env3: Env, reason: string)
    returns (trace: seq<Actor>, steps: seq<Step>, closed: Actor, last: Actor)
    requires env1.opens && env2.opens && e1.id != e2.id && e1.threadRoot != e2.threadRoot
    requires env1.turnId != env2.turnId && env3.turnId !in {env1.turnId, env2.turnId}
    ensures Reached(channelId, trace, steps, last) && |steps| > 0
    ensures trace[|steps| - 1] == closed && steps[|steps| - 1] == Turn(env3)
    ensures closed.phase == Closed && Reopens(closed, env3)
    ensures last.shut && last.phase != Closed
  {
    trace, steps, closed := ACloseCanBeOutlived(channelId, e1, e2, env1, env2, reason);
    ReachedIsTracked(channelId, trace, steps, closed);
    assert Fresh(closed.db, env3.turnId) && Reopens(closed, env3);
    hide Pump, Tracked, Reached, Next, Reopens, Fresh;
    AClosedActorReopensExactlyWhen(closed, env3);
    PumpShut(closed, env3);
    trace, steps := Extended(channelId, trace, steps, closed, Turn(env3));
    last := Pump(closed, env3);
    PumpIsNext(closed, env3);
  }

  lemma PumpIsNext(a: Actor, env: Env)
    requires Fresh(a.db, env.turnId)
    ensures Possible(a, Turn(env)) && Next(a, Turn(env)) == Pump(a, env)
  {
  }

  lemma ReachedIsTracked(channelId: string, trace: seq<Actor>, steps: seq<Step>, last: Actor)
    requires Reached(channelId, trace, steps, last)
    ensures Tracked(last) && Rows(last)
  {
    hide Next, Possible, Tracked, Rows;
    NewActorIsValid(channelId);
    RunsAreValid(trace, steps);
    assert Valid(trace[|steps|]);
  }

  /** A second steer after a refused one is given up, and its row still says it waits. */
  lemma ASecondSteerCanBeLost(channelId: string, e1: Event, e2: Event, e3: Event, env1: Env, env2: Env)
    returns (trace: seq<Actor>, steps: seq<Step>, last: Actor)
    requires env1.opens && !env2.steers && env1.turnId != env2.turnId
    requires e1.id != e2.id && e1.id != e3.id && e2.id != e3.id
    requires e2.threadRoot == e1.threadRoot && e3.threadRoot == e1.threadRoot
    ensures Reached(channelId, trace, steps, last) && last.lost == [e3.id] && Waiting(last.db, e3.id)
  {
    var a: Actor;
    trace, steps, a := FirstTurn(channelId, e1, env1);
    SteerRefused(a, e1, e2, env1, env2);
    var s := Submit(a, e2, 0);
    var b := Pump(s, env2);
    SteerCollides(b, e3, env2, (env1.turnId, e2.id));
    hide Submit, Pump;
    trace, steps := Extended(channelId, trace, steps, a, Offer(e2, 0));
    trace, steps := Extended(channelId, trace, steps, s, Turn(env2));
    trace, steps := Extended(channelId, trace, steps, b, Offer(e3, 0));
    trace, steps := Extended(channelId, trace, steps, Submit(b, e3, 0), Turn(env2));
    last := Pump(Submit(b, e3, 0), env2);
  }

  lemma SteerRefused(a: Actor, e1: Event, e: Event, env1: Env, env: Env)
    requires BusyWith(a, e1, env1) && e.id != e1.id && e.threadRoot == e1.threadRoot && !env.steers
    requires env.turnId != env1.turnId && a.db.inputs[(env1.turnId, e1.id)].ordinal == 0
    ensures var s := Submit(a, e, 0); var b := Pump(s, env);
      && Fresh(s.db, env.turnId) && Fresh(b.db, env.turnId)
      && b.turn == a.turn && b.phase == a.phase && b.session == a.session && b.mailbox == [] && b.lost == []
      && b.db.inbox.Keys == {e1.id, e.id} && (env1.turnId, e.id) in b.db.inputs
      && b.db.inputs[(env1.turnId, e.id)].ordinal == 1
  {
    var s := Submit(a, e, 0);
    assert s.mailbox == [Inbound(e)] && s.mailbox[1..] == [];
    assert s.db == a.db.(inbox := s.db.inbox) && s.db.inbox.Keys == {e1.id, e.id};
    assert !OrdinalTaken(s.db, env1.turnId, e.id, 1);
    hide Submit;
    assert Pump(s, env) == SteerTurn(s.(mailbox := []), e, env).a;
    hide OrdinalTaken;
  }

  lemma SteerCollides(a: Actor, e: Event, env: Env, key: (string, string))
    requires a.phase == Phase.Running && a.turn.Some? && a.session.Some? && a.mailbox == [] && a.lost == []
    requires a.turn.value.threadRootId == e.threadRoot && e.id !in a.db.inbox && |a.turn.value.inputs| == 1
    requires key in a.db.inputs && key.0 == a.turn.value.turnId && a.db.inputs[key].ordinal == 1 && key.1 != e.id
    requires (a.turn.value.turnId, e.id) !in a.db.inputs && Fresh(a.db, env.turnId)
    ensures var s := Submit(a, e, 0);
      && Fresh(s.db, env.turnId) && Pump(s, env).lost == [e.id] && Waiting(Pump(s, env).db, e.id)
  {
    var s := Submit(a, e, 0);
    assert s.mailbox == [Inbound(e)] && s.mailbox[1..] == [];
    assert OrdinalTaken(s.db, a.turn.value.turnId, e.id, 1);
  }
}
