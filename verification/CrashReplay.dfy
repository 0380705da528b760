/** What a restart makes of the events an actor was holding when the process died. */
module CrashReplay {
  import opened Basics
  import opened Tables
  import opened ActorModel
  import opened TurnContexts
  import opened ActorProofs
  import opened ActorDebts
  import opened RecoveryProofs
  import T = ActorTheorems
  import R = Recovery

  /** Everything waiting, in the mailbox or in the queue, is replayed, and so is everything the
      actor gave up. Everything the active turn took is replayed unless the turn recorded output
      strictly after that input was delivered. Nothing a settled turn took is replayed. */
  lemma ACrashKeepsEveryDebt(a: Actor, id: string)
    requires Valid(a) && Debts(a)
    ensures id in Posted(a.mailbox) || id in Ids(a.queue) || id in a.lost ==> Replays(R.Requeue(a.db), id)
    ensures id in ActiveIds(a) ==> id in a.db.inbox && (Replays(R.Requeue(a.db), id) <==> !R.Answered(a.db, id))
    ensures id in ClosedIds(a.closed) ==> !Replays(R.Requeue(a.db), id)
  {
    RequeueIsExact(a.db, id);
    WhatIsOwed(a, id);
    hide *;
  }

  lemma WhatIsOwed(a: Actor, id: string)
    requires Valid(a) && Debts(a)
    ensures id in Posted(a.mailbox) || id in Ids(a.queue) || id in a.lost ==> ToReplay(a.db, id)
    ensures id in ActiveIds(a) ==> id in a.db.inbox && (ToReplay(a.db, id) <==> !R.Answered(a.db, id))
    ensures id in ClosedIds(a.closed) ==> !ToReplay(a.db, id)
  {
    if id in a.lost { AGivenUpRowIsOwed(a, id); }
    if id in Posted(a.mailbox) || id in Ids(a.queue) || id in ActiveIds(a) || id in ClosedIds(a.closed) {
      CountedIsStored(a, id);
      T.AnAdmittedEventIsInOnePlace(a, id);
      hide *;
      if id in Posted(a.mailbox) || id in Ids(a.queue) {
        AWaitingRowIsOwed(a.db, id);
      }
      if id in ActiveIds(a) {
        ADeliveredRowIsOwedUnlessAnswered(a.db, id);
      }
      if id in ClosedIds(a.closed) {
        ACompletedRowIsNotOwed(a.db, id);
      }
    }
  }

  lemma AGivenUpRowIsOwed(a: Actor, id: string)
    requires Debts(a) && id in a.lost
    ensures ToReplay(a.db, id)
  {
    assert StillOwed(a.db, id, a.turn);
    if Waiting(a.db, id) { AWaitingRowIsOwed(a.db, id); } else { AnswersNeedADelivery(a.db, id); }
  }

  lemma AnswersNeedADelivery(db: Db, id: string)
    requires id in db.inbox && db.inbox[id].turnId.Some?
    requires (db.inbox[id].turnId.value, id) in db.inputs ==> db.inputs[(db.inbox[id].turnId.value, id)].deliveredAt.None?
    ensures !R.Answered(db, id)
  {
  }

  lemma CountedIsStored(a: Actor, id: string)
    requires Valid(a)
    requires id in Posted(a.mailbox) || id in Ids(a.queue) || id in ActiveIds(a) || id in ClosedIds(a.closed)
    ensures id in a.db.inbox
  {
    hide Agreement, UniqueOrdinals, Lifecycle;
    assert id in Census(a);
    assert id in multiset(a.db.inbox.Keys);
  }

  lemma ADeliveredRowIsOwedUnlessAnswered(db: Db, id: string)
    requires exists d, t, o :: d in {Prompted, SteerDelivered} && RowIs(db, id, d, t, o)
    ensures id in db.inbox && (ToReplay(db, id) <==> !R.Answered(db, id))
  {
  }

  lemma ACompletedRowIsNotOwed(db: Db, id: string)
    requires exists t, o :: RowIs(db, id, Completed, t, o)
    ensures !ToReplay(db, id)
  {
  }

  lemma AWaitingRowIsOwed(db: Db, id: string)
    requires Waiting(db, id)
    ensures ToReplay(db, id)
  {
  }

  /** The inputs of the turn that was running come back together, in the order the turn
      accepted them, its primary before its steers. */
  lemma AnInterruptedTurnReplaysInOrder(a: Actor, channelId: string, i: nat, k: nat)
    requires Valid(a) && a.turn.Some? && a.turn.value.turnId !in a.db.inbox
    requires var cs := R.ChannelReplay(a.db, channelId);
      && i < k < |cs| && cs[i].input.record.id in ActiveIds(a) && cs[k].input.record.id in ActiveIds(a)
    ensures var cs := R.ChannelReplay(a.db, channelId);
      && (forall j :: i <= j <= k ==> cs[j].input.previousTurnId == Some(a.turn.value.turnId))
      && (exists x, y :: 0 <= x < y < |ActiveIds(a)|
            && ActiveIds(a)[x] == cs[i].input.record.id && ActiveIds(a)[y] == cs[k].input.record.id)
  {
    var cs, turnId := R.ChannelReplay(a.db, channelId), a.turn.value.turnId;
    hide R.ChannelReplay, R.Answered, Conserved, OnlyRejectsBeyond, Lifecycle;
    var x :| 0 <= x < |ActiveIds(a)| && ActiveIds(a)[x] == cs[i].input.record.id;
    var y :| 0 <= y < |ActiveIds(a)| && ActiveIds(a)[y] == cs[k].input.record.id;
    assert cs[i] in cs && cs[k] in cs;
    ChannelReplayHolds(a.db, channelId, cs[i]);
    ChannelReplayHolds(a.db, channelId, cs[k]);
    assert InputsAgree(a.turn.value, a.db, true);
    assert cs[i].ordinal == x && cs[k].ordinal == y;
    ATurnReplaysInStrictOrder(a.db, channelId, turnId, i, k);
    forall j | i <= j <= k ensures cs[j].input.previousTurnId == Some(turnId) {
      ATurnReplaysTogether(a.db, channelId, turnId, i, j, k);
    }
  }

  // ------------------------------------------------------------ inside a handler

  /** What the store holds while a turn is being started, after each of its writes but the last. */
  ghost predicate StartStores(from: Db, channelId: string, e: Event, env: Env, db: Db)
    requires Fresh(from, env.turnId)
  {
    var started := OpenTurn(from, channelId, e, env);
    db == started || db == SetTurnState(started, env.turnId, TurnState.Running, None, env.now)
  }

  /** And while a steer is with Pi, or accepted and not marked delivered yet. */
  ghost predicate SteerStores(from: Db, c: TurnContext, e: Event, db: Db)
    requires !OrdinalTaken(from, c.turnId, e.id, |c.inputs|)
  {
    var offered := OfferSteer(from, c, e);
    db == offered || db == SetDisposition(offered, e.id, SteerDelivered)
  }

  /** And once a turn is closed and the next one not launched yet. */
  ghost predicate EndStores(a: Actor, reason: string, env: Env, db: Db)
    requires Fresh(a.db, env.turnId)
  {
    && a.turn.Some?
    && var c := CloseTurn(a, reason, env);
       ClosingLeaves(a, reason, env);
       db == c.db || (a.queue != [] && StartStores(c.db, a.channelId, a.queue[0], env, db))
  }

  /** A store that is committed while the message at the head is being handled, other than the
      ones before it and after it. */
  ghost predicate Midway(s: Actor, env: Env, db: Db)
    requires Fresh(s.db, env.turnId)
  {
    s.mailbox != [] &&
    match s.mailbox[0]
    case Inbound(e) =>
      if s.turn.Some? && s.phase in {Phase.Running, Phase.Settling} && s.turn.value.threadRootId == e.threadRoot then
        var c := s.turn.value;
        s.session.Some? && !OrdinalTaken(s.db, c.turnId, e.id, |c.inputs|) && SteerStores(s.db, c, e, db)
      else s.phase == Idle && StartStores(s.db, s.channelId, e, env, db)
    case Pi(p) => p == AgentSettled && s.staleSettles == 0 && EndStores(s, "end_turn", env, db)
    case Cancel(reason) => s.session.Some? && EndStores(s, reason, env, db)
    case Rotate => s.session.Some? && EndStores(s, "rotated", env, db)
    case Close => s.session.Some? && EndStores(s, "shutdown", env, db)
  }

  /** The same rows owe the same. */
  lemma SameOwes(from: Db, to: Db, id: string)
    requires Same(from, to, id)
    ensures ToReplay(from, id) <==> ToReplay(to, id)
    ensures id in from.inbox ==> id in to.inbox && (R.Answered(from, id) <==> R.Answered(to, id))
  {
    if id in from.inbox {
      AnsweredExactlyWhen(from, id);
      AnsweredExactlyWhen(to, id);
    }
    hide R.Answered;
  }

  lemma AStartedEventIsOwed(from: Db, channelId: string, e: Event, env: Env, db: Db)
    requires Fresh(from, env.turnId) && e.id in from.inbox && StartStores(from, channelId, e, env, db)
    ensures ToReplay(db, e.id)
  {
    assert db.inbox[e.id].disposition == Prompted;
    AnswersNeedADelivery(db, e.id);
    hide R.Answered;
  }

  lemma AnOfferedEventIsOwed(from: Db, c: TurnContext, e: Event, db: Db)
    requires !OrdinalTaken(from, c.turnId, e.id, |c.inputs|) && SteerStores(from, c, e, db)
    requires e.id in from.inbox && Unseen(from, e.id)
    ensures ToReplay(db, e.id)
  {
    hide OrdinalTaken;
    assert (c.turnId, e.id) !in from.inputs;
    assert db.inbox[e.id].disposition in {SteerPending, SteerDelivered} && db.inbox[e.id].turnId == Some(c.turnId);
    AnswersNeedADelivery(db, e.id);
    hide R.Answered;
  }

  /** The events the actor held when it took the message: all but the one in hand. */
  lemma StartStoresSame(from: Db, channelId: string, e: Event, env: Env, db: Db, id: string)
    requires Fresh(from, env.turnId) && StartStores(from, channelId, e, env, db) && id != e.id
    ensures Same(from, db, id)
  {
    OpenTurnSame(from, channelId, e, env, id);
    hide OpenTurn, SetTurnState, Same, Fresh;
  }

  lemma EndStoresSame(a: Actor, reason: string, env: Env, db: Db, id: string)
    requires Fresh(a.db, env.turnId) && EndStores(a, reason, env, db)
    requires Elsewhere(a.db, id, a.turn.value.turnId) && (a.queue != [] ==> a.queue[0].id != id)
    ensures Same(a.db, db, id)
  {
    CloseTurnSame(a, reason, env, id);
    ClosingLeaves(a, reason, env);
    hide CloseTurn, StartStores, Same, Fresh;
    var c := CloseTurn(a, reason, env);
    if db != c.db {
      StartStoresSame(c.db, a.channelId, a.queue[0], env, db, id);
      SameTwice(a.db, c.db, db, id);
    }
  }

  lemma SteerStoresSame(from: Db, c: TurnContext, e: Event, env: Env, db: Db, id: string)
    requires !OrdinalTaken(from, c.turnId, e.id, |c.inputs|) && SteerStores(from, c, e, db) && id != e.id
    ensures Same(from, db, id)
  {
    OfferSame(from, c, e, env, id);
    hide OrdinalTaken, OfferSteer, SetDisposition, Same;
  }

  /** The event is not in hand, and closing the turn does not complete it. */
  ghost predicate Spared(s: Actor, id: string)
    requires s.mailbox != []
  {
    if s.mailbox[0].Inbound? then s.mailbox[0].event.id != id
    else (s.queue != [] ==> s.queue[0].id != id) && (s.turn.Some? ==> Elsewhere(s.db, id, s.turn.value.turnId))
  }

  lemma MidwaySame(s: Actor, env: Env, db: Db, id: string)
    requires Fresh(s.db, env.turnId) && Midway(s, env, db) && Spared(s, id)
    ensures Same(s.db, db, id)
  {
    hide Fresh, StartStores, SteerStores, EndStores, OrdinalTaken, Same;
    match s.mailbox[0]
    case Inbound(e) =>
      if s.turn.Some? && s.phase in {Phase.Running, Phase.Settling} && s.turn.value.threadRootId == e.threadRoot {
        SteerStoresSame(s.db, s.turn.value, e, env, db, id);
      } else {
        StartStoresSame(s.db, s.channelId, e, env, db, id);
      }
    case Pi(p) => EndStoresSame(s, "end_turn", env, db, id) by { EndsAnActiveTurn(s, "end_turn", env, db); }
    case Cancel(reason) => EndStoresSame(s, reason, env, db, id) by { EndsAnActiveTurn(s, reason, env, db); }
    case Rotate => EndStoresSame(s, "rotated", env, db, id) by { EndsAnActiveTurn(s, "rotated", env, db); }
    case Close => EndStoresSame(s, "shutdown", env, db, id) by { EndsAnActiveTurn(s, "shutdown", env, db); }
  }

  lemma EndsAnActiveTurn(a: Actor, reason: string, env: Env, db: Db)
    requires Fresh(a.db, env.turnId) && EndStores(a, reason, env, db)
    ensures a.turn.Some?
  {
  }

  /** The event in hand: posted and taken, or first in the queue and dispatched. */
  lemma TheHandIsOwed(s: Actor, env: Env, db: Db, id: string)
    requires Valid(s) && Debts(s) && Fresh(s.db, env.turnId) && Midway(s, env, db)
    requires || (s.mailbox[0].Inbound? && s.mailbox[0].event.id == id)
             || (!s.mailbox[0].Inbound? && s.queue != [] && s.queue[0].id == id)
    ensures ToReplay(db, id)
  {
    HandsAreKnown(s);
    match s.mailbox[0]
    case Inbound(e) =>
      assert Unseen(s.db, e.id);
      hide Valid, Debts, Fresh, StartStores, SteerStores, OrdinalTaken, Unseen, ToReplay;
      if s.turn.Some? && s.phase in {Phase.Running, Phase.Settling} && s.turn.value.threadRootId == e.threadRoot {
        AnOfferedEventIsOwed(s.db, s.turn.value, e, db);
      } else {
        AStartedEventIsOwed(s.db, s.channelId, e, env, db);
      }
    case Pi(p) => ADispatchedEventIsOwed(s, "end_turn", env, db);
    case Cancel(reason) => ADispatchedEventIsOwed(s, reason, env, db);
    case Rotate => ADispatchedEventIsOwed(s, "rotated", env, db);
    case Close => ADispatchedEventIsOwed(s, "shutdown", env, db);
  }

  lemma ADispatchedEventIsOwed(a: Actor, reason: string, env: Env, db: Db)
    requires Rows(a) && Fresh(a.db, env.turnId) && EndStores(a, reason, env, db) && a.queue != []
    ensures ToReplay(db, a.queue[0].id)
  {
    HandsAreKnown(a);
    var id := a.queue[0].id;
    assert Waiting(a.db, id);
    CloseTurnSame(a, reason, env, id);
    ClosingLeaves(a, reason, env);
    var c := CloseTurn(a, reason, env);
    hide Rows, CloseTurn, StartStores, Fresh, ToReplay;
    if db == c.db {
      AWaitingRowIsOwed(a.db, id);
      SameOwes(a.db, db, id);
    } else {
      assert id in c.db.inbox;
      AStartedEventIsOwed(c.db, a.channelId, a.queue[0], env, db);
    }
  }

  /** The one event the handler has in hand is in no other place. */
  lemma InHandOnly(s: Actor, id: string)
    requires Rows(s) && s.mailbox != []
    requires if s.mailbox[0].Inbound? then s.mailbox[0].event.id == id else s.queue != [] && s.queue[0].id == id
    ensures id !in ActiveIds(s) && id !in ClosedIds(s.closed)
  {
    if s.mailbox[0].Inbound? {
      HeadTaken(s, s.mailbox[0].event);
      InHandIsNowhereElse(s.(mailbox := s.mailbox[1..]), id);
    } else {
      HeadConserves(s, s.(queue := s.queue[1..]));
      InHandIsNowhereElse(s.(queue := s.queue[1..]), id);
    }
  }

  lemma TheWaitingAreOwed(s: Actor, env: Env, db: Db, id: string)
    requires Valid(s) && Debts(s) && Fresh(s.db, env.turnId) && Midway(s, env, db)
    requires id in Posted(s.mailbox) || id in Ids(s.queue) || id in s.lost
    ensures ToReplay(db, id)
  {
    WhatIsOwed(s, id);
    if Spared(s, id) {
      hide Valid, Debts, Fresh, Midway, ToReplay;
      MidwaySame(s, env, db, id);
      SameOwes(s.db, db, id);
    } else {
      OwedIsElsewhere(s, id);
      hide Valid, Debts, Fresh, Midway, ToReplay;
      TheHandIsOwed(s, env, db, id);
    }
  }

  /** What waits or was given up is not an input of the active turn. */
  lemma OwedIsElsewhere(s: Actor, id: string)
    requires Valid(s) && Debts(s) && (id in Posted(s.mailbox) || id in Ids(s.queue) || id in s.lost)
    ensures s.turn.Some? ==> Elsewhere(s.db, id, s.turn.value.turnId)
  {
    if id in s.lost { assert StillOwed(s.db, id, s.turn); }
    if id in Posted(s.mailbox) || id in Ids(s.queue) {
      CountedIsStored(s, id);
      T.AnAdmittedEventIsInOnePlace(s, id);
      hide Valid, Debts;
      assert Waiting(s.db, id);
    }
  }

  lemma TheActiveAreOwedUnlessEnded(s: Actor, env: Env, db: Db, id: string)
    requires Valid(s) && Debts(s) && Fresh(s.db, env.turnId) && Midway(s, env, db) && id in ActiveIds(s)
    ensures id in s.db.inbox && (ToReplay(db, id) <==> s.mailbox[0].Inbound? && !R.Answered(s.db, id))
  {
    WhatIsOwed(s, id);
    if s.mailbox[0].Inbound? {
      if s.mailbox[0].event.id == id { InHandOnly(s, id); }
      hide Valid, Debts, Fresh, Midway, ToReplay, R.Answered;
      MidwaySame(s, env, db, id);
      SameOwes(s.db, db, id);
    } else {
      if s.queue != [] && s.queue[0].id == id { InHandOnly(s, id); }
      hide *;
      TheEndedAreNotOwed(s, env, db, id);
    }
  }

  lemma TheEndedAreNotOwed(s: Actor, env: Env, db: Db, id: string)
    requires Valid(s) && Fresh(s.db, env.turnId) && Midway(s, env, db) && id in ActiveIds(s)
    requires !s.mailbox[0].Inbound? && (s.queue != [] ==> s.queue[0].id != id)
    ensures !ToReplay(db, id)
  {
    hide Valid, Fresh, ToReplay, EndStores;
    match s.mailbox[0]
    case Pi(p) => AnEndedInputIsNotOwed(s, "end_turn", env, db, id);
    case Cancel(reason) => AnEndedInputIsNotOwed(s, reason, env, db, id);
    case Rotate => AnEndedInputIsNotOwed(s, "rotated", env, db, id);
    case Close => AnEndedInputIsNotOwed(s, "shutdown", env, db, id);
  }

  lemma AnEndedInputIsNotOwed(a: Actor, reason: string, env: Env, db: Db, id: string)
    requires Valid(a) && Fresh(a.db, env.turnId) && EndStores(a, reason, env, db) && id in ActiveIds(a)
    requires a.queue != [] ==> a.queue[0].id != id
    ensures !ToReplay(db, id)
  {
    CloseTurnAgrees(a, reason, env);
    ClosingLeaves(a, reason, env);
    var c := CloseTurn(a, reason, env);
    TheEndedAreCompleted(a, reason, env, id);
    hide Valid, CloseTurn, StartStores, Fresh, ToReplay;
    if db != c.db {
      StartStoresSame(c.db, a.channelId, a.queue[0], env, db, id);
      SameOwes(c.db, db, id);
    }
  }

  lemma TheEndedAreCompleted(a: Actor, reason: string, env: Env, id: string)
    requires a.turn.Some? && id in ActiveIds(a) && Agreement(CloseTurn(a, reason, env))
    ensures !ToReplay(CloseTurn(a, reason, env).db, id)
  {
    var c := CloseTurn(a, reason, env);
    assert c.closed[|a.closed|] == a.turn.value;
    assert InputsAgree(c.closed[|a.closed|], c.db, false);
    var i :| 0 <= i < |ActiveIds(a)| && ActiveIds(a)[i] == id;
    hide CloseTurn, Agreement;
    assert RowIs(c.db, id, Completed, Some(a.turn.value.turnId), Some(i));
    ACompletedRowIsNotOwed(c.db, id);
  }

  lemma TheSettledAreNotOwed(s: Actor, env: Env, db: Db, id: string)
    requires Valid(s) && Debts(s) && Fresh(s.db, env.turnId) && Midway(s, env, db) && id in ClosedIds(s.closed)
    ensures !ToReplay(db, id)
  {
    WhatIsOwed(s, id);
    CountedIsStored(s, id);
    T.AnAdmittedEventIsInOnePlace(s, id);
    if s.mailbox[0].Inbound? && s.mailbox[0].event.id == id { InHandOnly(s, id); }
    if !s.mailbox[0].Inbound? && s.queue != [] && s.queue[0].id == id { InHandOnly(s, id); }
    hide Valid, Debts, Fresh, Midway, ToReplay;
    assert s.db.inbox[id].disposition == Completed;
    MidwaySame(s, env, db, id);
    SameOwes(s.db, db, id);
  }

  /** The process dies between two writes of one handler. What the actor had waiting, in hand or
      given up is replayed; what the active turn took is replayed unless answered, or settled if
      the handler had closed the turn; what settled turns took is not. */
  lemma ACrashInsideAHandlerKeepsEveryDebt(s: Actor, env: Env, db: Db, id: string)
    requires Valid(s) && Debts(s) && Fresh(s.db, env.turnId) && Midway(s, env, db)
    ensures id in Posted(s.mailbox) || id in Ids(s.queue) || id in s.lost ==> Replays(R.Requeue(db), id)
    ensures id in ActiveIds(s) ==>
      && id in s.db.inbox
      && (Replays(R.Requeue(db), id) <==> s.mailbox[0].Inbound? && !R.Answered(s.db, id))
    ensures id in ClosedIds(s.closed) ==> !Replays(R.Requeue(db), id)
  {
    RequeueIsExact(db, id);
    if id in Posted(s.mailbox) || id in Ids(s.queue) || id in s.lost { TheWaitingAreOwed(s, env, db, id); }
    if id in ActiveIds(s) { TheActiveAreOwedUnlessEnded(s, env, db, id); }
    if id in ClosedIds(s.closed) { TheSettledAreNotOwed(s, env, db, id); }
    hide *;
  }

  /** Over every run of a new actor and at every store it ever commits: an event that waits, is
      in hand or was given up is replayed by the next start. */
  lemma NoCrashLosesADebt(
    channelId: string, trace: seq<Actor>, steps: seq<Step>, n: nat, env: Env, db: Db, id: string)
    requires Follows(trace, steps) && trace[0] == NewActor(channelId) && n < |trace|
    requires Fresh(trace[n].db, env.turnId) && (db == trace[n].db || Midway(trace[n], env, db))
    requires id in Posted(trace[n].mailbox) || id in Ids(trace[n].queue) || id in trace[n].lost
    ensures Replays(R.Requeue(db), id)
  {
    RunsKeepDebts(channelId, trace, steps, n);
    hide Valid, Debts, Midway, Follows, Fresh;
    if db == trace[n].db {
      ACrashKeepsEveryDebt(trace[n], id);
    } else {
      ACrashInsideAHandlerKeepsEveryDebt(trace[n], env, db, id);
    }
  }
}
