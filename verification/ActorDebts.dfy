/** What the rows say of events no part of the actor holds any more, and of those it has not
    looked at yet; and what a step leaves alone. */
module ActorDebts {
  import opened Basics
  import opened Tables
  import opened TurnContexts
  import opened ActorModel
  import opened ActorProofs

  // -------------------------------------------------------------- bystanders

  /** `id`'s inbox row, if any, and its rows in turn_inputs are the same in both. */
  ghost predicate Same(from: Db, to: Db, id: string) {
    && (id in to.inbox <==> id in from.inbox) && (id in from.inbox ==> to.inbox[id] == from.inbox[id])
    && (forall t: string :: (t, id) in to.inputs <==> (t, id) in from.inputs)
    && (forall t: string :: (t, id) in from.inputs ==> to.inputs[(t, id)] == from.inputs[(t, id)])
    && to.intents == from.intents
  }

  lemma SameTwice(a: Db, b: Db, c: Db, id: string)
    requires Same(a, b, id) && Same(b, c, id)
    ensures Same(a, c, id)
  {
  }

  /** Nothing the next message does is about this event. */
  ghost predicate Bystander(s: Actor, id: string) {
    && (s.mailbox != [] && s.mailbox[0].Inbound? ==> s.mailbox[0].event.id != id)
    && (s.queue != [] ==> s.queue[0].id != id)
    && (s.turn.Some? ==> Elsewhere(s.db, id, s.turn.value.turnId))
  }

  /** Closing the turn does not complete the event. */
  predicate Elsewhere(db: Db, id: string, turnId: string) {
    id in db.inbox ==> db.inbox[id].turnId != Some(turnId) || !Delivered(db.inbox[id].disposition)
  }

  lemma OpenTurnSame(db: Db, channelId: string, e: Event, env: Env, id: string)
    requires Fresh(db, env.turnId) && id != e.id
    ensures Same(db, OpenTurn(db, channelId, e, env), id)
    ensures Same(db, SetTurnState(OpenTurn(db, channelId, e, env), env.turnId, TurnState.Running, None, env.now), id)
  {
  }

  lemma StartSame(a: Actor, e: Event, env: Env, id: string)
    requires Fresh(a.db, env.turnId) && id != e.id
    ensures Same(a.db, StartTurn(a, e, env).a.db, id)
  {
    var db := OpenTurn(a.db, a.channelId, e, env);
    OpenTurnSame(a.db, a.channelId, e, env, id);
    var running := SetTurnState(db, env.turnId, TurnState.Running, None, env.now);
    assert Same(a.db, MarkInputDelivered(running, env.turnId, e.id, env.now), id);
    hide OpenTurn, Same, SetTurnState, MarkInputDelivered;
    StartStore(a, e, env);
  }

  /** The store a start leaves: opened and running and delivered, or only opened. */
  lemma StartStore(a: Actor, e: Event, env: Env)
    requires Fresh(a.db, env.turnId)
    ensures var db := OpenTurn(a.db, a.channelId, e, env); var r := StartTurn(a, e, env);
      r.a.db == if r.Threw? then db else
        MarkInputDelivered(SetTurnState(db, env.turnId, TurnState.Running, None, env.now), env.turnId, e.id, env.now)
  {
    hide OpenTurn, SetTurnState, MarkInputDelivered;
  }

  lemma SteerSame(a: Actor, e: Event, env: Env, id: string)
    requires a.turn.Some? && id != e.id
    ensures Same(a.db, SteerTurn(a, e, env).a.db, id)
  {
    var c := a.turn.value;
    if !OrdinalTaken(a.db, c.turnId, e.id, |c.inputs|) { OfferSame(a.db, c, e, env, id); }
    DispositionSame(a.db, e.id, id);
    hide OfferSteer, AcceptSteer, OrdinalTaken, Same, SetDisposition, SetDispositionAndTurn;
  }

  lemma DispositionSame(db: Db, eventId: string, id: string)
    requires id != eventId
    ensures Same(db, SetDisposition(db, eventId, Queued), id) && Same(db, db, id)
  {
  }

  lemma OfferSame(db: Db, c: TurnContext, e: Event, env: Env, id: string)
    requires !OrdinalTaken(db, c.turnId, e.id, |c.inputs|) && id != e.id
    ensures var offered := OfferSteer(db, c, e);
      && Same(db, offered, id)
      && Same(db, SetDisposition(offered, e.id, SteerDelivered), id)
      && Same(db, AcceptSteer(offered, c, e, env.now), id)
      && Same(db, SetDispositionAndTurn(offered, e.id, Queued, None), id)
  {
    hide OrdinalTaken;
  }

  lemma CloseTurnSame(a: Actor, reason: string, env: Env, id: string)
    requires a.turn.Some? && Elsewhere(a.db, id, a.turn.value.turnId)
    ensures Same(a.db, CloseTurn(a, reason, env).db, id)
  {
  }

  lemma SettleSame(a: Actor, reason: string, env: Env, id: string)
    requires Fresh(a.db, env.turnId) && (a.queue != [] ==> a.queue[0].id != id)
    requires a.turn.Some? ==> Elsewhere(a.db, id, a.turn.value.turnId)
    ensures Same(a.db, Settle(a, reason, env).a.db, id)
  {
    if a.turn.Some? {
      CloseTurnSame(a, reason, env, id);
      ClosingLeaves(a, reason, env);
      var c := CloseTurn(a, reason, env);
      hide CloseTurn, StartTurn, Fresh;
      if a.queue != [] {
        StartSame(c.(queue := c.queue[1..]), c.queue[0], env, id);
        SameTwice(a.db, c.db, StartTurn(c.(queue := c.queue[1..]), c.queue[0], env).a.db, id);
      }
    }
  }

  lemma CancelSame(a: Actor, reason: string, env: Env, id: string)
    requires Fresh(a.db, env.turnId) && (a.queue != [] ==> a.queue[0].id != id)
    requires a.turn.Some? ==> Elsewhere(a.db, id, a.turn.value.turnId)
    ensures Same(a.db, OnCancel(a, reason, env).a.db, id)
  {
    CancelIs(a, reason, env);
    var e := EmitSettled(a);
    assert e == a.(mailbox := e.mailbox);
    hide OnCancel, EmitSettled, Settle, Fresh;
    if a.turn.Some? && a.session.Some? {
      SettleSame(e.(staleSettles := a.staleSettles + 1), reason, env, id);
    }
  }

  lemma InboundSame(a: Actor, e: Event, env: Env, id: string)
    requires Fresh(a.db, env.turnId) && id != e.id
    ensures Same(a.db, OnInbound(a, e, env).a.db, id)
  {
    hide StartTurn, SteerTurn, Fresh;
    if a.turn.Some? { SteerSame(a, e, env, id); }
    StartSame(a, e, env, id);
  }

  lemma PiSame(a: Actor, p: PiEvent, env: Env, id: string)
    requires Fresh(a.db, env.turnId) && (a.queue != [] ==> a.queue[0].id != id)
    requires a.turn.Some? ==> Elsewhere(a.db, id, a.turn.value.turnId)
    ensures Same(a.db, OnPiEvent(a, p, env).a.db, id)
  {
    hide Settle, Fresh;
    SettleSame(if a.inFlight == [] then a else a.(inFlight := a.inFlight[1..]), "end_turn", env, id);
  }

  lemma PumpSame(s: Actor, env: Env, id: string)
    requires Fresh(s.db, env.turnId) && Bystander(s, id)
    ensures Same(s.db, Pump(s, env).db, id)
  {
    hide OnInbound, OnPiEvent, OnCancel, Fresh;
    if s.mailbox != [] {
      var a := s.(mailbox := s.mailbox[1..]);
      match s.mailbox[0]
      case Inbound(e) => InboundSame(a, e, env, id);
      case Pi(p) => PiSame(a, p, env, id);
      case Cancel(reason) => CancelSame(a, reason, env, id);
      case Rotate => CancelSame(a, "rotated", env, id);
      case Close => CancelSame(a, "shutdown", env, id);
    }
  }

  // ------------------------------------------------------------ given up, unseen

  /** No turn was ever offered the event. */
  ghost predicate Unseen(db: Db, id: string) { forall t: string :: (t, id) !in db.inputs }

  /** It became the primary of a turn that never started, and is not the active turn's. */
  ghost predicate NeverStarted(db: Db, id: string, active: Option<TurnContext>) {
    && id in db.inbox && db.inbox[id].turnId.Some?
    && var t := db.inbox[id].turnId.value;
       && RowIs(db, id, Prompted, Some(t), Some(0)) && t in db.turns
       && (t, id) in db.inputs && db.inputs[(t, id)].deliveredAt.None?
       && (active.Some? ==> active.value.turnId != t)
  }

  /** The row of an event that was given up still says it is owed an answer. */
  ghost predicate StillOwed(db: Db, id: string, active: Option<TurnContext>) {
    Waiting(db, id) || NeverStarted(db, id, active)
  }

  ghost predicate Debts(a: Actor) {
    && (forall t: string, id: string :: (t, id) in a.db.inputs ==> id in a.db.inbox)
    && (forall i :: 0 <= i < |a.mailbox| && a.mailbox[i].Inbound? ==> Unseen(a.db, a.mailbox[i].event.id))
    && (forall id :: id in a.lost ==> StillOwed(a.db, id, a.turn))
  }

  /** A step that leaves a given-up event alone and starts at most a turn not known before. */
  lemma OwedStays(from: Db, to: Db, id: string, before: Option<TurnContext>, after: Option<TurnContext>)
    requires StillOwed(from, id, before) && Same(from, to, id) && from.turns.Keys <= to.turns.Keys
    requires after.Some? ==> after.value.turnId !in from.turns || (before.Some? && before.value.turnId == after.value.turnId)
    ensures StillOwed(to, id, after)
  {
  }

  // ------------------------------------------------------------ what a step does

  /** The events and turns a step knows, the turn it leaves active, the events still posted, and the event
      it gives up: the one in hand with nothing written, or one whose turn never started. */
  ghost predicate Effects(a: Actor, b: Actor, env: Env, hand: Option<string>) {
    && b.db.inbox.Keys == a.db.inbox.Keys && a.db.turns.Keys <= b.db.turns.Keys
    && (b.turn.Some? ==>
          b.turn.value.turnId == env.turnId || (a.turn.Some? && a.turn.value.turnId == b.turn.value.turnId))
    && Posted(b.mailbox) == Posted(a.mailbox)
    && (b.lost == a.lost || GaveUp(a, b, hand))
  }

  ghost predicate GaveUp(a: Actor, b: Actor, hand: Option<string>) {
    && |b.lost| == |a.lost| + 1 && b.lost[..|a.lost|] == a.lost
    && var id := b.lost[|a.lost|];
       (hand == Some(id) && b.db == a.db && b.turn == a.turn) || NeverStarted(b.db, id, b.turn)
  }

  lemma StartEffects(a: Actor, e: Event, env: Env)
    requires Fresh(a.db, env.turnId) && e.id in a.db.inbox && a.turn.None?
    ensures Effects(a, StartTurn(a, e, env).a, env, Some(e.id))
  {
    var db := OpenTurn(a.db, a.channelId, e, env);
    OpenedNeverStarted(a.db, a.channelId, e, env);
    StartStore(a, e, env);
    var b := StartTurn(a, e, env).a;
    assert a.db.turns.Keys <= b.db.turns.Keys && b.db.inbox.Keys == a.db.inbox.Keys;
    hide OpenTurn, NeverStarted, Posted, Fresh, SetTurnState, MarkInputDelivered;
    assert b.lost == a.lost || (b.lost == a.lost + [e.id] && b.turn.None? && b.db == db);
  }

  lemma OpenedNeverStarted(db: Db, channelId: string, e: Event, env: Env)
    requires Fresh(db, env.turnId) && e.id in db.inbox
    ensures NeverStarted(OpenTurn(db, channelId, e, env), e.id, None)
    ensures db.turns.Keys <= OpenTurn(db, channelId, e, env).turns.Keys
    ensures OpenTurn(db, channelId, e, env).inbox.Keys == db.inbox.Keys
  {
  }

  lemma SettleEffects(a: Actor, reason: string, env: Env, hand: Option<string>)
    requires Fresh(a.db, env.turnId) && (a.queue != [] ==> a.queue[0].id in a.db.inbox)
    ensures Effects(a, Settle(a, reason, env).a, env, hand)
  {
    if a.turn.Some? {
      ClosingLeaves(a, reason, env);
      var c := CloseTurn(a, reason, env);
      assert c.db.turns.Keys == a.db.turns.Keys && c.db.inbox.Keys == a.db.inbox.Keys && c.lost == a.lost;
      hide CloseTurn, StartTurn, Fresh, NeverStarted;
      if a.queue != [] {
        var r := StartTurn(c.(queue := c.queue[1..]), c.queue[0], env).a;
        StartEffects(c.(queue := c.queue[1..]), c.queue[0], env);
        StartWritesSomething(c.(queue := c.queue[1..]), c.queue[0], env);
      }
    }
  }

  /** A start that throws has written its turn. */
  lemma StartWritesSomething(a: Actor, e: Event, env: Env)
    requires Fresh(a.db, env.turnId)
    ensures StartTurn(a, e, env).a.db != a.db
  {
    StartStore(a, e, env);
    assert env.turnId in OpenTurn(a.db, a.channelId, e, env).turns;
  }

  lemma CancelEffects(a: Actor, reason: string, env: Env, hand: Option<string>)
    requires Fresh(a.db, env.turnId) && (a.queue != [] ==> a.queue[0].id in a.db.inbox)
    ensures Effects(a, OnCancel(a, reason, env).a, env, hand)
  {
    CancelIs(a, reason, env);
    var e := EmitSettled(a);
    assert e == a.(mailbox := e.mailbox);
    MailboxAppend(a.mailbox, Pi(AgentSettled));
    assert Posted(e.mailbox) == Posted(a.mailbox);
    hide OnCancel, EmitSettled, Settle, Fresh, NeverStarted, Posted;
    if a.turn.Some? && a.session.Some? {
      SettleEffects(e.(staleSettles := a.staleSettles + 1), reason, env, hand);
    }
  }

  lemma InboundEffects(a: Actor, e: Event, env: Env)
    requires Fresh(a.db, env.turnId) && e.id in a.db.inbox && (a.phase == Idle ==> a.turn.None?)
    ensures Effects(a, OnInbound(a, e, env).a, env, Some(e.id))
  {
    if a.turn.Some? { SteerEffects(a, e, env); }
    hide StartTurn, SteerTurn, Fresh, NeverStarted, Posted;
    if a.phase == Idle { StartEffects(a, e, env); }
  }

  lemma SteerEffects(a: Actor, e: Event, env: Env)
    requires a.turn.Some?
    ensures Effects(a, SteerTurn(a, e, env).a, env, Some(e.id))
  {
    var c := a.turn.value;
    if !OrdinalTaken(a.db, c.turnId, e.id, |c.inputs|) { OfferKeys(a.db, c, e, env); }
    hide OrdinalTaken, NeverStarted, Posted, OfferSteer, AcceptSteer, SetDispositionAndTurn;
  }

  lemma OfferKeys(db: Db, c: TurnContext, e: Event, env: Env)
    requires !OrdinalTaken(db, c.turnId, e.id, |c.inputs|)
    ensures var offered := OfferSteer(db, c, e);
      && AcceptSteer(offered, c, e, env.now).inbox.Keys == db.inbox.Keys
      && AcceptSteer(offered, c, e, env.now).turns == db.turns
      && SetDispositionAndTurn(offered, e.id, Queued, None).inbox.Keys == db.inbox.Keys
      && SetDispositionAndTurn(offered, e.id, Queued, None).turns == db.turns
  {
    var offered := OfferSteer(db, c, e);
    assert offered.inbox.Keys == db.inbox.Keys && offered.turns == db.turns;
    hide OrdinalTaken, OfferSteer;
    RowKeysStay(offered, c.turnId, e.id, env.now);
    hide SetDispositionAndTurn, SetDisposition, MarkInputDelivered;
  }

  lemma RowKeysStay(db: Db, turnId: string, id: string, now: int)
    ensures MarkInputDelivered(SetDisposition(db, id, SteerDelivered), turnId, id, now).inbox.Keys == db.inbox.Keys
    ensures MarkInputDelivered(SetDisposition(db, id, SteerDelivered), turnId, id, now).turns == db.turns
    ensures SetDispositionAndTurn(db, id, Queued, None).inbox.Keys == db.inbox.Keys
    ensures SetDispositionAndTurn(db, id, Queued, None).turns == db.turns
  {
  }

  lemma PiEffects(a: Actor, p: PiEvent, env: Env)
    requires Fresh(a.db, env.turnId) && (a.queue != [] ==> a.queue[0].id in a.db.inbox)
    ensures Effects(a, OnPiEvent(a, p, env).a, env, None)
  {
    hide Settle, Fresh, NeverStarted, Posted;
    SettleEffects(if a.inFlight == [] then a else a.(inFlight := a.inFlight[1..]), "end_turn", env, None);
  }

  lemma PumpEffects(s: Actor, env: Env)
    requires Fresh(s.db, env.turnId) && s.mailbox != [] && (s.phase == Idle ==> s.turn.None?)
    requires s.queue != [] ==> s.queue[0].id in s.db.inbox
    requires s.mailbox[0].Inbound? ==> s.mailbox[0].event.id in s.db.inbox
    ensures Effects(s.(mailbox := s.mailbox[1..]), Pump(s, env), env,
      if s.mailbox[0].Inbound? then Some(s.mailbox[0].event.id) else None)
  {
    hide OnInbound, OnPiEvent, OnCancel, Fresh, NeverStarted, Posted;
    var a := s.(mailbox := s.mailbox[1..]);
    match s.mailbox[0]
    case Inbound(e) => InboundEffects(a, e, env);
    case Pi(p) => PiEffects(a, p, env);
    case Cancel(reason) => CancelEffects(a, reason, env, None);
    case Rotate => CancelEffects(a, "rotated", env, None);
    case Close => CancelEffects(a, "shutdown", env, None);
  }

  // -------------------------------------------------------------- runs keep debts

  /** The events a step takes in hand are known, given up by nobody and posted only once. */
  lemma HandsAreKnown(s: Actor)
    requires Rows(s)
    ensures s.queue != [] ==>
      && s.queue[0].id in s.db.inbox && s.queue[0].id !in s.lost && s.queue[0].id !in Posted(s.mailbox)
    ensures s.mailbox != [] && s.mailbox[0].Inbound? ==>
      var id := s.mailbox[0].event.id;
      && id in s.db.inbox && id !in s.lost && id !in Posted(s.mailbox[1..]) && Waiting(s.db, id)
  {
    if s.queue != [] {
      HeadConserves(s, s.(queue := s.queue[1..]));
      InHandIsNowhereElse(s.(queue := s.queue[1..]), s.queue[0].id);
    }
    if s.mailbox != [] && s.mailbox[0].Inbound? {
      HeadTaken(s, s.mailbox[0].event);
      InHandIsNowhereElse(s.(mailbox := s.mailbox[1..]), s.mailbox[0].event.id);
    }
  }

  lemma PumpDebts(s: Actor, env: Env)
    requires Valid(s) && Debts(s) && Fresh(s.db, env.turnId)
    ensures Debts(Pump(s, env))
  {
    if s.mailbox != [] {
      assert s.phase == Idle ==> s.turn.None?;
      HandsAreKnown(s);
      PumpEffects(s, env);
      hide Pump, Rows, Tracked, Fresh, Effects, Same;
      var b := Pump(s, env);
      forall t: string, id: string | (t, id) in b.db.inputs ensures id in b.db.inbox {
        InputsStayKnown(s, env, t, id);
      }
      forall i | 0 <= i < |b.mailbox| && b.mailbox[i].Inbound? ensures Unseen(b.db, b.mailbox[i].event.id) {
        PostedHolds(b.mailbox, i);
        PostedStaysUnseen(s, env, b.mailbox[i].event.id);
      }
      forall id | id in b.lost ensures StillOwed(b.db, id, b.turn) { LostStaysOwed(s, env, id); }
    }
  }

  /** What handling the head does, seen from the state without it. */
  ghost predicate Handled(s: Actor, env: Env)
    requires Fresh(s.db, env.turnId)
  {
    && s.mailbox != []
    && Effects(s.(mailbox := s.mailbox[1..]), Pump(s, env), env,
               if s.mailbox[0].Inbound? then Some(s.mailbox[0].event.id) else None)
  }

  lemma InputsStayKnown(s: Actor, env: Env, t: string, id: string)
    requires Rows(s) && Debts(s) && Fresh(s.db, env.turnId) && Handled(s, env) && (t, id) in Pump(s, env).db.inputs
    ensures id in Pump(s, env).db.inbox
  {
    HandsAreKnown(s);
    hide Rows, Pump, Fresh;
    if id !in s.db.inbox { PumpSame(s, env, id); }
  }

  lemma PostedStaysUnseen(s: Actor, env: Env, id: string)
    requires Rows(s) && Debts(s) && Fresh(s.db, env.turnId) && Handled(s, env) && id in Posted(Pump(s, env).mailbox)
    ensures Unseen(Pump(s, env).db, id)
  {
    assert id in Posted(s.mailbox[1..]) by { hide Pump; }
    PostedIsABystander(s, id);
    hide Rows, Pump, Fresh, Debts, Posted, Effects, Bystander;
    PumpSame(s, env, id);
  }

  lemma PostedIsABystander(s: Actor, id: string)
    requires Rows(s) && Debts(s) && s.mailbox != [] && id in Posted(s.mailbox[1..])
    ensures Bystander(s, id) && Unseen(s.db, id)
  {
    HandsAreKnown(s);
    hide Conserved, UniqueOrdinals, InputsAgree, OnlyRejectsBeyond, StillOwed;
    PostedComesFrom(s.mailbox[1..], id);
    var i :| 0 <= i < |s.mailbox[1..]| && s.mailbox[1..][i].Inbound? && s.mailbox[1..][i].event.id == id;
    assert s.mailbox[i + 1] == s.mailbox[1..][i];
    PostedHolds(s.mailbox, i + 1);
  }

  lemma LostStaysOwed(s: Actor, env: Env, id: string)
    requires Rows(s) && Debts(s) && Fresh(s.db, env.turnId) && Handled(s, env) && id in Pump(s, env).lost
    ensures StillOwed(Pump(s, env).db, id, Pump(s, env).turn)
  {
    if id in s.lost { OldDebtStays(s, env, id); } else { NewDebtIsOwed(s, env, id); }
  }

  lemma OldDebtStays(s: Actor, env: Env, id: string)
    requires Rows(s) && Debts(s) && Fresh(s.db, env.turnId) && Handled(s, env) && id in s.lost
    ensures StillOwed(Pump(s, env).db, id, Pump(s, env).turn)
  {
    HandsAreKnown(s);
    FreshIsNew(s.db, env.turnId);
    hide Rows, Pump, Posted, Fresh;
    assert StillOwed(s.db, id, s.turn) && Bystander(s, id);
    hide Debts, Bystander;
    PumpSame(s, env, id);
    OwedStays(s.db, Pump(s, env).db, id, s.turn, Pump(s, env).turn);
  }

  lemma NewDebtIsOwed(s: Actor, env: Env, id: string)
    requires Rows(s) && Fresh(s.db, env.turnId) && Handled(s, env)
    requires id in Pump(s, env).lost && id !in s.lost
    ensures StillOwed(Pump(s, env).db, id, Pump(s, env).turn)
  {
    HandsAreKnown(s);
    hide Rows, Pump, Posted, Fresh, NeverStarted;
    TheNewOne(s.lost, Pump(s, env).lost, id);
  }

  lemma TheNewOne<T>(before: seq<T>, after: seq<T>, x: T)
    requires |after| == |before| + 1 ==> after[..|before|] == before
    requires after == before || |after| == |before| + 1
    requires x in after && x !in before
    ensures |after| == |before| + 1 && after[|before|] == x
  {
    if |after| == |before| + 1 { assert after == before + [after[|before|]]; }
  }

  lemma FreshIsNew(db: Db, turnId: string)
    requires Fresh(db, turnId)
    ensures turnId !in db.turns
  {
  }

  lemma OfferDebts(a: Actor, e: Event, receivedAt: int)
    requires Debts(a)
    ensures Debts(Submit(a, e, receivedAt))
  {
    var b := Submit(a, e, receivedAt);
    if e.id !in a.db.inbox {
      assert b.db.inputs == a.db.inputs && Unseen(b.db, e.id) && Waiting(b.db, e.id);
      forall id | id in b.lost ensures StillOwed(b.db, id, b.turn) {
        if id != e.id { assert StillOwed(a.db, id, a.turn); }
      }
    }
  }

  lemma StepDebts(a: Actor, step: Step)
    requires Valid(a) && Debts(a) && Possible(a, step)
    ensures Debts(Next(a, step))
  {
    hide Rows, Tracked;
    match step
    case Offer(e, at) => OfferDebts(a, e, at);
    case Notify(m) =>
    case Emit =>
    case Turn(env) => PumpDebts(a, env);
  }

  lemma NewActorOwesNothing(channelId: string)
    ensures Debts(NewActor(channelId))
  {
  }

  /** Over every run of a new actor: the row of an event that was given up, by a steer that
      collided, a start that failed or a closed actor, stays owed an answer for good. */
  lemma {:induction false} RunsKeepDebts(channelId: string, trace: seq<Actor>, steps: seq<Step>, n: nat)
    requires Follows(trace, steps) && trace[0] == NewActor(channelId) && n < |trace|
    ensures Valid(trace[n]) && Debts(trace[n])
  {
    hide Valid, Next, Possible, Debts;
    NewActorIsValid(channelId);
    RunsAreValid(trace, steps);
    if n == 0 {
      NewActorOwesNothing(channelId);
    } else {
      RunsKeepDebts(channelId, trace, steps, n - 1);
      assert Possible(trace[n - 1], steps[n - 1]) && trace[n] == Next(trace[n - 1], steps[n - 1]);
      StepDebts(trace[n - 1], steps[n - 1]);
    }
  }
}
