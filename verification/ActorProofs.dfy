/** What every run of the channel actor keeps. */
module ActorProofs {
  import opened Basics
  import opened Tables
  import opened TurnContexts
  import opened ActorModel

  // -------------------------------------------------------- where an event is

  function Posted(mailbox: seq<Message>): seq<string> {
    if mailbox == [] then []
    else (if mailbox[0].Inbound? then [mailbox[0].event.id] else []) + Posted(mailbox[1..])
  }

  function Ids(events: seq<Event>): seq<string> {
    seq(|events|, i requires 0 <= i < |events| => events[i].id)
  }

  function ActiveIds(a: Actor): seq<string> {
    if a.turn.Some? then a.turn.value.accepted else []
  }

  function ClosedIds(closed: seq<TurnContext>): seq<string> {
    if closed == [] then [] else ClosedIds(closed[..|closed| - 1]) + closed[|closed| - 1].accepted
  }

  /** One entry for every place that holds an event. */
  function Census(a: Actor): multiset<string> {
    multiset(Posted(a.mailbox)) + multiset(Ids(a.queue)) + multiset(ActiveIds(a))
    + multiset(ClosedIds(a.closed)) + multiset(a.lost)
  }

  // ------------------------------------------------------ what its row says

  predicate RowIs(db: Db, id: string, d: Disposition, turnId: Option<string>, ordinal: Option<nat>) {
    id in db.inbox && db.inbox[id].disposition == d
    && db.inbox[id].turnId == turnId && db.inbox[id].ordinal == ordinal
  }

  predicate Waiting(db: Db, id: string) { RowIs(db, id, Queued, None, None) }

  ghost predicate MailboxAgrees(mailbox: seq<Message>, db: Db) {
    forall i :: 0 <= i < |mailbox| && mailbox[i].Inbound? ==> Waiting(db, mailbox[i].event.id)
  }

  ghost predicate QueueAgrees(queue: seq<Event>, db: Db) {
    forall i :: 0 <= i < |queue| ==> Waiting(db, queue[i].id)
  }

  /** The turn's inputs are the rows that carry its id, at their own ordinal. */
  ghost predicate InputsAgree(c: TurnContext, db: Db, isOpen: bool) {
    && WellFormed(c)
    && c.turnId in db.turns
    && (if isOpen then db.turns[c.turnId].state in {TurnState.Running, TurnState.Settling}
        else db.turns[c.turnId].state == Finished)
    && (forall i :: 0 <= i < |c.accepted| ==>
          RowIs(db, c.accepted[i],
            if !isOpen then Completed else if i == 0 then Prompted else SteerDelivered,
            Some(c.turnId), Some(i)))
    && (forall i :: 0 <= i < |c.accepted| ==>
          && (c.turnId, c.accepted[i]) in db.inputs
          && db.inputs[(c.turnId, c.accepted[i])].ordinal == i
          && db.inputs[(c.turnId, c.accepted[i])].deliveredAt.Some?)
  }

  /** Beside a turn's inputs, turn_inputs may hold rejected steers, all at the next ordinal. */
  ghost predicate OnlyRejectsBeyond(c: TurnContext, db: Db) {
    forall key :: key in db.inputs && key.0 == c.turnId && key.1 !in c.accepted ==>
      db.inputs[key].ordinal == |c.accepted|
  }

  ghost predicate Agreement(a: Actor) {
    && MailboxAgrees(a.mailbox, a.db) && QueueAgrees(a.queue, a.db)
    && (a.turn.Some? ==> InputsAgree(a.turn.value, a.db, true) && OnlyRejectsBeyond(a.turn.value, a.db))
    && (forall i :: 0 <= i < |a.closed| ==> InputsAgree(a.closed[i], a.db, false))
    && (forall id :: id in a.db.inbox && a.db.inbox[id].turnId.Some? ==> a.db.inbox[id].turnId.value in a.db.turns)
    && (forall key :: key in a.db.inputs ==> key.0 in a.db.turns)
  }

  /** The unique index turn_inputs_by_ordinal. */
  ghost predicate UniqueOrdinals(db: Db) {
    forall k, l {:trigger db.inputs[k].ordinal, db.inputs[l].ordinal} ::
      k in db.inputs && l in db.inputs && k.0 == l.0 && db.inputs[k].ordinal == db.inputs[l].ordinal ==> k == l
  }

  /** The census with the events in `hand` taken out of every place. */
  ghost predicate Conserved(a: Actor, hand: multiset<string>) {
    Census(a) + hand == multiset(a.db.inbox.Keys)
  }

  lemma InHandIsNowhereElse(a: Actor, id: string)
    requires Conserved(a, multiset{id})
    ensures id in a.db.inbox
    ensures id !in Posted(a.mailbox) && id !in Ids(a.queue) && id !in ActiveIds(a)
    ensures id !in ClosedIds(a.closed) && id !in a.lost
  {
    assert (Census(a) + multiset{id})[id] == multiset(a.db.inbox.Keys)[id] <= 1;
  }

  // ------------------------------------------------------------ list lemmas

  lemma {:induction false} PostedHolds(mailbox: seq<Message>, i: nat)
    requires i < |mailbox| && mailbox[i].Inbound?
    ensures mailbox[i].event.id in Posted(mailbox)
  {
    if i > 0 { PostedHolds(mailbox[1..], i - 1); }
  }

  lemma {:induction false} MailboxAppend(mailbox: seq<Message>, m: Message)
    ensures Posted(mailbox + [m]) == Posted(mailbox) + (if m.Inbound? then [m.event.id] else [])
    ensures Settles(mailbox + [m]) == Settles(mailbox) + (if m == Pi(AgentSettled) then 1 else 0)
  {
    if mailbox != [] {
      MailboxAppend(mailbox[1..], m);
      assert (mailbox + [m])[1..] == mailbox[1..] + [m];
    }
  }

  lemma {:induction false} ClosedHolds(closed: seq<TurnContext>, i: nat, k: nat)
    requires i < |closed| && k < |closed[i].accepted|
    ensures closed[i].accepted[k] in ClosedIds(closed)
  {
    if i < |closed| - 1 { ClosedHolds(closed[..|closed| - 1], i, k); }
  }

  // ------------------------------------------------- changes to one event row

  /** `to` keeps every inbox row of `from` but possibly `id`'s. */
  ghost predicate SameInboxBut(from: Db, to: Db, id: string) {
    forall k :: k in from.inbox && k != id ==> k in to.inbox && to.inbox[k] == from.inbox[k]
  }

  /** `to` keeps the turn row and the input rows of `turnId`. */
  ghost predicate SameTurn(from: Db, to: Db, turnId: string) {
    && (turnId in from.turns ==> turnId in to.turns && to.turns[turnId] == from.turns[turnId])
    && (forall key :: key in from.inputs && key.0 == turnId ==>
          key in to.inputs && to.inputs[key] == from.inputs[key])
  }

  lemma OtherPlacesAgree(a: Actor, to: Db, id: string)
    requires Conserved(a, multiset{id}) && Agreement(a)
    requires SameInboxBut(a.db, to, id)
    requires forall i :: 0 <= i < |a.closed| ==> SameTurn(a.db, to, a.closed[i].turnId)
    ensures MailboxAgrees(a.mailbox, to) && QueueAgrees(a.queue, to)
    ensures forall i :: 0 <= i < |a.closed| ==> InputsAgree(a.closed[i], to, false)
  {
    InHandIsNowhereElse(a, id);
    forall i | 0 <= i < |a.mailbox| && a.mailbox[i].Inbound? ensures Waiting(to, a.mailbox[i].event.id) {
      PostedHolds(a.mailbox, i);
    }
    forall i | 0 <= i < |a.queue| ensures Waiting(to, a.queue[i].id) {
      assert Ids(a.queue)[i] == a.queue[i].id;
    }
    forall i | 0 <= i < |a.closed| ensures InputsAgree(a.closed[i], to, false) {
      forall k | 0 <= k < |a.closed[i].accepted| ensures a.closed[i].accepted[k] != id {
        ClosedHolds(a.closed, i, k);
      }
    }
  }

  // ------------------------------------------------------------ the invariant

  /** The active turn's `agent_settled` will be heard. */
  predicate Heard(a: Actor) { a.turn.Some? && a.subscribed }

  /** Unprocessed settles are the discounted ones, all posted, then the heard turn's own. */
  ghost predicate SettlesTracked(a: Actor) {
    && a.staleSettles <= Settles(a.mailbox) <= |a.inFlight|
    && |a.inFlight| == a.staleSettles + (if Heard(a) then 1 else 0)
    && (Heard(a) ==> a.inFlight[|a.inFlight| - 1] == a.turn.value.turnId)
  }

  /** A turn, or a start that hangs, holds the one permit; an idle actor holds none and has
      nothing queued. */
  ghost predicate Posture(a: Actor) {
    && (a.turn.Some? ==> a.phase in {Phase.Running, Phase.Settling, Closed} && a.permits == 1)
    && (a.phase in {Phase.Running, Phase.Settling} ==> a.turn.Some?)
    && (a.phase == Starting ==> a.permits == 1)
    && (a.phase == Idle ==> a.permits == 0 && a.queue == [])
    && a.permits <= 1
  }

  /** Until a close is handled. */
  ghost predicate Lifecycle(a: Actor) {
    && a.phase != Closed && Posture(a)
    && (a.session.Some? <==> a.subscribed)
    && SettlesTracked(a)
  }

  /** Once a close was handled: there are at least as many settles to discount as will ever
      be heard, and one more before an idle actor starts a turn. */
  ghost predicate AfterClose(a: Actor) {
    && Posture(a)
    && Settles(a.mailbox) <= |a.inFlight|
    && |a.inFlight| + (if a.phase == Idle then 1 else 0) <= a.staleSettles
  }

  /** What is true of the actor's own fields, before and after a close. */
  ghost predicate Tracked(a: Actor) {
    if a.shut then AfterClose(a) else Lifecycle(a)
  }

  ghost predicate Rows(a: Actor) {
    Conserved(a, multiset{}) && Agreement(a) && UniqueOrdinals(a.db)
  }

  /** Every reachable state, closed or reopened ones included. */
  ghost predicate Valid(a: Actor) {
    Rows(a) && Tracked(a)
  }

  /** No turn, no permit, and every unprocessed `agent_settled` is a stale one. */
  ghost predicate Between(a: Actor) {
    && a.turn.None? && a.permits == 0 && a.phase != Closed
    && (a.session.Some? <==> a.subscribed)
    && |a.inFlight| == a.staleSettles == Settles(a.mailbox)
  }

  /** The event in hand became the one active input, or was lost; nothing else moved. */
  lemma PlacedConserves(a: Actor, b: Actor, id: string)
    requires Conserved(a, multiset{id}) && ActiveIds(a) == []
    requires b.db.inbox.Keys == a.db.inbox.Keys
    requires b.mailbox == a.mailbox && b.queue == a.queue && b.closed == a.closed
    requires (ActiveIds(b) == [id] && b.lost == a.lost) || (ActiveIds(b) == [] && b.lost == a.lost + [id])
    ensures Conserved(b, multiset{})
  {
    assert Census(b) == Census(a) + multiset{id};
  }

  /** The rows of a turn that was just opened for `e`. */
  ghost predicate TurnRows(from: Db, to: Db, e: Event, turnId: string) {
    && to.inbox.Keys == from.inbox.Keys && SameInboxBut(from, to, e.id)
    && RowIs(to, e.id, Prompted, Some(turnId), Some(0))
    && to.turns.Keys == from.turns.Keys + {turnId}
    && (forall t :: t in from.turns ==> to.turns[t] == from.turns[t])
    && to.inputs.Keys == from.inputs.Keys + {(turnId, e.id)}
    && (forall key :: key in from.inputs ==> to.inputs[key] == from.inputs[key])
    && to.inputs[(turnId, e.id)].ordinal == 0
  }

  lemma OpenTurnRows(db: Db, channelId: string, e: Event, env: Env)
    requires Fresh(db, env.turnId) && e.id in db.inbox
    ensures TurnRows(db, OpenTurn(db, channelId, e, env), e, env.turnId)
  {
  }

  lemma RunTurnRows(from: Db, to: Db, e: Event, env: Env)
    requires Fresh(from, env.turnId) && TurnRows(from, to, e, env.turnId)
    ensures var db := MarkInputDelivered(
        SetTurnState(to, env.turnId, TurnState.Running, None, env.now), env.turnId, e.id, env.now);
      && TurnRows(from, db, e, env.turnId)
      && db.turns[env.turnId].state == TurnState.Running
      && db.inputs[(env.turnId, e.id)].deliveredAt.Some?
  {
  }

  lemma PlacedAgrees(a: Actor, b: Actor, e: Event, turnId: string)
    requires Conserved(a, multiset{e.id}) && Agreement(a) && a.turn.None?
    requires Fresh(a.db, turnId) && TurnRows(a.db, b.db, e, turnId)
    requires b.mailbox == a.mailbox && b.queue == a.queue && b.closed == a.closed
    requires b.turn.Some? ==>
      && WellFormed(b.turn.value) && b.turn.value.turnId == turnId && b.turn.value.accepted == [e.id]
      && b.db.turns[turnId].state == TurnState.Running
      && b.db.inputs[(turnId, e.id)].deliveredAt.Some?
    ensures Agreement(b)
  {
    OtherPlacesAgree(a, b.db, e.id);
    PlacedTurns(a, b.db, e, turnId);
    if b.turn.Some? { PlacedInputs(b.turn.value, a, b.db, e); }
    hide MailboxAgrees, QueueAgrees, InputsAgree, OnlyRejectsBeyond, TurnRows, WellFormed;
  }

  /** Every row still names a known turn. */
  lemma PlacedTurns(a: Actor, to: Db, e: Event, turnId: string)
    requires Agreement(a) && TurnRows(a.db, to, e, turnId)
    ensures forall id :: id in to.inbox && to.inbox[id].turnId.Some? ==> to.inbox[id].turnId.value in to.turns
    ensures forall key :: key in to.inputs ==> key.0 in to.turns
  {
    hide MailboxAgrees, QueueAgrees, InputsAgree, OnlyRejectsBeyond;
    forall id | id in to.inbox && to.inbox[id].turnId.Some? ensures to.inbox[id].turnId.value in to.turns {
      assert id != e.id ==> to.inbox[id] == a.db.inbox[id];
    }
  }

  lemma PlacedInputs(c: TurnContext, a: Actor, to: Db, e: Event)
    requires Agreement(a) && Fresh(a.db, c.turnId) && TurnRows(a.db, to, e, c.turnId)
    requires WellFormed(c) && c.accepted == [e.id]
    requires to.turns[c.turnId].state == TurnState.Running && to.inputs[(c.turnId, e.id)].deliveredAt.Some?
    ensures InputsAgree(c, to, true) && OnlyRejectsBeyond(c, to)
  {
    hide MailboxAgrees, QueueAgrees;
  }

  lemma UniqueAfterOpening(from: Db, to: Db, e: Event, turnId: string)
    requires UniqueOrdinals(from) && Fresh(from, turnId) && TurnRows(from, to, e, turnId)
    ensures UniqueOrdinals(to)
  {
  }

  lemma StartTurnRows(a: Actor, e: Event, env: Env)
    requires a.turn.None? && Fresh(a.db, env.turnId)
    requires Conserved(a, multiset{e.id}) && Agreement(a) && UniqueOrdinals(a.db)
    ensures Rows(StartTurn(a, e, env).a)
  {
    var r := StartTurn(a, e, env);
    InHandIsNowhereElse(a, e.id);
    assert TurnRows(a.db, r.a.db, e, env.turnId) by {
      OpenTurnRows(a.db, a.channelId, e, env);
      RunTurnRows(a.db, OpenTurn(a.db, a.channelId, e, env), e, env);
      hide TurnRows, OpenTurn;
    }
    hide UniqueOrdinals, Agreement, TurnRows, OpenTurn;
    UniqueAfterOpening(a.db, r.a.db, e, env.turnId);
    PlacedConserves(a, r.a, e.id);
    StartTurnPlaces(a, e, env);
    PlacedAgrees(a, r.a, e, env.turnId);
  }

  /** A started turn is the event's own, running and delivered. */
  lemma StartTurnPlaces(a: Actor, e: Event, env: Env)
    requires a.turn.None? && Fresh(a.db, env.turnId) && e.id in a.db.inbox
    ensures var b := StartTurn(a, e, env).a;
      b.turn.Some? ==>
        && WellFormed(b.turn.value) && b.turn.value.turnId == env.turnId && b.turn.value.accepted == [e.id]
        && env.turnId in b.db.turns && b.db.turns[env.turnId].state == TurnState.Running
        && (env.turnId, e.id) in b.db.inputs && b.db.inputs[(env.turnId, e.id)].deliveredAt.Some?
  {
    var db := OpenTurn(a.db, a.channelId, e, env);
    OpenTurnRows(a.db, a.channelId, e, env);
    RunTurnRows(a.db, db, e, env);
    var ready := ReleaseStaleSession(Begin(a, e, env), SessionRoot(e), env);
    assert ready.db == db && ready.turn.None?;
    LaunchPlaces(ready, e, env);
    hide OpenTurn, TurnRows, Launch, WellFormed;
    if env.opens { LaunchPlaces(ready.(session := Some(SessionRoot(e)), subscribed := true), e, env); }
  }

  lemma LaunchPlaces(a: Actor, e: Event, env: Env)
    ensures var b := Launch(a, e, env);
      && b.turn.Some? && WellFormed(b.turn.value) && b.turn.value.turnId == env.turnId && b.turn.value.accepted == [e.id]
      && b.db == MarkInputDelivered(
           SetTurnState(a.db, env.turnId, TurnState.Running, None, env.now), env.turnId, e.id, env.now)
  {
  }

  lemma StartTurnTracks(a: Actor, e: Event, env: Env)
    requires Between(a) && Fresh(a.db, env.turnId)
    ensures var r := StartTurn(a, e, env);
      && r.a.permits == 1
      && (r.a.session.Some? <==> r.a.subscribed)
      && r.a.staleSettles == Settles(r.a.mailbox)
      && r.a.queue == a.queue
      && (r.Threw? ==>
            && r.a.phase == Starting && r.a.turn.None? && r.a.inFlight == a.inFlight
            && !env.opens && r.a.lost == a.lost + [e.id])
      && (r.Done? ==>
            && r.a.phase == Phase.Running && r.a.turn.Some? && r.a.subscribed
            && r.a.turn.value.turnId == env.turnId
            && r.a.inFlight == a.inFlight + [env.turnId] && r.a.lost == a.lost)
  {
  }

  // ------------------------------------------------------- queueing, steering

  lemma QueuedConserves(a: Actor, b: Actor, e: Event)
    requires Conserved(a, multiset{e.id})
    requires b.db.inbox.Keys == a.db.inbox.Keys
    requires b.mailbox == a.mailbox && b.turn == a.turn && b.closed == a.closed && b.lost == a.lost
    requires b.queue == a.queue + [e]
    ensures Conserved(b, multiset{})
  {
    assert Ids(b.queue) == Ids(a.queue) + [e.id];
    hide Posted, ClosedIds, ActiveIds, Ids;
    AddedInSecond(multiset(Posted(a.mailbox)), multiset(Ids(a.queue)), multiset(ActiveIds(a)), multiset(ClosedIds(a.closed)),
      multiset(a.lost), e.id);
  }

  lemma AddedInSecond<T>(p: multiset<T>, q: multiset<T>, r: multiset<T>, s: multiset<T>, t: multiset<T>, x: T)
    ensures p + (q + multiset{x}) + r + s + t == p + q + r + s + t + multiset{x}
    ensures (p + multiset{x}) + q + r + s + t == p + q + r + s + t + multiset{x}
    ensures p + q + r + s + (t + multiset{x}) == p + q + r + s + t + multiset{x}
  {
  }

  lemma LostConserves(a: Actor, b: Actor, id: string)
    requires Conserved(a, multiset{id})
    requires b == a.(lost := a.lost + [id])
    ensures Conserved(b, multiset{})
  {
    assert Census(b) == Census(a) + multiset{id};
  }

  lemma EnqueueKeeps(a: Actor, e: Event)
    requires Conserved(a, multiset{e.id}) && Agreement(a) && Waiting(a.db, e.id)
    ensures Conserved(Enqueue(a, e), multiset{}) && Agreement(Enqueue(a, e))
  {
    var b := Enqueue(a, e);
    assert b.db.inbox == a.db.inbox;
    QueuedConserves(a, b, e);
  }

  /** What offering `e` to the turn `turnId` at position `n` writes, before Pi answers. */
  ghost predicate OfferRows(from: Db, to: Db, e: Event, turnId: string, n: nat) {
    && to.inbox.Keys == from.inbox.Keys && SameInboxBut(from, to, e.id)
    && to.turns == from.turns
    && to.inputs.Keys == from.inputs.Keys + {(turnId, e.id)}
    && (forall key :: key in from.inputs && key != (turnId, e.id) ==> to.inputs[key] == from.inputs[key])
    && to.inputs[(turnId, e.id)].ordinal == n
  }

  /** Only `id` can stand in turn_inputs beside the turn's own inputs. */
  ghost predicate OnlyRejectIs(c: TurnContext, db: Db, id: string) {
    forall key :: key in db.inputs && key.0 == c.turnId && key.1 !in c.accepted ==> key.1 == id
  }

  /** If the next ordinal is free for `e`, no other event was rejected by this turn. */
  lemma FreeOrdinalMeansNoReject(c: TurnContext, db: Db, id: string)
    requires OnlyRejectsBeyond(c, db) && UniqueOrdinals(db) && id !in c.accepted
    requires !OrdinalTaken(db, c.turnId, id, |c.accepted|)
    ensures OnlyRejectIs(c, db, id)
  {
    if (c.turnId, id) in db.inputs {
      assert db.inputs[(c.turnId, id)].ordinal == |c.accepted|;
    }
  }

  lemma OfferedRows(c: TurnContext, db: Db, e: Event)
    requires OnlyRejectsBeyond(c, db) && |c.inputs| == |c.accepted|
    requires e.id in db.inbox && e.id !in c.accepted
    requires !OrdinalTaken(db, c.turnId, e.id, |c.inputs|)
    ensures OfferRows(db, OfferSteer(db, c, e), e, c.turnId, |c.accepted|)
    ensures RowIs(OfferSteer(db, c, e), e.id, SteerPending, Some(c.turnId), Some(|c.accepted|))
  {
    if (c.turnId, e.id) in db.inputs {
      assert db.inputs[(c.turnId, e.id)].ordinal == |c.accepted|;
    }
  }

  lemma OpenInputsAgree(c: TurnContext, from: Db, to: Db, e: Event)
    requires InputsAgree(c, from, true) && e.id !in c.accepted
    requires OfferRows(from, to, e, c.turnId, |c.accepted|)
    ensures InputsAgree(c, to, true)
  {
    assert forall i :: 0 <= i < |c.accepted| ==> c.accepted[i] != e.id;
  }

  lemma GrownInputsAgree(c: TurnContext, from: Db, to: Db, e: Event)
    requires InputsAgree(c, from, true) && e.id !in c.accepted
    requires OfferRows(from, to, e, c.turnId, |c.accepted|)
    requires RowIs(to, e.id, SteerDelivered, Some(c.turnId), Some(|c.accepted|))
    requires to.inputs[(c.turnId, e.id)].deliveredAt.Some?
    ensures InputsAgree(WithSteeringInput(c, SteeringOf(e)), to, true)
  {
    OpenInputsAgree(c, from, to, e);
    var d := WithSteeringInput(c, SteeringOf(e));
    assert WellFormed(d);
    forall i | 0 <= i < |d.accepted| ensures d.accepted[i] == (if i == |c.accepted| then e.id else c.accepted[i]) {}
  }

  lemma SteerPlacesAgree(a: Actor, to: Db, e: Event)
    requires Conserved(a, multiset{e.id}) && Agreement(a) && a.turn.Some?
    requires OfferRows(a.db, to, e, a.turn.value.turnId, |a.turn.value.accepted|)
    requires e.id in to.inbox && (to.inbox[e.id].turnId.Some? ==> to.inbox[e.id].turnId.value in to.turns)
    ensures MailboxAgrees(a.mailbox, to) && QueueAgrees(a.queue, to)
    ensures forall i :: 0 <= i < |a.closed| ==> InputsAgree(a.closed[i], to, false)
    ensures forall id :: id in to.inbox && to.inbox[id].turnId.Some? ==> to.inbox[id].turnId.value in to.turns
    ensures forall key :: key in to.inputs ==> key.0 in to.turns
  {
    forall i | 0 <= i < |a.closed| ensures SameTurn(a.db, to, a.closed[i].turnId) {
      assert InputsAgree(a.closed[i], a.db, false);
    }
    OtherPlacesAgree(a, to, e.id);
  }

  lemma RejectedKeeps(a: Actor, e: Event)
    requires Conserved(a, multiset{e.id}) && Agreement(a) && a.turn.Some?
    requires !OrdinalTaken(a.db, a.turn.value.turnId, e.id, |a.turn.value.inputs|)
    ensures var b := a.(
        db := SetDispositionAndTurn(OfferSteer(a.db, a.turn.value, e), e.id, Queued, None), queue := a.queue + [e]);
      Conserved(b, multiset{}) && Agreement(b)
  {
    var c := a.turn.value;
    InHandIsNowhereElse(a, e.id);
    var to := SetDispositionAndTurn(OfferSteer(a.db, c, e), e.id, Queued, None);
    assert OfferRows(a.db, to, e, c.turnId, |c.accepted|) && Waiting(to, e.id) by { OfferedRows(c, a.db, e); }
    hide *;
    RejectedAgrees(a, e, to);
  }

  lemma RejectedAgrees(a: Actor, e: Event, to: Db)
    requires Conserved(a, multiset{e.id}) && Agreement(a) && a.turn.Some? && e.id !in a.turn.value.accepted
    requires OfferRows(a.db, to, e, a.turn.value.turnId, |a.turn.value.accepted|) && Waiting(to, e.id)
    ensures var b := a.(db := to, queue := a.queue + [e]); Conserved(b, multiset{}) && Agreement(b)
  {
    var c := a.turn.value;
    SteerPlacesAgree(a, to, e);
    OpenInputsAgree(c, a.db, to, e);
    RejectStaysBeyond(c, a.db, to, e);
    LongerQueueAgrees(a.queue, e, to);
    hide MailboxAgrees, QueueAgrees, InputsAgree, OnlyRejectsBeyond, SameInboxBut;
    QueuedConserves(a, a.(db := to, queue := a.queue + [e]), e);
  }

  lemma RejectStaysBeyond(c: TurnContext, from: Db, to: Db, e: Event)
    requires OnlyRejectsBeyond(c, from) && OfferRows(from, to, e, c.turnId, |c.accepted|)
    ensures OnlyRejectsBeyond(c, to)
  {
  }

  lemma LongerQueueAgrees(queue: seq<Event>, e: Event, to: Db)
    requires QueueAgrees(queue, to) && Waiting(to, e.id)
    ensures QueueAgrees(queue + [e], to)
  {
  }

  lemma AcceptedKeeps(a: Actor, e: Event, now: int)
    requires Conserved(a, multiset{e.id}) && Agreement(a) && a.turn.Some?
    requires !OrdinalTaken(a.db, a.turn.value.turnId, e.id, |a.turn.value.inputs|)
    requires OnlyRejectIs(a.turn.value, a.db, e.id)
    ensures var b := a.(
        db := AcceptSteer(OfferSteer(a.db, a.turn.value, e), a.turn.value, e, now),
        turn := Some(WithSteeringInput(a.turn.value, SteeringOf(e))));
      Conserved(b, multiset{}) && Agreement(b)
  {
    var c := a.turn.value;
    InHandIsNowhereElse(a, e.id);
    var to := AcceptSteer(OfferSteer(a.db, c, e), c, e, now);
    assert OfferRows(a.db, to, e, c.turnId, |c.accepted|)
      && RowIs(to, e.id, SteerDelivered, Some(c.turnId), Some(|c.accepted|))
      && to.inputs[(c.turnId, e.id)].deliveredAt.Some? by { OfferedRows(c, a.db, e); }
    hide *;
    AcceptedAgrees(a, e, to);
  }

  lemma AcceptedAgrees(a: Actor, e: Event, to: Db)
    requires Conserved(a, multiset{e.id}) && Agreement(a) && a.turn.Some? && e.id !in a.turn.value.accepted
    requires OnlyRejectIs(a.turn.value, a.db, e.id)
    requires OfferRows(a.db, to, e, a.turn.value.turnId, |a.turn.value.accepted|)
    requires RowIs(to, e.id, SteerDelivered, Some(a.turn.value.turnId), Some(|a.turn.value.accepted|))
    requires to.inputs[(a.turn.value.turnId, e.id)].deliveredAt.Some?
    ensures var b := a.(db := to, turn := Some(WithSteeringInput(a.turn.value, SteeringOf(e))));
      Conserved(b, multiset{}) && Agreement(b)
  {
    var c := a.turn.value;
    var d := WithSteeringInput(c, SteeringOf(e));
    assert d.accepted == c.accepted + [e.id] && d.turnId == c.turnId;
    var b := a.(db := to, turn := Some(d));
    SharedRows(a.db, to, e, c);
    hide *;
    TurnAgrees(a);
    SteerPlacesAgree(a, to, e);
    GrownInputsAgree(c, a.db, to, e);
    AcceptStaysBeyond(c, d, a.db, to, e);
    AgreementHolds(b);
    AcceptedConserves(a, b, e.id);
  }

  lemma SharedRows(from: Db, to: Db, e: Event, c: TurnContext)
    requires OfferRows(from, to, e, c.turnId, |c.accepted|)
    requires RowIs(to, e.id, SteerDelivered, Some(c.turnId), Some(|c.accepted|)) && c.turnId in from.turns
    ensures to.inbox.Keys == from.inbox.Keys && e.id in to.inbox
    ensures to.inbox[e.id].turnId == Some(c.turnId) && c.turnId in to.turns && (c.turnId, e.id) in to.inputs
  {
  }

  lemma TurnAgrees(a: Actor)
    requires Agreement(a) && a.turn.Some?
    ensures InputsAgree(a.turn.value, a.db, true) && OnlyRejectsBeyond(a.turn.value, a.db)
  {
  }

  lemma AgreementHolds(b: Actor)
    requires MailboxAgrees(b.mailbox, b.db) && QueueAgrees(b.queue, b.db)
    requires b.turn.Some? ==> InputsAgree(b.turn.value, b.db, true) && OnlyRejectsBeyond(b.turn.value, b.db)
    requires forall i :: 0 <= i < |b.closed| ==> InputsAgree(b.closed[i], b.db, false)
    requires forall id :: id in b.db.inbox && b.db.inbox[id].turnId.Some? ==> b.db.inbox[id].turnId.value in b.db.turns
    requires forall key :: key in b.db.inputs ==> key.0 in b.db.turns
    ensures Agreement(b)
  {
  }

  lemma AcceptStaysBeyond(c: TurnContext, d: TurnContext, from: Db, to: Db, e: Event)
    requires OnlyRejectIs(c, from, e.id) && OfferRows(from, to, e, c.turnId, |c.accepted|)
    requires d.turnId == c.turnId && d.accepted == c.accepted + [e.id]
    ensures OnlyRejectsBeyond(d, to)
  {
    assert e.id in d.accepted && forall x :: x in c.accepted ==> x in d.accepted;
  }

  lemma AcceptedConserves(a: Actor, b: Actor, id: string)
    requires Conserved(a, multiset{id}) && b.db.inbox.Keys == a.db.inbox.Keys
    requires b.mailbox == a.mailbox && b.queue == a.queue && b.closed == a.closed && b.lost == a.lost
    requires ActiveIds(b) == ActiveIds(a) + [id]
    ensures Conserved(b, multiset{})
  {
    assert Census(b) == Census(a) + multiset{id};
  }

  lemma SteerKeeps(a: Actor, e: Event, env: Env)
    requires Conserved(a, multiset{e.id}) && Agreement(a) && Waiting(a.db, e.id) && a.turn.Some?
    requires UniqueOrdinals(a.db)
    ensures Conserved(SteerTurn(a, e, env).a, multiset{}) && Agreement(SteerTurn(a, e, env).a)
  {
    var c := a.turn.value;
    if a.session.None? {
      EnqueueKeeps(a, e);
    } else if OrdinalTaken(a.db, c.turnId, e.id, |c.inputs|) {
      LostConserves(a, a.(lost := a.lost + [e.id]), e.id);
    } else if env.steers {
      InHandIsNowhereElse(a, e.id);
      FreeOrdinalMeansNoReject(c, a.db, e.id);
      AcceptedKeeps(a, e, env.now);
    } else {
      RejectedKeeps(a, e);
    }
  }

  // ---------------------------------------------------------- closing a turn

  lemma CloseTurnConserves(a: Actor, reason: string, env: Env)
    requires Conserved(a, multiset{}) && a.turn.Some?
    ensures Conserved(CloseTurn(a, reason, env), multiset{})
  {
    var b := CloseTurn(a, reason, env);
    assert b.closed[..|b.closed| - 1] == a.closed;
    assert b.db.inbox.Keys == a.db.inbox.Keys;
    assert Census(b) == Census(a);
  }

  lemma CloseTurnAgrees(a: Actor, reason: string, env: Env)
    requires Agreement(a) && a.turn.Some?
    ensures Agreement(CloseTurn(a, reason, env))
  {
    var b := CloseTurn(a, reason, env);
    CloseRows(a.db, b.db, a.turn.value, reason, env.now);
    ClosedAgree(a, b.db);
    OpenPlacesAgree(a, b.db);
    hide MailboxAgrees, QueueAgrees, InputsAgree, OnlyRejectsBeyond;
  }

  /** What closing the turn `c` writes. */
  ghost predicate ClosingRows(from: Db, to: Db, c: TurnContext) {
    && to.inputs == from.inputs && to.turns.Keys == from.turns.Keys && to.inbox.Keys == from.inbox.Keys
    && (c.turnId in from.turns ==> to.turns[c.turnId].state == Finished)
    && (forall t :: t in from.turns && t != c.turnId ==> to.turns[t] == from.turns[t])
    && (forall id :: id in from.inbox ==>
          to.inbox[id] == if from.inbox[id].turnId == Some(c.turnId) && Delivered(from.inbox[id].disposition)
                          then from.inbox[id].(disposition := Completed) else from.inbox[id])
  }

  lemma CloseRows(from: Db, to: Db, c: TurnContext, reason: string, now: int)
    requires to == CompleteTurnInputs(SetTurnState(from, c.turnId, Finished, Some(reason), now), c.turnId)
    ensures ClosingRows(from, to, c)
  {
  }

  lemma ClosedAgree(a: Actor, to: Db)
    requires Agreement(a) && a.turn.Some? && ClosingRows(a.db, to, a.turn.value)
    ensures forall i :: 0 <= i < |a.closed + [a.turn.value]| ==> InputsAgree((a.closed + [a.turn.value])[i], to, false)
  {
    hide MailboxAgrees, QueueAgrees, OnlyRejectsBeyond;
    var closed := a.closed + [a.turn.value];
    forall i | 0 <= i < |closed| ensures InputsAgree(closed[i], to, false) {
      if i < |a.closed| { assert a.db.turns[a.closed[i].turnId].state == Finished; }
    }
  }

  lemma OpenPlacesAgree(a: Actor, to: Db)
    requires Agreement(a) && a.turn.Some? && ClosingRows(a.db, to, a.turn.value)
    ensures MailboxAgrees(a.mailbox, to) && QueueAgrees(a.queue, to)
    ensures forall id :: id in to.inbox && to.inbox[id].turnId.Some? ==> to.inbox[id].turnId.value in to.turns
    ensures forall key :: key in to.inputs ==> key.0 in to.turns
  {
    hide InputsAgree, OnlyRejectsBeyond;
  }

  // ------------------------------------------------- rows, message by message

  /** Rows do not look at the phase, the session, the permits or the settle bookkeeping. */
  lemma SameRows(a: Actor, b: Actor)
    requires Rows(a)
    requires b.db == a.db && b.queue == a.queue && b.turn == a.turn && b.closed == a.closed && b.lost == a.lost
    requires Posted(b.mailbox) == Posted(a.mailbox)
    ensures Rows(b)
  {
    assert Census(b) == Census(a);
    MailboxAgreesById(a.mailbox, b.mailbox, a.db);
  }

  lemma MailboxAgreesById(from: seq<Message>, to: seq<Message>, db: Db)
    requires MailboxAgrees(from, db) && Posted(to) == Posted(from)
    ensures MailboxAgrees(to, db)
  {
    forall i | 0 <= i < |to| && to[i].Inbound? ensures Waiting(db, to[i].event.id) {
      PostedHolds(to, i);
      PostedComesFrom(from, to[i].event.id);
    }
  }

  lemma {:induction false} PostedComesFrom(mailbox: seq<Message>, id: string)
    requires id in Posted(mailbox)
    ensures exists i :: 0 <= i < |mailbox| && mailbox[i].Inbound? && mailbox[i].event.id == id
  {
    if mailbox[0].Inbound? && mailbox[0].event.id == id {
      assert mailbox[0].Inbound?;
    } else {
      PostedComesFrom(mailbox[1..], id);
      var i :| 0 <= i < |mailbox[1..]| && mailbox[1..][i].Inbound? && mailbox[1..][i].event.id == id;
      assert mailbox[i + 1] == mailbox[1..][i];
    }
  }

  lemma DispatchRows(a: Actor, env: Env)
    requires a.turn.None? && Fresh(a.db, env.turnId) && Rows(a)
    ensures Rows(DispatchQueued(a, env).a)
  {
    if a.queue != [] {
      var b := a.(queue := a.queue[1..]);
      TakenFromQueue(a, b);
      StartTurnRows(b, a.queue[0], env);
    }
  }

  lemma TakenFromQueue(a: Actor, b: Actor)
    requires Rows(a) && a.queue != [] && b == a.(queue := a.queue[1..])
    ensures Conserved(b, multiset{a.queue[0].id}) && Agreement(b) && UniqueOrdinals(b.db)
  {
    HeadConserves(a, b);
    TailAgrees(a.queue, a.db);
  }

  lemma HeadConserves(a: Actor, b: Actor)
    requires Conserved(a, multiset{}) && a.queue != [] && b == a.(queue := a.queue[1..])
    ensures Conserved(b, multiset{a.queue[0].id})
  {
    assert Ids(a.queue) == [a.queue[0].id] + Ids(b.queue);
    assert Census(a) == Census(b) + multiset{a.queue[0].id};
  }

  lemma TailAgrees(queue: seq<Event>, db: Db)
    requires QueueAgrees(queue, db) && queue != []
    ensures QueueAgrees(queue[1..], db)
  {
    assert forall i :: 0 <= i < |queue[1..]| ==> queue[1..][i] == queue[i + 1];
  }

  lemma SettleRows(a: Actor, reason: string, env: Env)
    requires Rows(a) && Fresh(a.db, env.turnId)
    ensures Rows(Settle(a, reason, env).a)
  {
    if a.turn.None? {
      SameRows(a, Settle(a, reason, env).a);
    } else {
      CloseTurnConserves(a, reason, env);
      CloseTurnAgrees(a, reason, env);
      DispatchRows(CloseTurn(a, reason, env), env);
    }
  }

  lemma AbortedRows(a: Actor)
    requires Rows(a)
    ensures Rows(EmitSettled(a)) && Rows(EmitSettled(a).(staleSettles := a.staleSettles + 1))
  {
    MailboxAppend(a.mailbox, Pi(AgentSettled));
    SameRows(a, EmitSettled(a));
    SameRows(a, EmitSettled(a).(staleSettles := a.staleSettles + 1));
  }

  lemma CancelRows(a: Actor, reason: string, env: Env)
    requires Rows(a) && Fresh(a.db, env.turnId)
    ensures Rows(OnCancel(a, reason, env).a)
  {
    hide Rows;
    if a.turn.Some? && a.session.Some? {
      AbortedRows(a);
      SettleRows(EmitSettled(a).(staleSettles := a.staleSettles + 1), reason, env);
    }
  }

  lemma PiRows(a: Actor, p: PiEvent, env: Env)
    requires Rows(a) && Fresh(a.db, env.turnId)
    ensures Rows(OnPiEvent(a, p, env).a)
  {
    hide Rows, Settle;
    match p
    case Streaming =>
    case MessageEnd(_) =>
    case AgentEnd(willRetry) =>
      if a.turn.Some? && !willRetry { AgentEndRows(a, OnPiEvent(a, p, env).a, env); }
    case AgentSettled =>
      var b := if a.inFlight == [] then a else a.(inFlight := a.inFlight[1..]);
      SameRows(a, b);
      if a.staleSettles > 0 {
        SameRows(b, b.(staleSettles := a.staleSettles - 1));
      } else {
        SettleRows(b, "end_turn", env);
      }
  }

  lemma AgentEndRows(a: Actor, b: Actor, env: Env)
    requires Rows(a) && a.turn.Some?
    requires b == a.(phase := Phase.Settling,
      db := SetTurnState(a.db, a.turn.value.turnId, TurnState.Settling, None, env.now))
    ensures Rows(b)
  {
    assert Census(b) == Census(a);
    forall i | 0 <= i < |a.closed| ensures InputsAgree(a.closed[i], b.db, false) {
      assert InputsAgree(a.closed[i], a.db, false);
    }
  }

  lemma InboundRows(a: Actor, e: Event, env: Env)
    requires Fresh(a.db, env.turnId) && (a.phase == Idle ==> a.turn.None?)
    requires Conserved(a, multiset{e.id}) && Agreement(a) && UniqueOrdinals(a.db) && Waiting(a.db, e.id)
    ensures Rows(OnInbound(a, e, env).a)
  {
    if a.turn.Some? && a.phase in {Phase.Running, Phase.Settling} && a.turn.value.threadRootId == e.threadRoot {
      SteerKeeps(a, e, env);
      SteerOrdinals(a, e, env);
    } else if a.phase == Idle {
      StartTurnRows(a, e, env);
    } else {
      EnqueueKeeps(a, e);
    }
  }

  lemma SteerOrdinals(a: Actor, e: Event, env: Env)
    requires UniqueOrdinals(a.db) && a.turn.Some?
    ensures UniqueOrdinals(SteerTurn(a, e, env).a.db)
  {
    var c := a.turn.value;
    if !OrdinalTaken(a.db, c.turnId, e.id, |c.inputs|) {
      hide UniqueOrdinals, OrdinalTaken;
      var offered := OfferSteer(a.db, c, e);
      OfferedOrdinals(a.db, offered, c, e);
      hide OfferSteer, AcceptSteer, SetDispositionAndTurn;
      AnswerKeepsOrdinals(offered, c, e, env.now);
    }
  }

  /** Pi's answer to a steer leaves the ordinals alone. */
  lemma AnswerKeepsOrdinals(offered: Db, c: TurnContext, e: Event, now: int)
    requires UniqueOrdinals(offered)
    ensures UniqueOrdinals(AcceptSteer(offered, c, e, now))
    ensures UniqueOrdinals(SetDispositionAndTurn(offered, e.id, Queued, None))
  {
    hide UniqueOrdinals;
    SameOrdinals(offered, AcceptSteer(offered, c, e, now));
    SameOrdinals(offered, SetDispositionAndTurn(offered, e.id, Queued, None));
  }

  lemma SameOrdinals(from: Db, to: Db)
    requires UniqueOrdinals(from) && to.inputs.Keys == from.inputs.Keys
    requires forall k :: k in from.inputs ==> to.inputs[k].ordinal == from.inputs[k].ordinal
    ensures UniqueOrdinals(to)
  {
  }

  lemma OfferedOrdinals(from: Db, to: Db, c: TurnContext, e: Event)
    requires UniqueOrdinals(from) && !OrdinalTaken(from, c.turnId, e.id, |c.inputs|)
    requires to == OfferSteer(from, c, e)
    ensures UniqueOrdinals(to)
  {
    if (c.turnId, e.id) !in from.inputs {
      forall k | k in from.inputs && k.0 == c.turnId ensures from.inputs[k].ordinal != |c.inputs| {}
    }
  }

  // --------------------------------------------- lifecycle, message by message

  lemma DispatchLifecycle(a: Actor, env: Env)
    requires Between(a) && a.phase == Idle && Fresh(a.db, env.turnId)
    ensures Lifecycle(DispatchQueued(a, env).a)
    ensures Heard(DispatchQueued(a, env).a) ==> Settles(DispatchQueued(a, env).a.mailbox) == DispatchQueued(a, env).a.staleSettles
  {
    if a.queue != [] { StartTurnTracks(a.(queue := a.queue[1..]), a.queue[0], env); }
  }

  /** A turn closes when every settle still unprocessed is already discounted. */
  lemma SettleLifecycle(a: Actor, reason: string, env: Env)
    requires a.turn.Some? && a.permits == 1 && a.phase != Closed && Fresh(a.db, env.turnId)
    requires a.session.Some? <==> a.subscribed
    requires |a.inFlight| == a.staleSettles == Settles(a.mailbox)
    ensures Lifecycle(Settle(a, reason, env).a)
    ensures Heard(Settle(a, reason, env).a) ==> Settles(Settle(a, reason, env).a.mailbox) == Settle(a, reason, env).a.staleSettles
  {
    DispatchLifecycle(CloseTurn(a, reason, env), env);
  }

  lemma CancelLifecycle(a: Actor, reason: string, env: Env)
    requires Lifecycle(a) && Fresh(a.db, env.turnId)
    ensures Lifecycle(OnCancel(a, reason, env).a)
    ensures Heard(OnCancel(a, reason, env).a) ==> Settles(OnCancel(a, reason, env).a.mailbox) == OnCancel(a, reason, env).a.staleSettles
  {
    hide Settle, Settles;
    if a.turn.Some? && a.session.Some? {
      var b := EmitSettled(a);
      MailboxAppend(a.mailbox, Pi(AgentSettled));
      SettleLifecycle(b.(staleSettles := b.staleSettles + 1), reason, env);
    }
  }

  lemma InboundLifecycle(a: Actor, e: Event, env: Env)
    requires Lifecycle(a) && Fresh(a.db, env.turnId)
    ensures Lifecycle(OnInbound(a, e, env).a)
  {
    if a.phase == Idle {
      StartTurnTracks(a, e, env);
      hide SteerTurn, StartTurn;
    } else {
      hide StartTurn, SteerTurn;
      if a.turn.Some? { SteerLifecycle(a, e, env); }
    }
  }

  lemma SteerLifecycle(a: Actor, e: Event, env: Env)
    requires Lifecycle(a) && a.turn.Some?
    ensures Lifecycle(SteerTurn(a, e, env).a)
  {
    hide Settles, OfferSteer, AcceptSteer, OrdinalTaken;
  }

  lemma PiLifecycle(s: Actor, p: PiEvent, env: Env)
    requires Lifecycle(s) && s.mailbox != [] && s.mailbox[0] == Pi(p) && Fresh(s.db, env.turnId)
    ensures Lifecycle(OnPiEvent(s.(mailbox := s.mailbox[1..]), p, env).a)
  {
    var a := s.(mailbox := s.mailbox[1..]);
    if p == AgentSettled && a.staleSettles == 0 {
      SettleLifecycle(a.(inFlight := a.inFlight[1..]), "end_turn", env);
    }
  }

  lemma RotateLifecycle(a: Actor, env: Env)
    requires Lifecycle(a) && Fresh(a.db, env.turnId)
    ensures Lifecycle(OnRotate(a, env).a)
  {
    CancelLifecycle(a, "rotated", env);
    hide OnCancel;
  }

  /** A handled close leaves no settle to be heard that is not already discounted. */
  lemma CloseLifecycle(a: Actor, env: Env)
    requires Lifecycle(a) && Fresh(a.db, env.turnId) && !a.shut
    ensures var b := OnClose(a, env).a; if b.shut then AfterClose(b) else Lifecycle(b)
  {
    CancelLifecycle(a, "shutdown", env);
    NeverShut(a, "shutdown", env);
    hide OnCancel;
  }

  lemma NeverShut(a: Actor, reason: string, env: Env)
    requires Fresh(a.db, env.turnId)
    ensures OnCancel(a, reason, env).a.shut == a.shut
  {
  }

  // ------------------------------------------------------ after a handled close

  /** Starting a turn once a close was handled uses up the settle that is discounted ahead. */
  lemma StartAfterClose(a: Actor, e: Event, env: Env)
    requires a.turn.None? && a.permits == 0 && Fresh(a.db, env.turnId)
    requires Settles(a.mailbox) <= |a.inFlight| < a.staleSettles
    ensures AfterClose(StartTurn(a, e, env).a)
  {
    hide Settles, OpenTurn;
  }

  lemma DispatchAfterClose(a: Actor, env: Env)
    requires a.phase == Idle && a.turn.None? && a.permits == 0 && Fresh(a.db, env.turnId)
    requires Settles(a.mailbox) <= |a.inFlight| < a.staleSettles
    ensures AfterClose(DispatchQueued(a, env).a)
  {
    if a.queue != [] { StartAfterClose(a.(queue := a.queue[1..]), a.queue[0], env); }
  }

  lemma EmittedStaysOwed(a: Actor)
    requires Settles(a.mailbox) <= |a.inFlight|
    ensures var b := EmitSettled(a); b == a.(mailbox := b.mailbox) && Settles(b.mailbox) <= |a.inFlight|
  {
    MailboxAppend(a.mailbox, Pi(AgentSettled));
  }

  lemma SettleAfterClose(a: Actor, reason: string, env: Env)
    requires a.turn.Some? && a.permits == 1 && Fresh(a.db, env.turnId)
    requires Settles(a.mailbox) <= |a.inFlight| < a.staleSettles
    ensures AfterClose(Settle(a, reason, env).a)
  {
    ClosingLeaves(a, reason, env);
    hide Settles, DispatchQueued, CloseTurn, Fresh;
    DispatchAfterClose(CloseTurn(a, reason, env), env);
  }

  /** What closing a turn leaves for the dispatch. */
  lemma ClosingLeaves(a: Actor, reason: string, env: Env)
    requires a.turn.Some? && Fresh(a.db, env.turnId)
    ensures var c := CloseTurn(a, reason, env);
      && c.turn.None? && c.phase == Idle && c.permits == (if a.permits > 0 then a.permits - 1 else 0)
      && c.queue == a.queue && c.mailbox == a.mailbox && c.session == a.session && c.subscribed == a.subscribed
      && c.inFlight == a.inFlight && c.staleSettles == a.staleSettles && Fresh(c.db, env.turnId)
  {
  }

  lemma CancelAfterClose(a: Actor, reason: string, env: Env)
    requires AfterClose(a) && Fresh(a.db, env.turnId)
    ensures AfterClose(OnCancel(a, reason, env).a)
  {
    CancelIs(a, reason, env);
    if a.turn.Some? && a.session.Some? {
      EmittedStaysOwed(a);
      assert a.permits == 1 && |a.inFlight| <= a.staleSettles;
      hide *;
      SettleAfterClose(EmitSettled(a).(staleSettles := a.staleSettles + 1), reason, env);
    }
  }

  lemma CancelIs(a: Actor, reason: string, env: Env)
    requires Fresh(a.db, env.turnId)
    ensures EmitSettled(a).db == a.db
    ensures OnCancel(a, reason, env) ==
      if a.turn.None? || a.session.None? then Done(a)
      else Settle(EmitSettled(a).(staleSettles := a.staleSettles + 1), reason, env)
  {
    assert EmitSettled(a).staleSettles == a.staleSettles && EmitSettled(a).db == a.db;
    hide EmitSettled, Settle, Fresh;
  }

  lemma InboundAfterClose(a: Actor, e: Event, env: Env)
    requires AfterClose(a) && Fresh(a.db, env.turnId)
    ensures AfterClose(OnInbound(a, e, env).a)
  {
    hide Settles, StartTurn, OfferSteer, AcceptSteer, WithSteeringInput;
    if a.phase == Idle { StartAfterClose(a, e, env); }
  }

  /** A settle that is handled after a close is one that was discounted. */
  lemma PiAfterClose(s: Actor, p: PiEvent, env: Env)
    requires AfterClose(s) && Fresh(s.db, env.turnId) && s.mailbox != [] && s.mailbox[0] == Pi(p)
    ensures AfterClose(OnPiEvent(s.(mailbox := s.mailbox[1..]), p, env).a)
    ensures p == AgentSettled ==> s.staleSettles > 0
  {
    hide Settle, SetTurnState;
    assert Settles(s.mailbox) == (if p == AgentSettled then 1 else 0) + Settles(s.mailbox[1..]);
  }

  lemma UnsubscribedAfterClose(a: Actor, b: Actor)
    requires AfterClose(a)
    requires b == Unsubscribe(a).(session := b.session, phase := b.phase, shut := b.shut)
    requires b.phase in {a.phase, Closed}
    ensures AfterClose(b)
  {
  }

  /** Every message keeps what holds after a handled close. */
  lemma PumpAfterClose(s: Actor, env: Env)
    requires AfterClose(s) && Fresh(s.db, env.turnId)
    ensures AfterClose(Pump(s, env))
  {
    if s.mailbox != [] {
      var m, a := s.mailbox[0], s.(mailbox := s.mailbox[1..]);
      assert Settles(s.mailbox) == (if m == Pi(AgentSettled) then 1 else 0) + Settles(a.mailbox);
      hide Settles, OnCancel, OnInbound, OnPiEvent, Unsubscribe;
      match m
      case Inbound(e) => InboundAfterClose(a, e, env);
      case Pi(p) => PiAfterClose(s, p, env);
      case Cancel(reason) => CancelAfterClose(a, reason, env);
      case Rotate =>
        CancelAfterClose(a, "rotated", env);
        var r := OnCancel(a, "rotated", env);
        if r.Done? { UnsubscribedAfterClose(r.a, OnRotate(a, env).a); }
      case Close =>
        CancelAfterClose(a, "shutdown", env);
        var r := if a.turn.Some? then OnCancel(a, "shutdown", env) else Done(a);
        if r.Done? { UnsubscribedAfterClose(r.a, OnClose(a, env).a); }
    }
  }

  // -------------------------------------------------------------------- runs

  lemma PumpTracked(s: Actor, env: Env)
    requires Tracked(s) && Fresh(s.db, env.turnId)
    ensures Tracked(Pump(s, env))
  {
    PumpShut(s, env);
    if s.shut {
      PumpAfterClose(s, env);
    } else if s.mailbox != [] {
      hide OnInbound, OnPiEvent, OnCancel, OnRotate, OnClose, AfterClose;
      var m, a := s.mailbox[0], s.(mailbox := s.mailbox[1..]);
      match m
      case Inbound(e) => InboundLifecycle(a, e, env);
      case Pi(p) => PiLifecycle(s, p, env);
      case Cancel(reason) => CancelLifecycle(a, reason, env);
      case Rotate => RotateLifecycle(a, env);
      case Close => CloseLifecycle(a, env);
    }
  }

  /** Only a close that is handled to its end shuts the actor, and for good. */
  lemma PumpShut(s: Actor, env: Env)
    requires Fresh(s.db, env.turnId)
    ensures Pump(s, env).shut <==>
      s.shut || (s.mailbox != [] && s.mailbox[0] == Close && OnClose(s.(mailbox := s.mailbox[1..]), env).Done?)
  {
    if s.mailbox != [] {
      var a := s.(mailbox := s.mailbox[1..]);
      hide OnCancel, OnInbound, OnPiEvent, Unsubscribe;
      match s.mailbox[0]
      case Inbound(e) => InboundShut(a, e, env);
      case Pi(p) => PiShut(a, p, env);
      case Cancel(reason) => NeverShut(a, reason, env);
      case Rotate =>
        NeverShut(a, "rotated", env);
        UnsubscribeShut(OnCancel(a, "rotated", env).a);
      case Close =>
        NeverShut(a, "shutdown", env);
        UnsubscribeShut(a);
    }
  }

  lemma UnsubscribeShut(a: Actor)
    ensures Unsubscribe(a).shut == a.shut
  {
  }

  lemma InboundShut(a: Actor, e: Event, env: Env)
    requires Fresh(a.db, env.turnId)
    ensures OnInbound(a, e, env).a.shut == a.shut
  {
    hide OfferSteer, AcceptSteer, WithSteeringInput, OpenTurn, OrdinalTaken;
  }

  lemma PiShut(a: Actor, p: PiEvent, env: Env)
    requires Fresh(a.db, env.turnId)
    ensures OnPiEvent(a, p, env).a.shut == a.shut
  {
    hide OpenTurn, CompleteTurnInputs, SetTurnState;
  }

  lemma PumpRows(s: Actor, env: Env)
    requires Rows(s) && (s.phase == Idle ==> s.turn.None?) && Fresh(s.db, env.turnId)
    ensures Rows(Pump(s, env))
  {
    hide Rows, OnInbound, OnPiEvent, OnCancel, OnRotate, OnClose;
    if s.mailbox != [] {
      var m, a := s.mailbox[0], s.(mailbox := s.mailbox[1..]);
      match m
      case Inbound(e) =>
        HeadTaken(s, e);
        InboundRows(a, e, env);
      case Pi(p) =>
        SameRows(s, a);
        PiRows(a, p, env);
      case Cancel(reason) =>
        SameRows(s, a);
        CancelRows(a, reason, env);
      case Rotate =>
        SameRows(s, a);
        RotateRows(a, env);
      case Close =>
        SameRows(s, a);
        CloseRowsKept(a, env);
    }
  }

  lemma RotateRows(a: Actor, env: Env)
    requires Rows(a) && Fresh(a.db, env.turnId)
    ensures Rows(OnRotate(a, env).a)
  {
    hide Rows, OnCancel;
    CancelRows(a, "rotated", env);
    var r := OnCancel(a, "rotated", env);
    if r.Done? { SameRows(r.a, OnRotate(a, env).a); }
  }

  lemma CloseRowsKept(a: Actor, env: Env)
    requires Rows(a) && Fresh(a.db, env.turnId)
    ensures Rows(OnClose(a, env).a)
  {
    hide Rows, OnCancel;
    CancelRows(a, "shutdown", env);
    var r := if a.turn.Some? then OnCancel(a, "shutdown", env) else Done(a);
    if r.Done? { SameRows(r.a, OnClose(a, env).a); }
  }

  lemma PumpValid(s: Actor, env: Env)
    requires Valid(s) && Fresh(s.db, env.turnId)
    ensures Valid(Pump(s, env))
  {
    assert s.phase == Idle ==> s.turn.None?;
    hide Rows, Pump, AfterClose, Lifecycle;
    PumpRows(s, env);
    PumpTracked(s, env);
  }

  lemma HeadTaken(s: Actor, e: Event)
    requires Rows(s) && s.mailbox != [] && s.mailbox[0] == Inbound(e)
    ensures var a := s.(mailbox := s.mailbox[1..]);
      Conserved(a, multiset{e.id}) && Agreement(a) && UniqueOrdinals(a.db) && Waiting(a.db, e.id)
  {
    var a := s.(mailbox := s.mailbox[1..]);
    assert Census(s) == Census(a) + multiset{e.id};
    assert MailboxAgrees(a.mailbox, a.db) by {
      assert forall i :: 0 <= i < |a.mailbox| ==> a.mailbox[i] == s.mailbox[i + 1];
    }
  }

  /** One event of a run: the gate admits a message, a control or a Pi event is posted, Pi
      emits a settle, or the pump handles the oldest message. */
  datatype Step = Offer(event: Event, receivedAt: int) | Notify(message: Message) | Emit | Turn(env: Env)

  ghost predicate Possible(a: Actor, step: Step) {
    match step
    case Offer(_, _) => true
    case Notify(m) => !m.Inbound? && m != Pi(AgentSettled)
    case Emit => true
    case Turn(env) => Fresh(a.db, env.turnId)
  }

  ghost function Next(a: Actor, step: Step): Actor
    requires Possible(a, step)
  {
    match step
    case Offer(e, at) => Submit(a, e, at)
    case Notify(m) => Post(a, m)
    case Emit => EmitSettled(a)
    case Turn(env) => Pump(a, env)
  }

  /** Each state of `trace` follows from the one before it. */
  ghost predicate Follows(trace: seq<Actor>, steps: seq<Step>) {
    && |trace| == |steps| + 1
    && (forall i :: 0 <= i < |steps| ==> Possible(trace[i], steps[i]) && trace[i + 1] == Next(trace[i], steps[i]))
  }

  lemma OfferValid(a: Actor, e: Event, receivedAt: int)
    requires Valid(a)
    ensures Valid(Submit(a, e, receivedAt))
  {
    hide Rows;
    if e.id !in a.db.inbox {
      OfferRowsKept(a, e, receivedAt);
      MailboxAppend(a.mailbox, Inbound(e));
    }
  }

  lemma OfferRowsKept(a: Actor, e: Event, receivedAt: int)
    requires Rows(a) && e.id !in a.db.inbox
    ensures Rows(Submit(a, e, receivedAt))
  {
    OfferConserves(a, e, receivedAt);
    OfferAgrees(a, e, receivedAt);
  }

  lemma OfferConserves(a: Actor, e: Event, receivedAt: int)
    requires Conserved(a, multiset{}) && e.id !in a.db.inbox
    ensures Conserved(Submit(a, e, receivedAt), multiset{})
  {
    var b := Submit(a, e, receivedAt);
    MailboxAppend(a.mailbox, Inbound(e));
    assert b.db.inbox.Keys == a.db.inbox.Keys + {e.id};
    AdmittedConserves(a, b, e.id);
  }

  lemma AdmittedConserves(a: Actor, b: Actor, id: string)
    requires Conserved(a, multiset{}) && id !in a.db.inbox
    requires b.db.inbox.Keys == a.db.inbox.Keys + {id}
    requires b.queue == a.queue && b.turn == a.turn && b.closed == a.closed
    requires (Posted(b.mailbox) == Posted(a.mailbox) + [id] && b.lost == a.lost)
          || (b.mailbox == a.mailbox && b.lost == a.lost + [id])
    ensures Conserved(b, multiset{})
  {
    assert ActiveIds(b) == ActiveIds(a);
    assert multiset(b.db.inbox.Keys) == multiset(a.db.inbox.Keys) + multiset{id};
    hide Posted, ClosedIds, ActiveIds, Ids;
    var p, q, r, c, l := multiset(Posted(a.mailbox)), multiset(Ids(a.queue)), multiset(ActiveIds(a)),
      multiset(ClosedIds(a.closed)), multiset(a.lost);
    AddedInSecond(p, q, r, c, l, id);
    if b.mailbox == a.mailbox {
      assert multiset(b.lost) == l + multiset{id};
    } else {
      assert multiset(Posted(b.mailbox)) == p + multiset{id} || b.lost == a.lost + [id];
    }
  }

  lemma OfferAgrees(a: Actor, e: Event, receivedAt: int)
    requires Agreement(a) && e.id !in a.db.inbox
    ensures Agreement(Submit(a, e, receivedAt))
  {
    var b := Submit(a, e, receivedAt);
    AdmittedAgrees(a, b.db, e.id);
    forall i | 0 <= i < |b.mailbox| && b.mailbox[i].Inbound? ensures Waiting(b.db, b.mailbox[i].event.id) {
      assert i < |a.mailbox| ==> b.mailbox[i] == a.mailbox[i];
    }
  }

  lemma AdmittedAgrees(a: Actor, to: Db, id: string)
    requires Agreement(a) && id !in a.db.inbox
    requires to.inbox.Keys == a.db.inbox.Keys + {id} && SameInboxBut(a.db, to, id)
    requires to == a.db.(inbox := to.inbox) && Waiting(to, id)
    ensures Agreement(a.(db := to))
  {
    forall i | 0 <= i < |a.closed| ensures InputsAgree(a.closed[i], to, false) {
      assert InputsAgree(a.closed[i], a.db, false);
    }
  }

  lemma StepValid(a: Actor, step: Step)
    requires Valid(a) && Possible(a, step)
    ensures Valid(Next(a, step))
  {
    hide Rows;
    match step
    case Offer(e, at) => OfferValid(a, e, at);
    case Notify(m) =>
      MailboxAppend(a.mailbox, m);
      SameRows(a, Post(a, m));
    case Emit =>
      MailboxAppend(a.mailbox, Pi(AgentSettled));
      SameRows(a, EmitSettled(a));
    case Turn(env) => PumpValid(a, env);
  }

  /** Every run, whatever throws in it: each admitted event is held in exactly one place or
      is lost, and its durable row says which place. */
  lemma {:induction false} RunsAreValid(trace: seq<Actor>, steps: seq<Step>)
    requires Follows(trace, steps) && Valid(trace[0])
    ensures forall i :: 0 <= i < |trace| ==> Valid(trace[i])
  {
    hide Valid, Next, Possible;
    if steps != [] {
      var n := |steps| - 1;
      RunsAreValid(trace[..n + 1], steps[..n]);
      assert trace[n] == trace[..n + 1][n];
      StepValid(trace[n], steps[n]);
      assert forall i :: 0 <= i < n + 1 ==> trace[i] == trace[..n + 1][i];
    }
  }

  lemma NewActorIsValid(channelId: string)
    ensures Valid(NewActor(channelId))
  {
    assert Census(NewActor(channelId)) == multiset{};
  }
}
