/** Turns a completed assistant message into durable, signed outbox rows. */
module OutputRouters {
  import opened Basics
  import opened Tables
  import opened TurnContexts
  import opened MessageSplit
  import opened Storage
  import opened LogicalIds
  import M = OutboxModel

  /** Records `bodies[i..]`, chunk by chunk, with the builder's signature for each. */
  function RecordFrom(
    s: M.System, turnId: string, messageId: string, bodies: seq<Text>, events: seq<SignedEvent>, now: int, i: nat): M.System
    requires i <= |bodies| <= |events|
    decreases |bodies| - i
  {
    if i == |bodies| then s else
    RecordFrom(
      M.Recorded(s, LogicalId(turnId, messageId, i), turnId, bodies[i], events[i], now, M.Whole),
      turnId, messageId, bodies, events, now, i + 1)
  }

  predicate Blank(text: Text) { TrimStart(text) == [] }

  /** What a message is published as; a blank one is not published at all. */
  function PublishedBodies(text: Text, max: nat, policy: Policy): seq<Text>
    requires Blank(text) || Decidable(text, max, policy)
  {
    if Blank(text) then [] else Bodies(text, max, policy)
  }

  lemma {:induction false} KnownChunksChangeNothing(
    s: M.System, turnId: string, messageId: string, bodies: seq<Text>, events: seq<SignedEvent>, now: int, i: nat)
    requires i <= |bodies| <= |events|
    requires forall k :: i <= k < |bodies| ==> LogicalId(turnId, messageId, k) in s.db.intents
    ensures var t := RecordFrom(s, turnId, messageId, bodies, events, now, i); t.db == s.db && t.log == s.log
    decreases |bodies| - i
  {
    if i < |bodies| {
      KnownChunksChangeNothing(
        M.Recorded(s, LogicalId(turnId, messageId, i), turnId, bodies[i], events[i], now, M.Whole),
        turnId, messageId, bodies, events, now, i + 1);
    }
  }

  lemma {:induction false} RecordedChunksAreKnown(
    s: M.System, turnId: string, messageId: string, bodies: seq<Text>, events: seq<SignedEvent>, now: int, i: nat)
    requires i <= |bodies| <= |events|
    ensures var t := RecordFrom(s, turnId, messageId, bodies, events, now, i);
      && s.db.intents.Keys <= t.db.intents.Keys
      && (forall k :: i <= k < |bodies| ==> LogicalId(turnId, messageId, k) in t.db.intents)
    decreases |bodies| - i
  {
    if i < |bodies| {
      RecordedChunksAreKnown(
        M.Recorded(s, LogicalId(turnId, messageId, i), turnId, bodies[i], events[i], now, M.Whole),
        turnId, messageId, bodies, events, now, i + 1);
    }
  }

  /** Replaying a recorded message, after a crash or not, stores nothing and signs nothing,
      whatever the builder would sign this time. */
  lemma RecordingAgainChangesNothing(
    s: M.System, turnId: string, messageId: string, bodies: seq<Text>,
    events: seq<SignedEvent>, later: seq<SignedEvent>, now: int, laterAt: int)
    requires |bodies| <= |events| && |bodies| <= |later|
    ensures var once := RecordFrom(s, turnId, messageId, bodies, events, now, 0);
      var crashed := M.Crashed(once);
      && RecordFrom(once, turnId, messageId, bodies, later, laterAt, 0).db == once.db
      && RecordFrom(crashed, turnId, messageId, bodies, later, laterAt, 0).db == once.db
      && RecordFrom(crashed, turnId, messageId, bodies, later, laterAt, 0).log == once.log
  {
    var once := RecordFrom(s, turnId, messageId, bodies, events, now, 0);
    RecordedChunksAreKnown(s, turnId, messageId, bodies, events, now, 0);
    KnownChunksChangeNothing(once, turnId, messageId, bodies, later, laterAt, 0);
    KnownChunksChangeNothing(M.Crashed(once), turnId, messageId, bodies, later, laterAt, 0);
  }

  class OutputRouter {
    const db: Database
    const maxMessageBytes: nat
    const policy: Policy
    var ordinals: map<string, nat>
    ghost var log: seq<M.Act>

    ghost function Model(): M.System reads this, db {
      M.System(db.Model(), ordinals, [], None, log)
    }

    constructor (db: Database, maxMessageBytes: nat, policy: Policy)
      ensures this.db == db && this.maxMessageBytes == maxMessageBytes && this.policy == policy
      ensures ordinals == map[] && log == []
    {
      this.db, this.maxMessageBytes, this.policy := db, maxMessageBytes, policy;
      ordinals, log := map[], [];
    }

    method NextOrdinal(turnId: string) returns (n: nat)
      modifies this
      ensures n == M.NextOrdinal(old(ordinals), turnId)
      ensures ordinals == old(ordinals)[turnId := n + 1] && log == old(log)
    {
      n := if turnId in ordinals then ordinals[turnId] else 0;
      ordinals := ordinals[turnId := n + 1];
    }

    method RecordChunk(l: string, turnId: string, body: Text, event: SignedEvent, now: int) returns (added: bool)
      modifies this, db
      ensures Model() == M.Recorded(old(Model()), l, turnId, body, event, now, M.Whole)
      ensures added <==> l !in old(db.intents)
      ensures |db.intents| == |old(db.intents)| + if added then 1 else 0
    {
      var ordinal := NextOrdinal(turnId);
      added := db.PutIntent(l, IntentRow(turnId, ordinal, body, Pending, now));
      if !added { return; }
      if l !in db.outbox { log := log + [M.Stored(l, event)]; }
      db.PutSigned(l, OutboxRow(event, OutPending, 0, Some(now), None, now));
      db.SetIntentState(l, Signed);
    }

    /** `events` is what the builder would sign for each body. Answers how many are new. */
    method Record(context: TurnContext, messageId: string, text: Text, events: seq<SignedEvent>, now: int)
      returns (recorded: nat)
      requires Blank(text) || Decidable(text, maxMessageBytes, policy)
      requires |PublishedBodies(text, maxMessageBytes, policy)| <= |events|
      modifies this, db
      ensures Model() == RecordFrom(old(Model()), context.turnId, messageId,
        PublishedBodies(text, maxMessageBytes, policy), events, now, 0)
      ensures |db.intents| == |old(db.intents)| + recorded
    {
      recorded := 0;
      if Blank(text) { return; }
      var bodies := Bodies(text, maxMessageBytes, policy);
      ghost var target := RecordFrom(Model(), context.turnId, messageId, bodies, events, now, 0);
      hide M.Recorded, Bodies, LogicalId;
      for i := 0 to |bodies|
        invariant RecordFrom(Model(), context.turnId, messageId, bodies, events, now, i) == target
        invariant |db.intents| == |old(db.intents)| + recorded
      {
        var added := RecordChunk(LogicalId(context.turnId, messageId, i), context.turnId, bodies[i], events[i], now);
        if added { recorded := recorded + 1; }
      }
    }

    method FinishTurn(turnId: string)
      modifies this
      ensures ordinals == old(ordinals) - {turnId} && log == old(log)
    {
      ordinals := ordinals - {turnId};
    }
  }
}
