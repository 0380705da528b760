/** Recording, signing, publishing and crashing, as steps over the durable outbox. */
module OutboxModel {
  import opened Basics
  import opened Tables
  import MessageSplit
  import opened Ordering
  import LogicalIds

  // ------------------------------------------------------------------ queries

  predicate Owed(state: OutboxState) { state == OutPending || state == OutFailed }

  /** Unacknowledged rows; a clock value leaves out those still backing off. */
  function Candidates(db: Db, now: Option<int>): set<string> {
    set l | l in db.outbox && Owed(db.outbox[l].state)
      && (now.None? || db.outbox[l].nextRetryAt.None? || db.outbox[l].nextRetryAt.value <= now.value)
  }

  function GroupOf(db: Db, l: string): string { if l in db.intents then db.intents[l].turnId else l }

  /** The oldest candidate of `l`'s group, scanning `rows`. */
  function GroupAt(db: Db, rows: seq<string>, l: string, at: int): int
    requires forall k :: k in rows ==> k in db.outbox
  {
    if rows == [] then at else
    var k := rows[0];
    GroupAt(db, rows[1..], l,
      if GroupOf(db, k) == GroupOf(db, l) && db.outbox[k].createdAt < at then db.outbox[k].createdAt else at)
  }

  /** Turns oldest first, a turn's rows by ordinal; a row without an intent sorts as null. */
  function DueKey(db: Db, rows: seq<string>, l: string): SortKey
    requires forall k :: k in rows ==> k in db.outbox
  {
    if l !in db.outbox then SortKey(0, "", 0, 0, l) else
    SortKey(GroupAt(db, rows, l, db.outbox[l].createdAt), GroupOf(db, l),
      if l in db.intents then db.intents[l].ordinal else -1, db.outbox[l].createdAt, l)
  }

  /** The due query; no clock value lists everything the relay is owed. */
  function DuePublishes(db: Db, now: Option<int>): seq<string> {
    var rows := KeysInOrder(Candidates(db, now));
    SortBy(By(l => DueKey(db, rows, l)), rows)
  }

  /** Pending intents that never reached the signer. */
  function UnsignedIntents(db: Db): seq<string> {
    var rows := KeysInOrder(set l | l in db.intents && db.intents[l].state == Pending && l !in db.outbox);
    SortBy(By(l => if l in db.intents then SortKey(0, db.intents[l].turnId, db.intents[l].ordinal, 0, l)
                   else SortKey(0, "", 0, 0, l)), rows)
  }

  lemma DueIsEveryCandidateOnce(db: Db, now: Option<int>)
    ensures forall l :: l in DuePublishes(db, now) <==> l in Candidates(db, now)
    ensures |DuePublishes(db, now)| == |Candidates(db, now)|
    ensures multiset(DuePublishes(db, now)) == multiset(KeysInOrder(Candidates(db, now)))
  {
    var rows := KeysInOrder(Candidates(db, now));
    SortByPermutes(By(l => DueKey(db, rows, l)), rows);
  }

  // -------------------------------------------------------------------- steps

  datatype Answer = Accepted | Rejected(message: string, terminal: bool)

  /** A row as the drain read it. */
  datatype Record = Record(logicalId: string, event: SignedEvent, attempts: nat)

  /** What an observer of the store and of the relay sees, in order. */
  datatype Act = Stored(logicalId: string, event: SignedEvent)
               | Sent(logicalId: string, event: SignedEvent)
               | Acked(logicalId: string)

  /** `rest` and `waiting` are the running drain, `ordinals` the router's counters: memory
      that a crash wipes. `log` is a history. */
  datatype System = System(
    db: Db, ordinals: map<string, nat>,
    rest: seq<Record>, waiting: Option<Record>, log: seq<Act>)

  /** How far recording one chunk gets before the process dies, if it does. */
  datatype Cut = Whole | AfterIntent | AfterSigned

  datatype Limits = Limits(maxAttempts: nat, baseRetryMs: nat, maxRetryMs: nat)

  const DEFAULT_LIMITS := Limits(6, 1_000, 300_000)

  function Pow2(n: nat): nat { if n == 0 then 1 else 2 * Pow2(n - 1) }

  function RetryDelay(limits: Limits, attempts: nat): nat
    requires attempts > 0
  {
    var growth := limits.baseRetryMs * Pow2(attempts - 1);
    if growth < limits.maxRetryMs then growth else limits.maxRetryMs
  }

  datatype Step =
    | RecordChunk(logicalId: string, turnId: string, content: MessageSplit.Text, event: SignedEvent, now: int, cut: Cut)
    | SignIntent(logicalId: string, event: SignedEvent, now: int)
    | PutMetric(logicalId: string, event: SignedEvent, now: int)
    | StartDrain(order: seq<string>, now: int)
    | TakeNext(skip: bool)
    | Answered(answer: Answer, now: int)
    | Crash
    | Recover(budget: nat)

  function Crashed(s: System): System {
    s.(ordinals := map[], rest := [], waiting := None)
  }

  function Fresh(event: SignedEvent, now: int): OutboxRow {
    OutboxRow(event, OutPending, 0, Some(now), None, now)
  }

  function NextOrdinal(ordinals: map<string, nat>, turnId: string): nat {
    if turnId in ordinals then ordinals[turnId] else 0
  }

  /** Stores the event under a logical id, first writer wins. */
  function Sign(s: System, l: string, event: SignedEvent, now: int): System {
    s.(db := PutSigned(s.db, l, Fresh(event, now)),
       log := if l in s.db.outbox then s.log else s.log + [Stored(l, event)])
  }

  /** One chunk of one message: intent, signature, state, each durable on its own. */
  function Recorded(
    s: System, l: string, turnId: string, content: MessageSplit.Text, event: SignedEvent, now: int, cut: Cut): System
  {
    var n := NextOrdinal(s.ordinals, turnId);
    var counted := s.(ordinals := s.ordinals[turnId := n + 1]);
    if l in s.db.intents then counted else
    var intended := counted.(db := PutIntent(s.db, l, IntentRow(turnId, n, content, Pending, now)));
    if cut == AfterIntent then Crashed(intended) else
    var signed := Sign(intended, l, event, now);
    if cut == AfterSigned then Crashed(signed) else
    signed.(db := SetIntentState(signed.db, l, Signed))
  }

  function Snapshot(db: Db, order: seq<string>): seq<Record>
    requires forall l :: l in order ==> l in db.outbox
  {
    seq(|order|, i requires 0 <= i < |order| =>
      Record(order[i], db.outbox[order[i]].event, db.outbox[order[i]].attempts))
  }

  /** The relay's answer is written down. */
  function Marked(db: Db, limits: Limits, r: Record, answer: Answer, now: int): Db {
    match answer
    case Accepted => MarkPublished(db, r.logicalId)
    case Rejected(message, terminal) =>
      if terminal || r.attempts + 1 >= limits.maxAttempts then MarkDeadLetter(db, r.logicalId, message)
      else MarkFailed(db, r.logicalId, message, Some(now + RetryDelay(limits, r.attempts + 1)))
  }

  function SpentReason(attempts: nat): string {
    "publish retry budget exhausted after " + LogicalIds.Decimal(attempts) + " attempts"
  }

  /** Dead-letters the rows of `ids` whose attempts reached the budget. */
  function GiveUp(db: Db, ids: seq<string>, budget: nat): Db {
    if ids == [] then db else
    var rest := GiveUp(db, ids[..|ids| - 1], budget);
    var l := ids[|ids| - 1];
    if l in db.outbox && db.outbox[l].attempts >= budget then MarkDeadLetter(rest, l, SpentReason(db.outbox[l].attempts))
    else rest
  }

  ghost predicate Possible(s: System, step: Step) {
    match step
    case RecordChunk(l, _, _, _, _, _) => l !in s.db.outbox || l in s.db.intents
    case SignIntent(l, _, _) => l in UnsignedIntents(s.db)
    case PutMetric(l, _, _) => l !in s.db.intents
    case StartDrain(order, now) =>
      s.rest == [] && s.waiting.None? && multiset(order) == multiset(DuePublishes(s.db, Some(now)))
    case TakeNext(_) => s.waiting.None? && s.rest != []
    case Answered(_, _) => s.waiting.Some?
    case Crash => true
    case Recover(_) => s.rest == [] && s.waiting.None?
  }

  ghost function Next(s: System, limits: Limits, step: Step): System
    requires Possible(s, step)
  {
    match step
    case RecordChunk(l, turnId, content, event, now, cut) => Recorded(s, l, turnId, content, event, now, cut)
    case SignIntent(l, event, now) => Sign(s, l, event, now)
    case PutMetric(l, event, now) => Sign(s, l, event, now)
    case StartDrain(order, now) =>
      StartedIsKnown(s.db, order, Some(now));
      s.(rest := Snapshot(s.db, order))
    case TakeNext(skip) =>
      var taken := s.(rest := s.rest[1..]);
      if skip then taken else
      taken.(waiting := Some(s.rest[0]), log := s.log + [Sent(s.rest[0].logicalId, s.rest[0].event)])
    case Answered(answer, now) =>
      var r := s.waiting.value;
      s.(db := Marked(s.db, limits, r, answer, now), waiting := None,
         log := if answer.Accepted? then s.log + [Acked(r.logicalId)] else s.log)
    case Crash => Crashed(s)
    case Recover(budget) => s.(db := GiveUp(s.db, DuePublishes(s.db, None), budget))
  }

  lemma StartedIsKnown(db: Db, order: seq<string>, now: Option<int>)
    requires multiset(order) == multiset(DuePublishes(db, now))
    ensures forall l :: l in order <==> l in Candidates(db, now)
    ensures |order| == |Candidates(db, now)|
  {
    DueIsEveryCandidateOnce(db, now);
    assert |order| == |multiset(order)| == |DuePublishes(db, now)|;
    forall l ensures l in order <==> l in Candidates(db, now) {
      assert l in order <==> l in multiset(order);
      assert l in DuePublishes(db, now) <==> l in multiset(DuePublishes(db, now));
    }
  }
}
