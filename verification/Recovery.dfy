/** What a restart reads from the store, what it decides, and what it writes back. */
module Recovery {
  import opened Basics
  import opened Tables
  import opened Ordering
  import M = OutboxModel

  const INTERRUPTED_STOP_REASON := "crash_recovery"
  const DEFAULT_MAX_PUBLISH_ATTEMPTS: nat := 8

  /** A table row with its primary key. */
  datatype Entry<T> = Entry(id: string, row: T)

  datatype RequeuedInput = RequeuedInput(
    record: Entry<InboxRow>, previousTurnId: Option<string>, role: Option<Role>, wasDelivered: bool)

  datatype Candidate = Candidate(input: RequeuedInput, groupId: string, groupAt: int, ordinal: nat)

  datatype DeadLetter = DeadLetter(logicalId: string, eventId: string, attempts: nat, reason: string)

  datatype Plan = Plan(
    resend: seq<Entry<OutboxRow>>, deferred: seq<Entry<OutboxRow>>, sign: seq<Entry<IntentRow>>,
    interrupt: seq<Entry<TurnRow>>, requeue: seq<RequeuedInput>, deadLetter: seq<DeadLetter>)

  function Rows<T>(table: map<string, T>, ids: seq<string>): seq<Entry<T>>
    requires forall id :: id in ids ==> id in table
  {
    seq(|ids|, i requires 0 <= i < |ids| => Entry(ids[i], table[ids[i]]))
  }

  // ------------------------------------------------------------------ queries

  /** Arrival order; a row without an ordinal comes after those with one. */
  function RowKey(db: Db, id: string): SortKey {
    if id !in db.inbox then SortKey(0, "", 0, 0, id) else
    var row := db.inbox[id];
    SortKey(row.receivedAt, "", if row.ordinal.None? then 1 else 0, row.ordinal.Or(0), id)
  }

  function UnsettledIn(db: Db, channelId: string): set<string> {
    set id | id in db.inbox && db.inbox[id].channelId == channelId && Unsettled(db.inbox[id].disposition)
  }

  function UnsettledForChannel(db: Db, channelId: string): seq<string> {
    SortBy(By(id => RowKey(db, id)), KeysInOrder(UnsettledIn(db, channelId)))
  }

  function UnsettledChannels(db: Db): seq<string> {
    KeysInOrder(set id | id in db.inbox && Unsettled(db.inbox[id].disposition) :: db.inbox[id].channelId)
  }

  function TurnKey(db: Db, id: string): SortKey {
    SortKey(if id in db.turns then db.turns[id].startedAt else 0, "", 0, 0, id)
  }

  function LiveTurns(db: Db): set<string> { set id | id in db.turns && Live(db.turns[id].state) }

  function Unfinished(db: Db): seq<string> {
    SortBy(By(id => TurnKey(db, id)), KeysInOrder(LiveTurns(db)))
  }

  function LatestAmong(db: Db, intents: seq<string>, turnId: string): Option<int>
    requires forall l :: l in intents ==> l in db.intents
  {
    if intents == [] then None else
    var row, rest := db.intents[intents[0]], LatestAmong(db, intents[1..], turnId);
    if row.turnId != turnId || (rest.Some? && row.createdAt <= rest.value) then rest else Some(row.createdAt)
  }

  /** MAX(created_at) over the turn's intents. */
  function LatestIntentAt(db: Db, turnId: string): Option<int> {
    LatestAmong(db, KeysInOrder(db.intents.Keys), turnId)
  }

  function InputsOf(db: Db, turnId: string): map<string, InputRow> {
    map key | key in db.inputs && key.0 == turnId :: key.1 := db.inputs[key]
  }

  // ----------------------------------------------------------------- planning

  function AnsweredAfter(db: Db, turnId: string, deliveredAt: int): bool {
    var answeredAt := LatestIntentAt(db, turnId);
    answeredAt.Some? && answeredAt.value > deliveredAt
  }

  function InputFor(db: Db, id: string, turnId: Option<string>): Option<InputRow> {
    if turnId.Some? && (turnId.value, id) in db.inputs then Some(db.inputs[(turnId.value, id)]) else None
  }

  function DeliveredAt(input: Option<InputRow>): Option<int> {
    if input.Some? then input.value.deliveredAt else None
  }

  /** The input reached the session, and its turn produced output after that. */
  function Answered(db: Db, id: string): bool
    requires id in db.inbox
  {
    var turnId := db.inbox[id].turnId;
    var at := DeliveredAt(InputFor(db, id, turnId));
    turnId.Some? && at.Some? && AnsweredAfter(db, turnId.value, at.value)
  }

  function CandidateFor(db: Db, id: string): Candidate
    requires id in db.inbox
  {
    var row := db.inbox[id];
    var input := InputFor(db, id, row.turnId);
    Candidate(
      RequeuedInput(Entry(id, row), row.turnId, if input.Some? then Some(input.value.role) else None,
                    DeliveredAt(input).Some?),
      row.turnId.Or(id),
      if row.turnId.Some? && row.turnId.value in db.turns then db.turns[row.turnId.value].startedAt
      else row.receivedAt,
      if input.Some? then input.value.ordinal else row.ordinal.Or(0))
  }

  function ConsiderReplay(db: Db, id: string): Option<Candidate>
    requires id in db.inbox
  {
    if Answered(db, id) then None else Some(CandidateFor(db, id))
  }

  function Considered(db: Db, ids: seq<string>): seq<Candidate>
    requires forall id :: id in ids ==> id in db.inbox
  {
    if ids == [] then [] else
    var c := ConsiderReplay(db, ids[|ids| - 1]);
    Considered(db, ids[..|ids| - 1]) + if c.Some? then [c.value] else []
  }

  function ReplayKey(c: Candidate): SortKey {
    SortKey(c.groupAt, c.groupId, c.ordinal, c.input.record.row.receivedAt, c.input.record.id)
  }

  function Replayed(candidates: seq<Candidate>): seq<RequeuedInput> {
    seq(|candidates|, i requires 0 <= i < |candidates| => candidates[i].input)
  }

  /** One channel's replay, as candidates in replay order. */
  function ChannelReplay(db: Db, channelId: string): seq<Candidate> {
    UnsettledRows(db, channelId);
    SortBy(By(ReplayKey), Considered(db, UnsettledForChannel(db, channelId)))
  }

  function RequeueFor(db: Db, channels: seq<string>): seq<RequeuedInput> {
    if channels == [] then [] else
    RequeueFor(db, channels[..|channels| - 1]) + Replayed(ChannelReplay(db, channels[|channels| - 1]))
  }

  function Requeue(db: Db): seq<RequeuedInput> { RequeueFor(db, UnsettledChannels(db)) }

  lemma UnsettledRows(db: Db, channelId: string)
    ensures forall id :: id in UnsettledForChannel(db, channelId) <==> id in UnsettledIn(db, channelId)
    ensures multiset(UnsettledForChannel(db, channelId)) == multiset(KeysInOrder(UnsettledIn(db, channelId)))
  {
    SortByPermutes(By(id => RowKey(db, id)), KeysInOrder(UnsettledIn(db, channelId)));
  }

  lemma UnfinishedRows(db: Db)
    ensures forall id :: id in Unfinished(db) <==> id in LiveTurns(db)
  {
    SortByPermutes(By(id => TurnKey(db, id)), KeysInOrder(LiveTurns(db)));
  }

  lemma UnsignedRows(db: Db)
    ensures forall l :: l in M.UnsignedIntents(db) <==>
      l in db.intents && db.intents[l].state == Pending && l !in db.outbox
  {
    var rows := KeysInOrder(set l | l in db.intents && db.intents[l].state == Pending && l !in db.outbox);
    SortByPermutes(By(l => if l in db.intents then SortKey(0, db.intents[l].turnId, db.intents[l].ordinal, 0, l)
                           else SortKey(0, "", 0, 0, l)), rows);
  }

  // ----------------------------------------------------- publishing decisions

  datatype Fate = Spent | Later | Again

  function FateOf(row: OutboxRow, now: int, budget: nat): Fate {
    if row.attempts >= budget then Spent
    else if row.nextRetryAt.Some? && row.nextRetryAt.value > now then Later
    else Again
  }

  function Sharing(rows: seq<Entry<OutboxRow>>, now: int, budget: nat, fate: Fate): seq<Entry<OutboxRow>> {
    if rows == [] then [] else
    Sharing(rows[..|rows| - 1], now, budget, fate)
    + if FateOf(rows[|rows| - 1].row, now, budget) == fate then [rows[|rows| - 1]] else []
  }

  function Owed(db: Db): seq<Entry<OutboxRow>> {
    M.DueIsEveryCandidateOnce(db, None);
    Rows(db.outbox, M.DuePublishes(db, None))
  }

  function LetterFor(e: Entry<OutboxRow>): DeadLetter {
    DeadLetter(e.id, e.row.event.eventId, e.row.attempts, M.SpentReason(e.row.attempts))
  }

  function Letters(rows: seq<Entry<OutboxRow>>): seq<DeadLetter> {
    seq(|rows|, i requires 0 <= i < |rows| => LetterFor(rows[i]))
  }

  function PlanFor(db: Db, now: int, budget: nat): Plan {
    UnsignedRows(db);
    UnfinishedRows(db);
    Plan(Sharing(Owed(db), now, budget, Again), Sharing(Owed(db), now, budget, Later),
         Rows(db.intents, M.UnsignedIntents(db)), Rows(db.turns, Unfinished(db)), Requeue(db),
         Letters(Sharing(Owed(db), now, budget, Spent)))
  }

  // ----------------------------------------------------------------- applying

  function WithInterrupts(db: Db, turns: seq<Entry<TurnRow>>, now: int): Db {
    if turns == [] then db else
    SetTurnState(WithInterrupts(db, turns[..|turns| - 1], now), turns[|turns| - 1].id,
      TurnState.Interrupted, Some(INTERRUPTED_STOP_REASON), now)
  }

  /** The link to the dead turn stays. */
  function Requeued(db: Db, inputs: seq<RequeuedInput>): Db {
    if inputs == [] then db else
    SetDisposition(Requeued(db, inputs[..|inputs| - 1]), inputs[|inputs| - 1].record.id, Queued)
  }

  function Lettered(db: Db, letters: seq<DeadLetter>): Db {
    if letters == [] then db else
    var l := letters[|letters| - 1];
    MarkDeadLetter(Lettered(db, letters[..|letters| - 1]), l.logicalId, l.reason)
  }

  /** One transaction. */
  function Applied(db: Db, plan: Plan, now: int): Db {
    Lettered(Requeued(WithInterrupts(db, plan.interrupt, now), plan.requeue), plan.deadLetter)
  }
}
