/** The durable tables as values, and the SQL statements over them as functions.
    A map key is the table's primary key, so INSERT, UPDATE and ON CONFLICT act on keys;
    an UPDATE whose key is absent changes nothing. */
module Tables {
  import opened Basics
  import MessageSplit

  datatype Disposition =
    Queued | Prompted | SteerPending | SteerDelivered | Completed | Rejected | DeadLettered

  datatype InboxRow = InboxRow(
    channelId: string, receivedAt: int, disposition: Disposition,
    turnId: Option<string>, ordinal: Option<nat>)

  datatype TurnState = Created | Running | Settling | Settled | Interrupted | Failed | Finished

  datatype TurnRow = TurnRow(
    channelId: string, threadRootId: string, primaryId: string, state: TurnState,
    startedAt: int, settledAt: Option<int>, stopReason: Option<string>)

  datatype Role = Primary | Steer

  datatype InputRow = InputRow(role: Role, ordinal: nat, deliveredAt: Option<int>)

  datatype IntentState = Pending | Signed | Published | Abandoned

  datatype IntentRow = IntentRow(
    turnId: string, ordinal: nat, content: MessageSplit.Text, state: IntentState, createdAt: int)

  datatype OutboxState = OutPending | OutPublished | OutFailed | OutDead

  /** The signed event: its id and the bytes that go to the relay. */
  datatype SignedEvent = SignedEvent(eventId: string, bytes: string)

  datatype OutboxRow = OutboxRow(
    event: SignedEvent, state: OutboxState, attempts: nat,
    nextRetryAt: Option<int>, lastError: Option<string>, createdAt: int)

  /** `inputs` is turn_inputs, keyed by (turn, event). */
  datatype Db = Db(
    inbox: map<string, InboxRow>,
    turns: map<string, TurnRow>,
    inputs: map<(string, string), InputRow>,
    intents: map<string, IntentRow>,
    outbox: map<string, OutboxRow>)

  const EMPTY_DB := Db(map[], map[], map[], map[], map[])

  // -------------------------------------------------------------------- inbox

  predicate Undelivered(d: Disposition) { d == Queued || d == SteerPending }

  predicate Delivered(d: Disposition) { d == Prompted || d == SteerDelivered }

  predicate Unsettled(d: Disposition) { Undelivered(d) || Delivered(d) }

  function InsertInbox(db: Db, eventId: string, row: InboxRow): Db {
    if eventId in db.inbox then db else db.(inbox := db.inbox[eventId := row])
  }

  function SetDisposition(db: Db, eventId: string, d: Disposition): Db {
    if eventId !in db.inbox then db else
    db.(inbox := db.inbox[eventId := db.inbox[eventId].(disposition := d)])
  }

  /** The form that names a turn: a null turn also clears the ordinal. */
  function SetDispositionAndTurn(db: Db, eventId: string, d: Disposition, turnId: Option<string>): Db {
    if eventId !in db.inbox then db else
    var row := db.inbox[eventId];
    db.(inbox := db.inbox[eventId := row.(
      disposition := d, turnId := turnId, ordinal := if turnId.None? then None else row.ordinal)])
  }

  function AssignToTurn(db: Db, eventId: string, turnId: string, ordinal: nat, d: Disposition): Db {
    if eventId !in db.inbox then db else
    db.(inbox := db.inbox[eventId := db.inbox[eventId].(
      disposition := d, turnId := Some(turnId), ordinal := Some(ordinal))])
  }

  function CompleteTurnInputs(db: Db, turnId: string): Db {
    db.(inbox := map id | id in db.inbox ::
      if db.inbox[id].turnId == Some(turnId) && Delivered(db.inbox[id].disposition)
      then db.inbox[id].(disposition := Completed) else db.inbox[id])
  }

  /** Moves a pending steer back to the queue and drops its input row; only a pending steer
      moves, so a repeated call changes nothing. */
  function ReleaseSteerPending(db: Db, eventId: string): Db {
    if eventId !in db.inbox || db.inbox[eventId].disposition != SteerPending then db else
    var row := db.inbox[eventId];
    var moved := db.(inbox := db.inbox[eventId := row.(disposition := Queued, turnId := None, ordinal := None)]);
    if row.turnId.None? then moved else moved.(inputs := moved.inputs - {(row.turnId.value, eventId)})
  }

  // -------------------------------------------------------------------- turns

  predicate Live(state: TurnState) { state in {Created, Running, Settling, Settled} }

  predicate Terminal(state: TurnState) { state in {Settled, Interrupted, Failed, Finished} }

  function CreateTurn(db: Db, turnId: string, row: TurnRow): Db {
    db.(turns := db.turns[turnId := row])
  }

  /** `settled_at` is stamped by the first terminal state only; no reason keeps the old one. */
  function SetTurnState(db: Db, turnId: string, state: TurnState, reason: Option<string>, now: int): Db {
    if turnId !in db.turns then db else
    var row := db.turns[turnId];
    db.(turns := db.turns[turnId := row.(
      state := state,
      stopReason := if reason.None? then row.stopReason else reason,
      settledAt := if row.settledAt.None? && Terminal(state) then Some(now) else row.settledAt)])
  }

  /** The unique index over (turn, ordinal) refuses a second event at one position. */
  predicate OrdinalTaken(db: Db, turnId: string, eventId: string, ordinal: nat) {
    (turnId, eventId) !in db.inputs
    && exists key :: key in db.inputs && key.0 == turnId && db.inputs[key].ordinal == ordinal
  }

  function AddInput(db: Db, turnId: string, eventId: string, role: Role, ordinal: nat): Db
    requires !OrdinalTaken(db, turnId, eventId, ordinal)
  {
    if (turnId, eventId) in db.inputs then db else
    db.(inputs := db.inputs[(turnId, eventId) := InputRow(role, ordinal, None)])
  }

  function MarkInputDelivered(db: Db, turnId: string, eventId: string, at: int): Db {
    if (turnId, eventId) !in db.inputs then db else
    db.(inputs := db.inputs[(turnId, eventId) := db.inputs[(turnId, eventId)].(deliveredAt := Some(at))])
  }

  // ------------------------------------------------------- intents and outbox

  function PutIntent(db: Db, logicalId: string, row: IntentRow): Db {
    if logicalId in db.intents then db else db.(intents := db.intents[logicalId := row])
  }

  function SetIntentState(db: Db, logicalId: string, state: IntentState): Db {
    if logicalId !in db.intents then db else
    db.(intents := db.intents[logicalId := db.intents[logicalId].(state := state)])
  }

  /** Row and intent change in one transaction; an existing row is never replaced. */
  function PutSigned(db: Db, logicalId: string, row: OutboxRow): Db {
    SetIntentState(
      if logicalId in db.outbox then db else db.(outbox := db.outbox[logicalId := row]),
      logicalId, Signed)
  }

  function MarkPublished(db: Db, logicalId: string): Db {
    SetIntentState(
      if logicalId !in db.outbox then db else
      db.(outbox := db.outbox[logicalId := db.outbox[logicalId].(state := OutPublished, nextRetryAt := None)]),
      logicalId, Published)
  }

  function MarkFailed(db: Db, logicalId: string, error: string, nextRetryAt: Option<int>): Db {
    if logicalId !in db.outbox || db.outbox[logicalId].state == OutPublished then db else
    var row := db.outbox[logicalId];
    db.(outbox := db.outbox[logicalId := row.(
      state := OutFailed, attempts := row.attempts + 1, nextRetryAt := nextRetryAt, lastError := Some(error))])
  }

  function MarkDeadLetter(db: Db, logicalId: string, error: string): Db {
    SetIntentState(
      if logicalId !in db.outbox || db.outbox[logicalId].state == OutPublished then db else
      db.(outbox := db.outbox[logicalId := db.outbox[logicalId].(
        state := OutDead, nextRetryAt := None, lastError := Some(error))]),
      logicalId, Abandoned)
  }
}
