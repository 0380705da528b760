/** The SQLite store behind the repositories: one object whose fields are the tables. */
module Storage {
  import opened Basics
  import opened Tables

  class Database {
    var inbox: map<string, InboxRow>
    var turns: map<string, TurnRow>
    var inputs: map<(string, string), InputRow>
    var intents: map<string, IntentRow>
    var outbox: map<string, OutboxRow>

    function Model(): Db reads this { Db(inbox, turns, inputs, intents, outbox) }

    constructor ()
      ensures Model() == EMPTY_DB
    {
      inbox, turns, inputs, intents, outbox := map[], map[], map[], map[], map[];
    }

    method InsertInbox(eventId: string, row: InboxRow) returns (inserted: bool)
      modifies this
      ensures Model() == Tables.InsertInbox(old(Model()), eventId, row)
      ensures inserted <==> eventId !in old(inbox)
    {
      inserted := eventId !in inbox;
      if inserted { inbox := inbox[eventId := row]; }
    }

    method SetDisposition(eventId: string, d: Disposition)
      modifies this
      ensures Model() == Tables.SetDisposition(old(Model()), eventId, d)
    {
      if eventId in inbox { inbox := inbox[eventId := inbox[eventId].(disposition := d)]; }
    }

    method SetDispositionAndTurn(eventId: string, d: Disposition, turnId: Option<string>)
      modifies this
      ensures Model() == Tables.SetDispositionAndTurn(old(Model()), eventId, d, turnId)
    {
      if eventId in inbox {
        var row := inbox[eventId].(disposition := d, turnId := turnId);
        inbox := inbox[eventId := if turnId.None? then row.(ordinal := None) else row];
      }
    }

    method AssignToTurn(eventId: string, turnId: string, ordinal: nat, d: Disposition)
      modifies this
      ensures Model() == Tables.AssignToTurn(old(Model()), eventId, turnId, ordinal, d)
    {
      if eventId in inbox {
        inbox := inbox[eventId := inbox[eventId].(
          turnId := Some(turnId), ordinal := Some(ordinal), disposition := d)];
      }
    }

    method CompleteTurnInputs(turnId: string)
      modifies this
      ensures Model() == Tables.CompleteTurnInputs(old(Model()), turnId)
    {
      inbox := map id | id in inbox ::
        if inbox[id].turnId == Some(turnId) && Delivered(inbox[id].disposition)
        then inbox[id].(disposition := Completed) else inbox[id];
    }

    method CreateTurn(turnId: string, row: TurnRow)
      modifies this
      ensures Model() == Tables.CreateTurn(old(Model()), turnId, row)
    {
      turns := turns[turnId := row];
    }

    method SetTurnState(turnId: string, state: TurnState, reason: Option<string>, now: int)
      modifies this
      ensures Model() == Tables.SetTurnState(old(Model()), turnId, state, reason, now)
    {
      if turnId !in turns { return; }
      var row := turns[turnId].(state := state);
      if reason.Some? { row := row.(stopReason := reason); }
      if row.settledAt.None? && Terminal(state) { row := row.(settledAt := Some(now)); }
      turns := turns[turnId := row];
    }

    /** Refused when the turn already has another event at this ordinal. */
    method AddInput(turnId: string, eventId: string, role: Role, ordinal: nat) returns (ok: bool)
      modifies this
      ensures ok <==> !OrdinalTaken(old(Model()), turnId, eventId, ordinal)
      ensures Model() == if ok then Tables.AddInput(old(Model()), turnId, eventId, role, ordinal) else old(Model())
    {
      if (turnId, eventId) in inputs { return true; }
      if exists key :: key in inputs && key.0 == turnId && inputs[key].ordinal == ordinal { return false; }
      inputs := inputs[(turnId, eventId) := InputRow(role, ordinal, None)];
      return true;
    }

    method MarkInputDelivered(turnId: string, eventId: string, at: int)
      modifies this
      ensures Model() == Tables.MarkInputDelivered(old(Model()), turnId, eventId, at)
    {
      if (turnId, eventId) in inputs {
        inputs := inputs[(turnId, eventId) := inputs[(turnId, eventId)].(deliveredAt := Some(at))];
      }
    }

    method PutIntent(logicalId: string, row: IntentRow) returns (inserted: bool)
      modifies this
      ensures Model() == Tables.PutIntent(old(Model()), logicalId, row)
      ensures inserted <==> logicalId !in old(intents)
    {
      inserted := logicalId !in intents;
      if inserted { intents := intents[logicalId := row]; }
    }

    method SetIntentState(logicalId: string, state: IntentState)
      modifies this
      ensures Model() == Tables.SetIntentState(old(Model()), logicalId, state)
    {
      if logicalId in intents { intents := intents[logicalId := intents[logicalId].(state := state)]; }
    }

    method PutSigned(logicalId: string, row: OutboxRow)
      modifies this
      ensures Model() == Tables.PutSigned(old(Model()), logicalId, row)
    {
      if logicalId !in outbox { outbox := outbox[logicalId := row]; }
      SetIntentState(logicalId, Signed);
    }

    method MarkPublished(logicalId: string)
      modifies this
      ensures Model() == Tables.MarkPublished(old(Model()), logicalId)
    {
      if logicalId in outbox {
        outbox := outbox[logicalId := outbox[logicalId].(state := OutPublished, nextRetryAt := None)];
      }
      SetIntentState(logicalId, Published);
    }

    method MarkFailed(logicalId: string, error: string, nextRetryAt: Option<int>)
      modifies this
      ensures Model() == Tables.MarkFailed(old(Model()), logicalId, error, nextRetryAt)
    {
      if logicalId in outbox && outbox[logicalId].state != OutPublished {
        var row := outbox[logicalId];
        outbox := outbox[logicalId := row.(
          state := OutFailed, attempts := row.attempts + 1,
          nextRetryAt := nextRetryAt, lastError := Some(error))];
      }
    }

    method MarkDeadLetter(logicalId: string, error: string)
      modifies this
      ensures Model() == Tables.MarkDeadLetter(old(Model()), logicalId, error)
    {
      if logicalId in outbox && outbox[logicalId].state != OutPublished {
        outbox := outbox[logicalId := outbox[logicalId].(
          state := OutDead, nextRetryAt := None, lastError := Some(error))];
      }
      SetIntentState(logicalId, Abandoned);
    }
  }
}
