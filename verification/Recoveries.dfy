/** Planning and applying recovery against the store, step by step. */
module Recoveries {
  import opened Basics
  import opened Tables
  import opened Ordering
  import opened Storage
  import opened Recovery
  import M = OutboxModel

  /** Per-turn reads, remembered for one planning pass. */
  class TurnLookup {
    const db: Database
    var turns: map<string, Option<TurnRow>>
    var inputs: map<string, map<string, InputRow>>
    var answeredAt: map<string, Option<int>>

    /** What is remembered is what the store says. */
    ghost predicate Valid() reads this, db {
      && (forall t :: t in turns ==> turns[t] == if t in db.turns then Some(db.turns[t]) else None)
      && (forall t :: t in inputs ==> inputs[t] == InputsOf(db.Model(), t))
      && (forall t :: t in answeredAt ==> answeredAt[t] == Recovery.LatestIntentAt(db.Model(), t))
    }

    constructor (db: Database)
      ensures this.db == db && Valid()
    {
      this.db := db;
      turns, inputs, answeredAt := map[], map[], map[];
    }

    method Turn(turnId: string) returns (turn: Option<TurnRow>)
      requires Valid()
      modifies this
      ensures Valid()
      ensures turn == if turnId in db.turns then Some(db.turns[turnId]) else None
    {
      if turnId !in turns {
        turns := turns[turnId := if turnId in db.turns then Some(db.turns[turnId]) else None];
      }
      turn := turns[turnId];
    }

    method Input(turnId: string, eventId: string) returns (input: Option<InputRow>)
      requires Valid()
      modifies this
      ensures Valid()
      ensures input == InputFor(db.Model(), eventId, Some(turnId))
    {
      if turnId !in inputs { inputs := inputs[turnId := InputsOf(db.Model(), turnId)]; }
      var byEvent := inputs[turnId];
      assert eventId in byEvent <==> (turnId, eventId) in db.inputs;
      input := if eventId in byEvent then Some(byEvent[eventId]) else None;
    }

    method LatestIntentAt(turnId: string) returns (latest: Option<int>)
      requires Valid()
      modifies this
      ensures Valid()
      ensures latest == Recovery.LatestIntentAt(db.Model(), turnId)
    {
      if turnId !in answeredAt {
        answeredAt := answeredAt[turnId := Recovery.LatestIntentAt(db.Model(), turnId)];
      }
      latest := answeredAt[turnId];
    }

    method AnsweredAfter(turnId: string, deliveredAt: int) returns (answered: bool)
      requires Valid()
      modifies this
      ensures Valid()
      ensures answered == Recovery.AnsweredAfter(db.Model(), turnId, deliveredAt)
    {
      var latest := LatestIntentAt(turnId);
      answered := latest.Some? && latest.value > deliveredAt;
    }

    /** Whether an unsettled input has to run again, and where in the replay. */
    method ConsiderReplay(id: string) returns (candidate: Option<Candidate>)
      requires Valid() && id in db.inbox
      modifies this
      ensures Valid()
      ensures candidate == Recovery.ConsiderReplay(db.Model(), id)
    {
      var record := db.inbox[id];
      var turn: Option<TurnRow>, input: Option<InputRow> := None, None;
      if record.turnId.Some? {
        turn := Turn(record.turnId.value);
        input := Input(record.turnId.value, id);
      }
      var deliveredAt := if input.Some? then input.value.deliveredAt else None;
      if record.turnId.Some? && deliveredAt.Some? {
        var answered := AnsweredAfter(record.turnId.value, deliveredAt.value);
        if answered { return None; }
      }
      candidate := Some(Candidate(
        RequeuedInput(Entry(id, record), record.turnId, if input.Some? then Some(input.value.role) else None,
                      deliveredAt.Some?),
        record.turnId.Or(id),
        if turn.Some? then turn.value.startedAt else record.receivedAt,
        if input.Some? then input.value.ordinal else record.ordinal.Or(0)));
    }
  }

  method PlanRequeue(db: Database) returns (requeue: seq<RequeuedInput>)
    ensures requeue == Requeue(db.Model())
  {
    hide UnsettledChannels, ChannelReplay, RequeueFor, TurnLookup.Valid;
    var turns := new TurnLookup(db);
    var channels := UnsettledChannels(db.Model());
    requeue := [];
    NoChannels(db.Model(), channels);
    for i := 0 to |channels|
      invariant turns.Valid()
      invariant requeue == RequeueFor(db.Model(), channels[..i])
    {
      var inputs := ChannelRequeue(turns, channels[i]);
      NextChannel(db.Model(), channels, i);
      requeue := requeue + inputs;
    }
  }

  lemma NoChannels(db: Db, channels: seq<string>)
    ensures RequeueFor(db, channels[..0]) == []
    ensures channels[..|channels|] == channels
  {
  }

  lemma NextChannel(db: Db, channels: seq<string>, i: nat)
    requires i < |channels|
    ensures RequeueFor(db, channels[..i + 1]) == RequeueFor(db, channels[..i]) + Replayed(ChannelReplay(db, channels[i]))
  {
    assert channels[..i + 1][..i] == channels[..i];
  }

  method ChannelRequeue(turns: TurnLookup, channelId: string) returns (inputs: seq<RequeuedInput>)
    requires turns.Valid()
    modifies turns
    ensures turns.Valid()
    ensures inputs == Replayed(ChannelReplay(turns.db.Model(), channelId))
  {
    UnsettledRows(turns.db.Model(), channelId);
    hide Answered, CandidateFor, UnsettledForChannel, UnsettledIn, SortBy, By, ReplayKey, Considered, TurnLookup.Valid;
    var candidates := Candidates(turns, UnsettledForChannel(turns.db.Model(), channelId));
    inputs := Replayed(SortBy(By(ReplayKey), candidates));
  }

  method Candidates(turns: TurnLookup, records: seq<string>) returns (candidates: seq<Candidate>)
    requires turns.Valid() && forall id :: id in records ==> id in turns.db.inbox
    modifies turns
    ensures turns.Valid()
    ensures candidates == Considered(turns.db.Model(), records)
  {
    hide Answered, CandidateFor, Recovery.ConsiderReplay, Considered, TurnLookup.Valid;
    candidates := [];
    NoRecords(turns.db.Model(), records);
    for k := 0 to |records|
      invariant turns.Valid()
      invariant candidates == Considered(turns.db.Model(), records[..k])
    {
      NextRecord(turns.db.Model(), records, k);
      var candidate := turns.ConsiderReplay(records[k]);
      if candidate.Some? { candidates := candidates + [candidate.value]; }
    }
  }

  lemma NoRecords(db: Db, ids: seq<string>)
    ensures Considered(db, ids[..0]) == []
    ensures ids[..|ids|] == ids
  {
  }

  lemma NextRecord(db: Db, ids: seq<string>, k: nat)
    requires k < |ids| && forall id :: id in ids ==> id in db.inbox
    ensures ids[k] in db.inbox
    ensures var c := Recovery.ConsiderReplay(db, ids[k]);
      Considered(db, ids[..k + 1]) == if c.Some? then Considered(db, ids[..k]) + [c.value] else Considered(db, ids[..k])
  {
    hide Answered, CandidateFor;
    assert ids[..k + 1][..k] == ids[..k];
  }

  method PlanRecovery(db: Database, now: int, maxAttempts: nat) returns (plan: Plan)
    ensures plan == PlanFor(db.Model(), now, maxAttempts)
  {
    var resend: seq<Entry<OutboxRow>>, deferred: seq<Entry<OutboxRow>>, spent: seq<Entry<OutboxRow>> := [], [], [];
    var deadLetter: seq<DeadLetter> := [];
    var unpublished := Owed(db.Model());
    for i := 0 to |unpublished|
      invariant resend == Sharing(unpublished[..i], now, maxAttempts, Again)
      invariant deferred == Sharing(unpublished[..i], now, maxAttempts, Later)
      invariant spent == Sharing(unpublished[..i], now, maxAttempts, Spent)
      invariant deadLetter == Letters(spent)
    {
      var record := unpublished[i];
      if record.row.attempts >= maxAttempts {
        spent := spent + [record];
        deadLetter := deadLetter + [LetterFor(record)];
      } else if record.row.nextRetryAt.Some? && record.row.nextRetryAt.value > now {
        deferred := deferred + [record];
      } else {
        resend := resend + [record];
      }
      assert unpublished[..i + 1][..i] == unpublished[..i];
    }
    assert unpublished[..|unpublished|] == unpublished;
    UnsignedRows(db.Model());
    UnfinishedRows(db.Model());
    var requeue := PlanRequeue(db);
    plan := Plan(resend, deferred,
      Rows(db.intents, M.UnsignedIntents(db.Model())), Rows(db.turns, Unfinished(db.Model())),
      requeue, deadLetter);
  }

  /** Writes the plan's transitions down, in one transaction. */
  method ApplyRecovery(db: Database, plan: Plan, now: int)
    modifies db
    ensures db.Model() == Applied(old(db.Model()), plan, now)
  {
    var turns, inputs, letters := plan.interrupt, plan.requeue, plan.deadLetter;
    ghost var before := db.Model();
    for i := 0 to |turns|
      invariant db.Model() == WithInterrupts(before, turns[..i], now)
    {
      db.SetTurnState(turns[i].id, TurnState.Interrupted, Some(INTERRUPTED_STOP_REASON), now);
      assert turns[..i + 1][..i] == turns[..i];
    }
    assert turns[..|turns|] == turns;
    ghost var closed := db.Model();
    for i := 0 to |inputs|
      invariant db.Model() == Requeued(closed, inputs[..i])
    {
      db.SetDisposition(inputs[i].record.id, Queued);
      assert inputs[..i + 1][..i] == inputs[..i];
    }
    assert inputs[..|inputs|] == inputs;
    ghost var queued := db.Model();
    for i := 0 to |letters|
      invariant db.Model() == Lettered(queued, letters[..i])
    {
      db.MarkDeadLetter(letters[i].logicalId, letters[i].reason);
      assert letters[..i + 1][..i] == letters[..i];
    }
    assert letters[..|letters|] == letters;
  }
}
