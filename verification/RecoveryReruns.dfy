/** Planning again after applying a plan: nothing left to interrupt or give up on, and the
    same replay and sign lists. */
module RecoveryReruns {
  import opened Basics
  import opened Tables
  import opened Ordering
  import opened Recovery
  import opened RecoveryProofs
  import M = OutboxModel
  import P = OutboxProofs

  // ------------------------------------------------- what applying a plan does

  function Closed(row: TurnRow, now: int): TurnRow {
    row.(state := TurnState.Interrupted, stopReason := Some(INTERRUPTED_STOP_REASON),
         settledAt := if row.settledAt.None? then Some(now) else row.settledAt)
  }

  ghost predicate TurnsClosed(db: Db, to: Db, gone: set<string>, now: int) {
    && to == db.(turns := to.turns) && to.turns.Keys == db.turns.Keys
    && forall t :: t in db.turns ==>
         to.turns[t] == if t in gone then Closed(db.turns[t], now) else db.turns[t]
  }

  ghost predicate InputsQueued(db: Db, to: Db, back: set<string>) {
    && to == db.(inbox := to.inbox) && to.inbox.Keys == db.inbox.Keys
    && forall id :: id in db.inbox ==>
         to.inbox[id] == if id in back then db.inbox[id].(disposition := Queued) else db.inbox[id]
  }

  ghost predicate RowsBuried(from: map<string, OutboxRow>, to: map<string, OutboxRow>, lost: set<string>) {
    && to.Keys == from.Keys
    && (forall l :: l in from && l !in lost ==> to[l] == from[l])
    && (forall l :: l in from && l in lost ==>
          to[l].state == if from[l].state == OutPublished then OutPublished else OutDead)
  }

  ghost predicate IntentsAbandoned(from: map<string, IntentRow>, to: map<string, IntentRow>, lost: set<string>) {
    && to.Keys == from.Keys
    && forall l :: l in from ==> to[l] == if l in lost then from[l].(state := Abandoned) else from[l]
  }

  ghost predicate OnlyGivenUp(db: Db, to: Db, lost: set<string>) {
    && to == db.(outbox := to.outbox, intents := to.intents)
    && RowsBuried(db.outbox, to.outbox, lost)
    && IntentsAbandoned(db.intents, to.intents, lost)
  }

  function TurnIds(entries: seq<Entry<TurnRow>>): set<string> {
    if entries == [] then {} else TurnIds(entries[..|entries| - 1]) + {entries[|entries| - 1].id}
  }

  function InputIds(inputs: seq<RequeuedInput>): set<string> {
    if inputs == [] then {} else InputIds(inputs[..|inputs| - 1]) + {inputs[|inputs| - 1].record.id}
  }

  function LetterIds(letters: seq<DeadLetter>): set<string> {
    if letters == [] then {} else LetterIds(letters[..|letters| - 1]) + {letters[|letters| - 1].logicalId}
  }

  lemma {:induction false} ClosesThese(db: Db, turns: seq<Entry<TurnRow>>, now: int)
    ensures TurnsClosed(db, WithInterrupts(db, turns, now), TurnIds(turns), now)
  {
    if turns != [] { ClosesThese(db, turns[..|turns| - 1], now); }
  }

  lemma {:induction false} QueuesThese(db: Db, inputs: seq<RequeuedInput>)
    ensures InputsQueued(db, Requeued(db, inputs), InputIds(inputs))
  {
    if inputs != [] { QueuesThese(db, inputs[..|inputs| - 1]); }
  }

  lemma {:induction false} BuriesThese(db: Db, letters: seq<DeadLetter>)
    ensures OnlyGivenUp(db, Lettered(db, letters), LetterIds(letters))
  {
    if letters != [] {
      var front, last := letters[..|letters| - 1], letters[|letters| - 1];
      BuriesThese(db, front);
      BuriesOneMore(db, Lettered(db, front), LetterIds(front), last.logicalId, last.reason);
      hide *;
      hide OnlyGivenUp;
      assert LetterIds(letters) == LetterIds(front) + {last.logicalId};
    }
  }

  lemma BuriesOneMore(db: Db, mid: Db, lost: set<string>, l: string, reason: string)
    requires OnlyGivenUp(db, mid, lost)
    ensures OnlyGivenUp(db, MarkDeadLetter(mid, l, reason), lost + {l})
  {
    var to := MarkDeadLetter(mid, l, reason);
    assert to.outbox == BuriedRow(mid.outbox, l, reason) && to.intents == AbandonedRow(mid.intents, l);
    RowBuried(db.outbox, mid.outbox, lost, l, reason);
    IntentAbandoned(db.intents, mid.intents, lost, l);
    hide RowsBuried, IntentsAbandoned, BuriedRow, AbandonedRow;
  }

  function BuriedRow(rows: map<string, OutboxRow>, l: string, reason: string): map<string, OutboxRow> {
    if l !in rows || rows[l].state == OutPublished then rows else
    rows[l := rows[l].(state := OutDead, nextRetryAt := None, lastError := Some(reason))]
  }

  function AbandonedRow(rows: map<string, IntentRow>, l: string): map<string, IntentRow> {
    if l !in rows then rows else rows[l := rows[l].(state := Abandoned)]
  }

  lemma RowBuried(
    from: map<string, OutboxRow>, mid: map<string, OutboxRow>, lost: set<string>, l: string, reason: string)
    requires RowsBuried(from, mid, lost)
    ensures RowsBuried(from, BuriedRow(mid, l, reason), lost + {l})
  {
  }

  lemma IntentAbandoned(from: map<string, IntentRow>, mid: map<string, IntentRow>, lost: set<string>, l: string)
    requires IntentsAbandoned(from, mid, lost)
    ensures IntentsAbandoned(from, AbandonedRow(mid, l), lost + {l})
  {
  }

  lemma {:induction false} TurnIdsAre(entries: seq<Entry<TurnRow>>, id: string)
    ensures id in TurnIds(entries) <==> exists i :: 0 <= i < |entries| && entries[i].id == id
  {
    if entries != [] { TurnIdsAre(entries[..|entries| - 1], id); }
  }

  lemma {:induction false} InputIdsAre(inputs: seq<RequeuedInput>, id: string)
    ensures id in InputIds(inputs) <==> Replays(inputs, id)
  {
    if inputs != [] {
      InputIdsAre(inputs[..|inputs| - 1], id);
      if id == inputs[|inputs| - 1].record.id { assert Replays(inputs, id); }
    }
  }

  lemma {:induction false} LetterIdsAre(rows: seq<Entry<OutboxRow>>, l: string)
    ensures l in LetterIds(Letters(rows)) <==> exists e :: e in rows && e.id == l
  {
    if rows != [] {
      var front := rows[..|rows| - 1];
      LetterIdsAre(front, l);
      assert Letters(rows)[..|rows| - 1] == Letters(front);
      assert rows == front + [rows[|rows| - 1]];
      if e :| e in front && e.id == l { assert e in rows; }
    }
  }

  // ----------------------------------------------------- which rows are picked

  lemma {:induction false} SharingHolds(
    rows: seq<Entry<OutboxRow>>, now: int, budget: nat, fate: Fate, e: Entry<OutboxRow>)
    ensures e in Sharing(rows, now, budget, fate) <==> e in rows && FateOf(e.row, now, budget) == fate
  {
    if rows != [] {
      hide FateOf;
      SharingHolds(rows[..|rows| - 1], now, budget, fate, e);
      assert rows == rows[..|rows| - 1] + [rows[|rows| - 1]];
    }
  }

  predicate IsOwed(db: Db, e: Entry<OutboxRow>) {
    e.id in db.outbox && M.Owed(db.outbox[e.id].state) && e.row == db.outbox[e.id]
  }

  lemma OwedHolds(db: Db, e: Entry<OutboxRow>)
    ensures e in Owed(db) <==> IsOwed(db, e)
  {
    M.DueIsEveryCandidateOnce(db, None);
    assert e.id in M.Candidates(db, None) <==> e.id in db.outbox && M.Owed(db.outbox[e.id].state);
    var ids, rows := M.DuePublishes(db, None), Owed(db);
    hide M.DuePublishes, M.Candidates;
    RowsHold(db.outbox, ids, e);
  }

  lemma RowsHold<T>(table: map<string, T>, ids: seq<string>, e: Entry<T>)
    requires forall id :: id in ids ==> id in table
    ensures e in Rows(table, ids) <==> e.id in ids && e.row == table[e.id]
  {
    if e.id in ids && e.row == table[e.id] {
      var i :| 0 <= i < |ids| && ids[i] == e.id;
      assert Rows(table, ids)[i] == e;
    }
  }

  /** A row the relay is owed is resent, deferred or given up on, by its attempts and its
      backoff alone. */
  lemma PlanHolds(db: Db, now: int, budget: nat, e: Entry<OutboxRow>)
    ensures var plan := PlanFor(db, now, budget);
      && (e in plan.resend <==> IsOwed(db, e) && FateOf(e.row, now, budget) == Again)
      && (e in plan.deferred <==> IsOwed(db, e) && FateOf(e.row, now, budget) == Later)
  {
    SharingHolds(Owed(db), now, budget, Again, e);
    SharingHolds(Owed(db), now, budget, Later, e);
    OwedHolds(db, e);
  }

  function SpentRows(db: Db, budget: nat): set<string> {
    set l | l in db.outbox && M.Owed(db.outbox[l].state) && db.outbox[l].attempts >= budget
  }

  function ReplayRows(db: Db): set<string> {
    set id | id in db.inbox && ToReplay(db, id)
  }

  lemma GivesUpExactly(db: Db, now: int, budget: nat)
    ensures LetterIds(Letters(Sharing(Owed(db), now, budget, Spent))) == SpentRows(db, budget)
  {
    var spent := Sharing(Owed(db), now, budget, Spent);
    forall l ensures l in LetterIds(Letters(spent)) <==> l in SpentRows(db, budget) {
      LetterIdsAre(spent, l);
      if l in SpentRows(db, budget) {
        OwedHolds(db, Entry(l, db.outbox[l]));
        SharingHolds(Owed(db), now, budget, Spent, Entry(l, db.outbox[l]));
      }
      if e :| e in spent && e.id == l {
        OwedHolds(db, e);
        SharingHolds(Owed(db), now, budget, Spent, e);
      }
    }
  }

  lemma InterruptsExactly(db: Db)
    ensures forall t :: t in Unfinished(db) ==> t in db.turns
    ensures TurnIds(Rows(db.turns, Unfinished(db))) == LiveTurns(db)
  {
    UnfinishedRows(db);
    var ids := Unfinished(db);
    hide Unfinished;
    forall id ensures id in TurnIds(Rows(db.turns, ids)) <==> id in LiveTurns(db) {
      TurnIdsAre(Rows(db.turns, ids), id);
      if id in LiveTurns(db) {
        var i :| 0 <= i < |ids| && ids[i] == id;
        assert Rows(db.turns, ids)[i].id == id;
      }
    }
  }

  lemma ReplaysExactly(db: Db)
    ensures InputIds(Requeue(db)) == ReplayRows(db)
  {
    hide Requeue, Answered;
    forall id ensures id in InputIds(Requeue(db)) <==> id in ReplayRows(db) {
      InputIdsAre(Requeue(db), id);
      RequeueIsExact(db, id);
    }
  }

  // ----------------------------------------------------- the store afterwards

  /** The store after recovery, table by table. */
  ghost predicate Recovered(db: Db, to: Db, budget: nat) {
    && to.inputs == db.inputs
    && to.turns.Keys == db.turns.Keys && to.inbox.Keys == db.inbox.Keys
    && to.outbox.Keys == db.outbox.Keys && to.intents.Keys == db.intents.Keys
    && (forall t :: t in db.turns ==>
          && to.turns[t].startedAt == db.turns[t].startedAt
          && (if Live(db.turns[t].state) then to.turns[t].state == TurnState.Interrupted
              else to.turns[t] == db.turns[t]))
    && (forall id :: id in db.inbox ==>
          to.inbox[id] == if ToReplay(db, id) then db.inbox[id].(disposition := Queued) else db.inbox[id])
    && (forall l :: l in db.outbox ==>
          if M.Owed(db.outbox[l].state) && db.outbox[l].attempts >= budget then to.outbox[l].state == OutDead
          else to.outbox[l] == db.outbox[l])
    && (forall l :: l in db.intents ==>
          to.intents[l] == if l in db.outbox && M.Owed(db.outbox[l].state) && db.outbox[l].attempts >= budget
                           then db.intents[l].(state := Abandoned) else db.intents[l])
  }

  /** Applying a plan closes every live turn, queues every input still owed an answer with
      its turn link in place, buries every spent row, and touches nothing else. */
  lemma ApplyingAPlan(db: Db, now: int, budget: nat, at: int)
    ensures Recovered(db, Applied(db, PlanFor(db, now, budget), at), budget)
  {
    var plan := PlanFor(db, now, budget);
    var one := WithInterrupts(db, plan.interrupt, at);
    var two := Requeued(one, plan.requeue);
    ClosesThese(db, plan.interrupt, at);
    InterruptsExactly(db);
    QueuesThese(one, plan.requeue);
    ReplaysExactly(db);
    BuriesThese(two, plan.deadLetter);
    GivesUpExactly(db, now, budget);
    PlanParts(db, now, budget);
    assert Applied(db, plan, at) == Lettered(two, plan.deadLetter);
    hide *;
    ThreeTables(db, one, two, Lettered(two, plan.deadLetter), at, budget);
  }

  lemma PlanParts(db: Db, now: int, budget: nat)
    ensures forall t :: t in Unfinished(db) ==> t in db.turns
    ensures var plan := PlanFor(db, now, budget);
      && plan.interrupt == Rows(db.turns, Unfinished(db))
      && plan.requeue == Requeue(db)
      && plan.deadLetter == Letters(Sharing(Owed(db), now, budget, Spent))
  {
    UnfinishedRows(db);
    hide Unfinished, Requeue, Letters, Sharing, Owed;
  }

  lemma ThreeTables(db: Db, one: Db, two: Db, to: Db, at: int, budget: nat)
    requires TurnsClosed(db, one, LiveTurns(db), at)
    requires InputsQueued(one, two, ReplayRows(db))
    requires OnlyGivenUp(two, to, SpentRows(db, budget))
    ensures Recovered(db, to, budget)
  {
    hide Answered;
  }

  // --------------------------------------------------------- planning it again

  lemma {:induction false} InsertAgrees<T(!new)>(k1: T -> SortKey, k2: T -> SortKey, x: T, s: seq<T>)
    requires k1(x) == k2(x) && forall y :: y in s ==> k1(y) == k2(y)
    ensures Insert(By(k1), x, s) == Insert(By(k2), x, s)
  {
    if s != [] {
      assert s == [s[0]] + s[1..];
      InsertAgrees(k1, k2, x, s[1..]);
    }
  }

  /** Sorting looks at the keys of the rows it sorts and at nothing else. */
  lemma {:induction false} SortByAgrees<T(!new)>(k1: T -> SortKey, k2: T -> SortKey, s: seq<T>)
    requires forall y :: y in s ==> k1(y) == k2(y)
    ensures SortBy(By(k1), s) == SortBy(By(k2), s)
  {
    if s != [] {
      assert s == [s[0]] + s[1..];
      SortByAgrees(k1, k2, s[1..]);
      SortByPermutes(By(k1), s[1..]);
      InsertAgrees(k1, k2, s[0], SortBy(By(k1), s[1..]));
    }
  }

  function AgainQueued(c: Candidate): Candidate {
    c.(input := QueuedInput(c.input))
  }

  function QueuedInput(i: RequeuedInput): RequeuedInput {
    i.(record := i.record.(row := i.record.row.(disposition := Queued)))
  }

  function AllQueued(cs: seq<Candidate>): seq<Candidate> {
    if cs == [] then [] else [AgainQueued(cs[0])] + AllQueued(cs[1..])
  }

  function QueuedInputs(inputs: seq<RequeuedInput>): seq<RequeuedInput> {
    seq(|inputs|, i requires 0 <= i < |inputs| => QueuedInput(inputs[i]))
  }

  lemma {:induction false} InsertQueued(c: Candidate, cs: seq<Candidate>)
    ensures Insert(By(ReplayKey), AgainQueued(c), AllQueued(cs)) == AllQueued(Insert(By(ReplayKey), c, cs))
  {
    assert forall x :: ReplayKey(AgainQueued(x)) == ReplayKey(x);
    if cs != [] {
      InsertQueued(c, cs[1..]);
      assert ([c] + cs)[1..] == cs;
      assert AllQueued(cs)[1..] == AllQueued(cs[1..]);
      assert ([cs[0]] + Insert(By(ReplayKey), c, cs[1..]))[1..] == Insert(By(ReplayKey), c, cs[1..]);
      hide ReplayKey;
    }
  }

  lemma {:induction false} SortQueued(cs: seq<Candidate>)
    ensures SortBy(By(ReplayKey), AllQueued(cs)) == AllQueued(SortBy(By(ReplayKey), cs))
  {
    if cs != [] {
      SortQueued(cs[1..]);
      InsertQueued(cs[0], SortBy(By(ReplayKey), cs[1..]));
      assert AllQueued(cs)[1..] == AllQueued(cs[1..]);
    }
  }

  lemma {:induction false} AllQueuedAppend(cs: seq<Candidate>, c: Candidate)
    ensures AllQueued(cs + [c]) == AllQueued(cs) + [AgainQueued(c)]
  {
    if cs != [] {
      AllQueuedAppend(cs[1..], c);
      assert (cs + [c])[1..] == cs[1..] + [c];
    }
  }

  lemma {:induction false} AllQueuedAt(cs: seq<Candidate>)
    ensures |AllQueued(cs)| == |cs| && forall i :: 0 <= i < |cs| ==> AllQueued(cs)[i] == AgainQueued(cs[i])
  {
    if cs != [] { AllQueuedAt(cs[1..]); }
  }

  lemma {:induction false} SameLatest(db: Db, to: Db, budget: nat, intents: seq<string>, turnId: string)
    requires Recovered(db, to, budget)
    requires forall l :: l in intents ==> l in db.intents
    ensures LatestAmong(to, intents, turnId) == LatestAmong(db, intents, turnId)
  {
    if intents != [] {
      SameLatest(db, to, budget, intents[1..], turnId);
      assert intents[0] in intents;
      assert to.intents[intents[0]].turnId == db.intents[intents[0]].turnId;
      assert to.intents[intents[0]].createdAt == db.intents[intents[0]].createdAt;
    }
  }

  /** What recovery writes does not change which inputs count as answered. */
  lemma SameAnswers(db: Db, to: Db, budget: nat, id: string)
    requires Recovered(db, to, budget) && id in db.inbox
    ensures Answered(to, id) == Answered(db, id)
  {
    assert to.inbox[id].turnId == db.inbox[id].turnId;
    assert to.intents.Keys == db.intents.Keys && to.inputs == db.inputs;
    if db.inbox[id].turnId.Some? {
      hide ToReplay;
      SameLatest(db, to, budget, KeysInOrder(db.intents.Keys), db.inbox[id].turnId.value);
    }
  }

  lemma SameCandidate(db: Db, to: Db, budget: nat, id: string)
    requires Recovered(db, to, budget)
    requires id in db.inbox && Unsettled(db.inbox[id].disposition) && !Answered(db, id)
    ensures CandidateFor(to, id) == AgainQueued(CandidateFor(db, id))
  {
    assert id in db.inbox;
    hide Answered;
    assert to.inbox[id] == db.inbox[id].(disposition := Queued);
  }

  lemma {:induction false} SameConsidered(db: Db, to: Db, budget: nat, ids: seq<string>)
    requires Recovered(db, to, budget)
    requires forall id :: id in ids ==> id in db.inbox && Unsettled(db.inbox[id].disposition)
    ensures to.inbox.Keys == db.inbox.Keys
    ensures Considered(to, ids) == AllQueued(Considered(db, ids))
  {
    SameKeys(db, to, budget);
    if ids != [] {
      hide *;
      var front, last := ids[..|ids| - 1], ids[|ids| - 1];
      assert last in ids;
      ConsideredStep(db, ids);
      ConsideredStep(to, ids);
      SameConsidered(db, to, budget, front);
      SameAnswers(db, to, budget, last);
      if !Answered(db, last) {
        SameCandidate(db, to, budget, last);
        AllQueuedAppend(Considered(db, front), CandidateFor(db, last));
      } else {
        assert Considered(db, ids) == Considered(db, front);
        assert Considered(to, ids) == Considered(to, front);
      }
    }
  }

  lemma SameKeys(db: Db, to: Db, budget: nat)
    requires Recovered(db, to, budget)
    ensures to.inbox.Keys == db.inbox.Keys
  {
  }

  lemma SameUnsettled(db: Db, to: Db, budget: nat)
    requires Recovered(db, to, budget)
    ensures UnsettledChannels(to) == UnsettledChannels(db)
    ensures forall c :: UnsettledForChannel(to, c) == UnsettledForChannel(db, c)
  {
    hide Answered;
    assert forall id :: id in db.inbox ==>
      && id in to.inbox && Unsettled(to.inbox[id].disposition) == Unsettled(db.inbox[id].disposition)
      && to.inbox[id].channelId == db.inbox[id].channelId && RowKey(to, id) == RowKey(db, id);
    hide Recovered, ToReplay;
    assert (set id | id in db.inbox && Unsettled(db.inbox[id].disposition) :: db.inbox[id].channelId)
      == (set id | id in to.inbox && Unsettled(to.inbox[id].disposition) :: to.inbox[id].channelId);
    forall c ensures UnsettledForChannel(to, c) == UnsettledForChannel(db, c) {
      assert UnsettledIn(to, c) == UnsettledIn(db, c);
      SortByAgrees(id => RowKey(to, id), id => RowKey(db, id), KeysInOrder(UnsettledIn(db, c)));
    }
  }

  /** A channel replays the same candidates in the same order. */
  lemma SameChannelReplay(db: Db, to: Db, budget: nat, channelId: string)
    requires Recovered(db, to, budget)
    ensures ChannelReplay(to, channelId) == AllQueued(ChannelReplay(db, channelId))
  {
    var ids := UnsettledForChannel(db, channelId);
    SameUnsettled(db, to, budget);
    UnsettledRows(db, channelId);
    UnsettledRows(to, channelId);
    assert forall id :: id in ids ==> id in db.inbox && Unsettled(db.inbox[id].disposition);
    hide UnsettledForChannel, UnsettledIn, Recovered, By, ReplayKey, Considered;
    SameConsidered(db, to, budget, ids);
    SortQueued(Considered(db, ids));
  }

  lemma {:induction false} SameRequeue(db: Db, to: Db, budget: nat, channels: seq<string>)
    requires Recovered(db, to, budget)
    ensures RequeueFor(to, channels) == QueuedInputs(RequeueFor(db, channels))
  {
    if channels != [] {
      var front, last := channels[..|channels| - 1], channels[|channels| - 1];
      SameRequeue(db, to, budget, front);
      SameChannelReplay(db, to, budget, last);
      hide *;
      RequeueStep(db, channels);
      RequeueStep(to, channels);
      ReplayedQueued(ChannelReplay(db, last));
      QueuedConcat(RequeueFor(db, front), Replayed(ChannelReplay(db, last)));
    } else {
      assert QueuedInputs([]) == [];
    }
  }

  lemma RequeueStep(db: Db, channels: seq<string>)
    requires channels != []
    ensures RequeueFor(db, channels) ==
      RequeueFor(db, channels[..|channels| - 1]) + Replayed(ChannelReplay(db, channels[|channels| - 1]))
  {
  }

  lemma ReplayedQueued(cs: seq<Candidate>)
    ensures Replayed(AllQueued(cs)) == QueuedInputs(Replayed(cs))
  {
    AllQueuedAt(cs);
  }

  lemma QueuedConcat(a: seq<RequeuedInput>, b: seq<RequeuedInput>)
    ensures QueuedInputs(a + b) == QueuedInputs(a) + QueuedInputs(b)
  {
  }

  lemma SameUnsigned(db: Db, to: Db, budget: nat)
    requires Recovered(db, to, budget)
    ensures M.UnsignedIntents(to) == M.UnsignedIntents(db)
    ensures forall l :: l in M.UnsignedIntents(db) ==>
      l in db.intents && l in to.intents && to.intents[l] == db.intents[l]
  {
    hide Answered, ToReplay;
    var ids := set l | l in db.intents && db.intents[l].state == Pending && l !in db.outbox;
    assert ids == (set l | l in to.intents && to.intents[l].state == Pending && l !in to.outbox);
    UnsignedRows(db);
    assert forall l :: l in ids ==> to.intents[l] == db.intents[l];
    hide Recovered;
    SortByAgrees(
      l => if l in db.intents then SortKey(0, db.intents[l].turnId, db.intents[l].ordinal, 0, l)
           else SortKey(0, "", 0, 0, l),
      l => if l in to.intents then SortKey(0, to.intents[l].turnId, to.intents[l].ordinal, 0, l)
           else SortKey(0, "", 0, 0, l),
      KeysInOrder(ids));
  }

  lemma NothingLeftToClose(db: Db, to: Db, budget: nat)
    requires Recovered(db, to, budget)
    ensures Unfinished(to) == []
  {
    hide Answered, ToReplay;
    assert LiveTurns(to) == {};
    SortByPermutes(By(id => TurnKey(to, id)), KeysInOrder(LiveTurns(to)));
  }

  lemma SameOwed(db: Db, to: Db, budget: nat, e: Entry<OutboxRow>)
    requires Recovered(db, to, budget)
    ensures IsOwed(to, e) <==> IsOwed(db, e) && e.row.attempts < budget
  {
    hide Answered, ToReplay;
  }

  lemma NothingLeftToBury(db: Db, to: Db, now: int, budget: nat)
    requires Recovered(db, to, budget)
    ensures Sharing(Owed(to), now, budget, Spent) == []
  {
    hide Recovered, Owed, IsOwed;
    var spent := Sharing(Owed(to), now, budget, Spent);
    if spent != [] {
      var e := spent[0];
      assert e in spent;
      SharingHolds(Owed(to), now, budget, Spent, e);
      OwedHolds(to, e);
      SameOwed(db, to, budget, e);
    }
  }

  // ------------------------------------------------------------- main results

  /** Planning again, at any later time, over a recovered store: no turn to interrupt and no
      row to give up on, the same replay list with every row now queued, the same sign list,
      and the same rows owed to the relay; at the same time, each with the same fate. */
  lemma RecoveryIsIdempotent(db: Db, now: int, later: int, budget: nat, at: int, e: Entry<OutboxRow>)
    ensures var plan := PlanFor(db, now, budget);
      var again := PlanFor(Applied(db, plan, at), later, budget);
      && again.interrupt == [] && again.deadLetter == []
      && again.requeue == QueuedInputs(plan.requeue)
      && again.sign == plan.sign
      && (e in again.resend || e in again.deferred <==> e in plan.resend || e in plan.deferred)
      && (now <= later && e in plan.resend ==> e in again.resend)
      && (later == now ==>
            (e in again.resend <==> e in plan.resend) && (e in again.deferred <==> e in plan.deferred))
  {
    var plan := PlanFor(db, now, budget);
    var to := Applied(db, plan, at);
    ApplyingAPlan(db, now, budget, at);
    PlanningAgain(db, to, now, later, budget);
    PlanHolds(db, now, budget, e);
    PlanHolds(to, later, budget, e);
    SameOwed(db, to, budget, e);
    hide PlanFor, Applied, Recovered, IsOwed;
  }

  lemma PlanningAgain(db: Db, to: Db, now: int, later: int, budget: nat)
    requires Recovered(db, to, budget)
    ensures var plan, again := PlanFor(db, now, budget), PlanFor(to, later, budget);
      && again.interrupt == [] && again.deadLetter == []
      && again.requeue == QueuedInputs(plan.requeue)
      && again.sign == plan.sign
  {
    SameUnsettled(db, to, budget);
    SameRequeue(db, to, budget, UnsettledChannels(db));
    SameUnsigned(db, to, budget);
    NothingLeftToClose(db, to, budget);
    NothingLeftToBury(db, to, later, budget);
    PlanParts(db, now, budget);
    PlanParts(to, later, budget);
    hide Recovered, UnsettledChannels, UnsettledForChannel, RequeueFor, QueuedInputs, M.UnsignedIntents,
      Unfinished, Sharing, Owed;
  }

  lemma {:induction false} QueueingAgainChangesNothing(to: Db, inputs: seq<RequeuedInput>)
    requires forall i :: 0 <= i < |inputs| ==>
      var id := inputs[i].record.id; id in to.inbox && to.inbox[id].disposition == Queued
    ensures Requeued(to, inputs) == to
  {
    if inputs != [] {
      QueueingAgainChangesNothing(to, inputs[..|inputs| - 1]);
      var id := inputs[|inputs| - 1].record.id;
      assert to.inbox[id := to.inbox[id].(disposition := Queued)] == to.inbox;
    }
  }

  /** Recovering twice leaves the store recovering once left, whatever the clock says. */
  lemma RecoveringTwiceIsRecoveringOnce(db: Db, now: int, later: int, budget: nat, at: int, laterAt: int)
    ensures var once := Applied(db, PlanFor(db, now, budget), at);
      Applied(once, PlanFor(once, later, budget), laterAt) == once
  {
    var plan := PlanFor(db, now, budget);
    var once := Applied(db, plan, at);
    var again := PlanFor(once, later, budget);
    ApplyingAPlan(db, now, budget, at);
    PlanningAgain(db, once, now, later, budget);
    AllAreQueued(db, once, budget);
    PlanParts(once, later, budget);
    hide PlanFor, Recovered, Requeue;
    QueueingAgainChangesNothing(once, again.requeue);
  }

  lemma AllAreQueued(db: Db, to: Db, budget: nat)
    requires Recovered(db, to, budget)
    ensures forall i :: 0 <= i < |Requeue(to)| ==>
      var id := Requeue(to)[i].record.id; id in to.inbox && to.inbox[id].disposition == Queued
  {
    forall i | 0 <= i < |Requeue(to)|
      ensures var id := Requeue(to)[i].record.id; id in to.inbox && to.inbox[id].disposition == Queued
    {
      var id := Requeue(to)[i].record.id;
      hide Requeue, Answered;
      assert Replays(Requeue(to), id);
      RequeueIsExact(to, id);
      assert ToReplay(to, id);
      SameAnswers(db, to, budget, id);
    }
  }

  /** Under the publisher's own limits recovery has nothing to give up on. */
  lemma NoRowIsEverSpent(s: M.System, limits: M.Limits, now: int, budget: nat)
    requires P.Valid(s, limits) && budget >= limits.maxAttempts
    ensures PlanFor(s.db, now, budget).deadLetter == []
  {
    PlanParts(s.db, now, budget);
    var spent := Sharing(Owed(s.db), now, budget, Spent);
    hide PlanFor, Owed;
    if spent != [] {
      assert spent[0] in spent;
      SharingHolds(Owed(s.db), now, budget, Spent, spent[0]);
      OwedHolds(s.db, spent[0]);
    }
  }

  /** So with the limits the program comes with, in every run from an empty store. */
  lemma NoDefaultRunSpendsARow(trace: seq<M.System>, steps: seq<M.Step>, n: nat, now: int)
    requires P.Follows(trace, M.DEFAULT_LIMITS, steps) && trace[0] == P.NEW_SYSTEM && n < |trace|
    ensures PlanFor(trace[n].db, now, DEFAULT_MAX_PUBLISH_ATTEMPTS).deadLetter == []
  {
    P.EveryRunIsFaithful(trace, M.DEFAULT_LIMITS, steps);
    assert P.Valid(trace[n], M.DEFAULT_LIMITS);
    hide P.Valid, P.Follows, PlanFor;
    NoRowIsEverSpent(trace[n], M.DEFAULT_LIMITS, now, DEFAULT_MAX_PUBLISH_ATTEMPTS);
  }
}
