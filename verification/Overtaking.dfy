/** Order across drains: a row that backs off is overtaken by later rows of its turn. */
module Overtaking {
  import opened Basics
  import opened Tables
  import opened Ordering
  import opened OutboxModel
  import opened OutboxProofs
  import opened TurnOrder
  import opened Publishers
  import MessageSplit
  import LogicalIds

  /** The row waits for its retry time. */
  predicate BacksOff(row: OutboxRow, now: int) { row.nextRetryAt.Some? && row.nextRetryAt.value > now }

  /** A row of the turn the relay has not acknowledged. */
  predicate OwedOf(db: Db, l: string, t: string) {
    l in db.outbox && Owed(db.outbox[l].state) && Belongs(db, l, t)
  }

  /** Row `k` of a turn is to go out before row `l` of it. */
  predicate Before(db: Db, k: string, l: string) { k != l && KeyLe(Place(db, k), Place(db, l)) }

  predicate Tries(log: seq<Attempt>, l: string) { exists i :: 0 <= i < |log| && log[i].record.logicalId == l }

  /** The drain attempts a row of the turn and leaves out one that is to go before it. */
  ghost predicate Overtakes(db: Db, now: int, t: string, replies: seq<Reply>) {
    var log := Attempts(Drain(db, now), {}, replies);
    exists k, l :: OwedOf(db, k, t) && OwedOf(db, l, t) && Before(db, k, l) && Tries(log, l) && !Tries(log, k)
  }

  /** Owed rows of the turn: `k`, which backs off, is to go out before `l`, which does not. */
  predicate CanBeOvertaken(db: Db, now: int, t: string, k: string, l: string) {
    && OwedOf(db, k, t) && OwedOf(db, l, t) && Before(db, k, l)
    && BacksOff(db.outbox[k], now) && !BacksOff(db.outbox[l], now)
  }

  // ------------------------------------------------------- what a drain attempts

  /** The relay refused a row of the turn. */
  predicate Refuses(log: seq<Attempt>, t: string) {
    exists i :: 0 <= i < |log| && TurnOf(log[i].record) == t && !log[i].reply.answer.Accepted?
  }

  ghost predicate Once(due: seq<Record>) {
    forall i, j :: 0 <= i < j < |due| ==> due[i].logicalId != due[j].logicalId
  }

  lemma {:induction false} OnlyDueIsTried(due: seq<Record>, blocked: set<string>, replies: seq<Reply>, l: string)
    requires Tries(Attempts(due, blocked, replies), l)
    ensures exists i :: 0 <= i < |due| && due[i].logicalId == l
    decreases |due|
  {
    hide TurnOf;
    var log := Attempts(due, blocked, replies);
    var i :| 0 <= i < |log| && log[i].record.logicalId == l;
    if TurnOf(due[0]) in blocked {
      OnlyDueIsTried(due[1..], blocked, replies, l);
    } else if i > 0 {
      var next := if replies[0].answer.Accepted? then blocked else blocked + {TurnOf(due[0])};
      var rest := Attempts(due[1..], next, replies[1..]);
      assert log[1..] == rest && rest[i - 1] == log[i];
      OnlyDueIsTried(due[1..], next, replies[1..], l);
    }
  }

  /** The row at `i` is attempted exactly when the rows before it left a reply over and no row
      of its turn among them was refused. */
  ghost predicate Reaches(due: seq<Record>, i: nat, blocked: set<string>, replies: seq<Reply>)
    requires i < |due|
  {
    var log := Attempts(due[..i], blocked, replies);
    TurnOf(due[i]) !in blocked && |log| < |replies| && !Refuses(log, TurnOf(due[i]))
  }

  lemma {:induction false} ARowIsAttemptedExactlyWhen(due: seq<Record>, i: nat, blocked: set<string>, replies: seq<Reply>)
    requires i < |due| && Once(due)
    ensures Tries(Attempts(due, blocked, replies), due[i].logicalId) <==> Reaches(due, i, blocked, replies)
    decreases i
  {
    var log, l := Attempts(due, blocked, replies), due[i].logicalId;
    if replies == [] {
    } else if i == 0 {
      FirstIsAttempted(due, blocked, replies);
    } else if TurnOf(due[0]) in blocked {
      assert due[..i][1..] == due[1..][..i - 1];
      ARowIsAttemptedExactlyWhen(due[1..], i - 1, blocked, replies);
    } else {
      var next := if replies[0].answer.Accepted? then blocked else blocked + {TurnOf(due[0])};
      assert due[..i][1..] == due[1..][..i - 1];
      ARowIsAttemptedExactlyWhen(due[1..], i - 1, next, replies[1..]);
      var first := Attempt(due[0], replies[0]);
      hide TurnOf;
      OneMoreTried(first, Attempts(due[1..], next, replies[1..]), l);
      OneMoreRefused(first, Attempts(due[1..][..i - 1], next, replies[1..]), TurnOf(due[i]));
    }
  }

  lemma FirstIsAttempted(due: seq<Record>, blocked: set<string>, replies: seq<Reply>)
    requires due != [] && replies != [] && Once(due)
    ensures Tries(Attempts(due, blocked, replies), due[0].logicalId) <==> TurnOf(due[0]) !in blocked
  {
    hide TurnOf;
    var log := Attempts(due, blocked, replies);
    if TurnOf(due[0]) !in blocked { assert log[0].record == due[0]; }
    if TurnOf(due[0]) in blocked && Tries(log, due[0].logicalId) {
      OnlyDueIsTried(due[1..], blocked, replies, due[0].logicalId);
    }
  }

  lemma OneMoreTried(first: Attempt, rest: seq<Attempt>, l: string)
    ensures Tries([first] + rest, l) <==> first.record.logicalId == l || Tries(rest, l)
  {
    var log := [first] + rest;
    assert log[0] == first && forall i :: 0 <= i < |rest| ==> log[i + 1] == rest[i];
  }

  lemma OneMoreRefused(first: Attempt, rest: seq<Attempt>, t: string)
    ensures Refuses([first] + rest, t) <==> (TurnOf(first.record) == t && !first.reply.answer.Accepted?) || Refuses(rest, t)
  {
    hide TurnOf;
    var log := [first] + rest;
    assert log[0] == first && forall i :: 0 <= i < |rest| ==> log[i + 1] == rest[i];
  }

  /** What was attempted by row `h` stays attempted at row `i`. */
  lemma {:induction false} AttemptsGrow(due: seq<Record>, h: nat, i: nat, blocked: set<string>, replies: seq<Reply>)
    requires h <= i <= |due|
    ensures Attempts(due[..h], blocked, replies) <= Attempts(due[..i], blocked, replies)
    decreases h
  {
    hide TurnOf;
    if h > 0 && replies != [] {
      assert due[..h][1..] == due[1..][..h - 1] && due[..i][1..] == due[1..][..i - 1];
      if TurnOf(due[0]) in blocked {
        AttemptsGrow(due[1..], h - 1, i - 1, blocked, replies);
      } else {
        AttemptsGrow(due[1..], h - 1, i - 1,
          if replies[0].answer.Accepted? then blocked else blocked + {TurnOf(due[0])}, replies[1..]);
      }
    }
  }

  lemma ReachingReachesBack(due: seq<Record>, h: nat, i: nat, replies: seq<Reply>)
    requires h < i < |due| && TurnOf(due[h]) == TurnOf(due[i]) && Reaches(due, i, {}, replies)
    ensures Reaches(due, h, {}, replies)
  {
    AttemptsGrow(due, h, i, {}, replies);
    hide TurnOf;
    var few, many := Attempts(due[..h], {}, replies), Attempts(due[..i], {}, replies);
    assert forall x :: 0 <= x < |few| ==> many[x] == few[x];
  }

  // ------------------------------------------------------------------ overtaking

  lemma DrainIsOnce(db: Db, now: int)
    ensures Once(Drain(db, now))
  {
    var drain := Drain(db, now);
    hide Drain;
    forall i, j | 0 <= i < j < |drain| ensures drain[i].logicalId != drain[j].logicalId {
      DrainRowsDiffer(db, now, i, j);
    }
  }

  /** Where a due row stands in the drain. */
  ghost predicate StandsAt(db: Db, now: int, l: string, i: nat) {
    i < |Drain(db, now)| && Drain(db, now)[i].logicalId == l
  }

  /** The drain has a reply left when it comes to row `l`, and the relay refused no row of the
      turn before that. */
  ghost predicate GetsTo(db: Db, now: int, l: string, replies: seq<Reply>) {
    exists i :: StandsAt(db, now, l, i) && Reaches(Drain(db, now), i, {}, replies)
  }

  lemma TriedExactlyWhen(db: Db, now: int, l: string, replies: seq<Reply>)
    ensures Tries(Attempts(Drain(db, now), {}, replies), l) <==> GetsTo(db, now, l, replies)
  {
    var drain := Drain(db, now);
    DrainIsOnce(db, now);
    hide Drain, Reaches;
    if Tries(Attempts(drain, {}, replies), l) {
      OnlyDueIsTried(drain, {}, replies, l);
      var i :| 0 <= i < |drain| && drain[i].logicalId == l;
      ARowIsAttemptedExactlyWhen(drain, i, {}, replies);
      assert StandsAt(db, now, l, i);
    }
    if GetsTo(db, now, l, replies) {
      var i :| StandsAt(db, now, l, i) && Reaches(drain, i, {}, replies);
      ARowIsAttemptedExactlyWhen(drain, i, {}, replies);
    }
  }

  /** An owed row is in the drain exactly when it does not back off. */
  lemma StandsUnlessBackingOff(db: Db, now: int, l: string, t: string)
    requires OwedOf(db, l, t)
    ensures (exists i :: StandsAt(db, now, l, i)) <==> !BacksOff(db.outbox[l], now)
  {
    DrainIsWhatIsDue(db, now, l);
    hide Drain, Belongs;
    if i :| 0 <= i < |Drain(db, now)| && Drain(db, now)[i].logicalId == l { assert StandsAt(db, now, l, i); }
  }

  /** A row that is due is attempted whenever a later one of its turn is. */
  lemma TheEarlierIsTriedToo(db: Db, now: int, t: string, replies: seq<Reply>, k: string, l: string)
    requires OwedOf(db, k, t) && OwedOf(db, l, t) && Before(db, k, l)
    requires !BacksOff(db.outbox[k], now) && GetsTo(db, now, l, replies)
    ensures GetsTo(db, now, k, replies)
  {
    StandsUnlessBackingOff(db, now, k, t);
    var h :| StandsAt(db, now, k, h);
    var i :| StandsAt(db, now, l, i) && Reaches(Drain(db, now), i, {}, replies);
    hide Reaches, Drain;
    if h < i {
      ReachingReachesBack(Drain(db, now), h, i, replies);
    } else {
      ATurnGoesOutByChunkThenOrdinal(db, now, t, i, h);
      KeyLeTotal(Place(db, k), Place(db, l));
    }
  }

  /** One row is left out and a later one attempted. */
  lemma APairIsOvertakenExactlyWhen(db: Db, now: int, t: string, replies: seq<Reply>, k: string, l: string)
    requires OwedOf(db, k, t) && OwedOf(db, l, t) && Before(db, k, l)
    ensures var log := Attempts(Drain(db, now), {}, replies);
      (Tries(log, l) && !Tries(log, k)) <==> (CanBeOvertaken(db, now, t, k, l) && GetsTo(db, now, l, replies))
  {
    TriedExactlyWhen(db, now, k, replies);
    TriedExactlyWhen(db, now, l, replies);
    StandsUnlessBackingOff(db, now, k, t);
    StandsUnlessBackingOff(db, now, l, t);
    hide Drain, Attempts, Tries, Reaches, Before, OwedOf, BacksOff, StandsAt;
    if !BacksOff(db.outbox[k], now) && GetsTo(db, now, l, replies) {
      TheEarlierIsTriedToo(db, now, t, replies, k, l);
    }
  }

  /** A drain overtakes a row of the turn exactly when one that backs off is to go before one
      that is due, the drain has a reply left when it comes to the latter, and the relay refused
      no row of the turn before that. */
  lemma ADrainOvertakesExactlyWhen(db: Db, now: int, t: string, replies: seq<Reply>)
    ensures Overtakes(db, now, t, replies) <==>
      exists k, l :: CanBeOvertaken(db, now, t, k, l) && GetsTo(db, now, l, replies)
  {
    hide Before, BacksOff, OwedOf, Drain, Attempts, Tries, GetsTo;
    forall k, l | OwedOf(db, k, t) && OwedOf(db, l, t) && Before(db, k, l)
      ensures var log := Attempts(Drain(db, now), {}, replies);
        (Tries(log, l) && !Tries(log, k)) <==> (CanBeOvertaken(db, now, t, k, l) && GetsTo(db, now, l, replies))
    {
      APairIsOvertakenExactlyWhen(db, now, t, replies, k, l);
    }
  }

  lemma {:induction false} AllAccepted(due: seq<Record>, blocked: set<string>, replies: seq<Reply>)
    requires forall r :: r in replies ==> r.answer.Accepted?
    ensures var log := Attempts(due, blocked, replies);
      |log| <= |due| && forall a :: a in log ==> a.reply.answer.Accepted?
    decreases |due|
  {
    hide TurnOf;
    if due != [] && replies != [] {
      if TurnOf(due[0]) in blocked { AllAccepted(due[1..], blocked, replies); }
      else { AllAccepted(due[1..], blocked, replies[1..]); }
    }
  }

  /** Whatever the relay has done so far, a drain may overtake a row of the turn exactly when a
      row that backs off is to go before one that is due. */
  lemma ADrainCanOvertakeExactlyWhen(db: Db, now: int, t: string)
    ensures (exists replies :: Overtakes(db, now, t, replies)) <==>
      exists k, l :: CanBeOvertaken(db, now, t, k, l)
  {
    hide Before, Belongs, Overtakes, GetsTo, Drain;
    if replies :| Overtakes(db, now, t, replies) { ADrainOvertakesExactlyWhen(db, now, t, replies); }
    if k, l :| CanBeOvertaken(db, now, t, k, l) {
      var replies := AllGetThrough(db, now, l, t);
      ADrainOvertakesExactlyWhen(db, now, t, replies);
    }
  }

  lemma AllGetThrough(db: Db, now: int, l: string, t: string) returns (replies: seq<Reply>)
    requires OwedOf(db, l, t) && !BacksOff(db.outbox[l], now)
    ensures GetsTo(db, now, l, replies)
  {
    StandsUnlessBackingOff(db, now, l, t);
    hide TurnOf, BacksOff, OwedOf;
    var i: nat :| StandsAt(db, now, l, i);
    var drain := Drain(db, now);
    assert i < |drain| && drain[i].logicalId == l;
    replies := seq(|drain|, _ => Reply(Accepted, now));
    hide Drain;
    AllAccepted(drain[..i], {}, replies);
    var log := Attempts(drain[..i], {}, replies);
    assert forall x :: 0 <= x < |log| ==> log[x] in log;
    assert Reaches(drain, i, {}, replies);
  }

  // ---------------------------------------------------------------------- a run

  lemma OnlyOneDue(db: Db, now: int, l: string)
    requires Candidates(db, Some(now)) == {l}
    ensures multiset([l]) == multiset(DuePublishes(db, Some(now)))
  {
    DueIsEveryCandidateOnce(db, Some(now));
    var due := DuePublishes(db, Some(now));
    hide DuePublishes, Candidates;
    assert due[0] in due;
    assert due == [l];
  }

  /** A store with one row, failed once and backing off, or published, beside at most one other. */
  ghost predicate Holds(s: System, rows: map<string, OutboxRow>) {
    s.db.outbox == rows && s.db.intents.Keys == rows.Keys && s.rest == [] && s.waiting.None?
  }

  lemma RecordsNew(s: System, limits: Limits, rows: map<string, OutboxRow>, l: string, turnId: string,
                   content: MessageSplit.Text, event: SignedEvent, now: int)
    requires Holds(s, rows) && l !in rows
    ensures var step := RecordChunk(l, turnId, content, event, now, Whole);
      && Possible(s, step)
      && Holds(Next(s, limits, step), rows[l := OutboxModel.Fresh(event, now)])
      && Next(s, limits, step).log == s.log + [Stored(l, event)]
  {
  }

  /** A drain whose only due row is `l`: read, sent and answered. */
  lemma DrainsOne(s: System, limits: Limits, rows: map<string, OutboxRow>, l: string, now: int, answer: Answer)
    requires Holds(s, rows) && l in rows && rows[l].state == OutPending && rows[l].attempts == 0
    requires Candidates(s.db, Some(now)) == {l} && limits.maxAttempts > 1
    requires answer.Accepted? || !answer.terminal
    ensures var started := s.(rest := [Record(l, rows[l].event, 0)]);
      && Possible(s, StartDrain([l], now)) && Next(s, limits, StartDrain([l], now)) == started
      && Possible(started, TakeNext(false))
    ensures var sent := s.(waiting := Some(Record(l, rows[l].event, 0)), log := s.log + [Act.Sent(l, rows[l].event)]);
      && Next(s.(rest := [Record(l, rows[l].event, 0)]), limits, TakeNext(false)) == sent
      && Possible(sent, Answered(answer, now))
      && var done := Next(sent, limits, Answered(answer, now));
         && Holds(done, rows[l := if answer.Accepted? then rows[l].(state := OutPublished, nextRetryAt := None)
              else rows[l].(state := OutFailed, attempts := 1, lastError := Some(answer.message),
                            nextRetryAt := Some(now + RetryDelay(limits, 1)))])
         && done.log == sent.log + if answer.Accepted? then [Acked(l)] else []
  {
    OnlyOneDue(s.db, now, l);
    hide DuePublishes, Candidates, RetryDelay;
    var started := Next(s, limits, StartDrain([l], now));
    assert started.rest == [Record(l, rows[l].event, 0)];
    assert started.rest[1..] == [];
  }

  /** A run of a new system that ends in `last`. */
  ghost predicate Reached(limits: Limits, trace: seq<System>, steps: seq<Step>, last: System) {
    Follows(trace, limits, steps) && trace[0] == NEW_SYSTEM && trace[|steps|] == last
  }

  lemma Extended(limits: Limits, trace: seq<System>, steps: seq<Step>, last: System, step: Step)
    returns (longer: seq<System>, more: seq<Step>)
    requires Reached(limits, trace, steps, last) && Possible(last, step)
    ensures Reached(limits, longer, more, Next(last, limits, step))
    ensures longer == trace + [Next(last, limits, step)] && more == steps + [step]
  {
    hide Next, Possible;
    longer, more := trace + [Next(last, limits, step)], steps + [step];
    forall i | 0 <= i < |more| ensures Possible(longer[i], more[i]) && longer[i + 1] == Next(longer[i], limits, more[i]) {
      if i < |steps| { assert longer[i] == trace[i] && longer[i + 1] == trace[i + 1] && more[i] == steps[i]; }
    }
  }

  /** One drain of one due row, as three more steps of a run. */
  lemma Drained(limits: Limits, trace: seq<System>, steps: seq<Step>, s: System, rows: map<string, OutboxRow>,
                l: string, now: int, answer: Answer)
    returns (longer: seq<System>, more: seq<Step>, last: System)
    requires Reached(limits, trace, steps, s)
    requires Holds(s, rows) && l in rows && rows[l].state == OutPending && rows[l].attempts == 0
    requires Candidates(s.db, Some(now)) == {l} && limits.maxAttempts > 1
    requires answer.Accepted? || !answer.terminal
    ensures Reached(limits, longer, more, last)
    ensures Holds(last, rows[l := if answer.Accepted? then rows[l].(state := OutPublished, nextRetryAt := None)
      else rows[l].(state := OutFailed, attempts := 1, lastError := Some(answer.message),
                    nextRetryAt := Some(now + RetryDelay(limits, 1)))])
    ensures last.log == s.log + [Act.Sent(l, rows[l].event)] + if answer.Accepted? then [Acked(l)] else []
  {
    DrainsOne(s, limits, rows, l, now, answer);
    hide Next, Possible, Holds, Candidates, RetryDelay;
    longer, more := Extended(limits, trace, steps, s, StartDrain([l], now));
    var started := Next(s, limits, StartDrain([l], now));
    longer, more := Extended(limits, longer, more, started, TakeNext(false));
    var sent := Next(started, limits, TakeNext(false));
    longer, more := Extended(limits, longer, more, sent, Answered(answer, now));
    last := Next(sent, limits, Answered(answer, now));
  }

  lemma ChunksDiffer(turnId: string, messageId: string)
    ensures LogicalIds.LogicalId(turnId, messageId, 0) != LogicalIds.LogicalId(turnId, messageId, 1)
  {
    var l1, l2 := LogicalIds.LogicalId(turnId, messageId, 0), LogicalIds.LogicalId(turnId, messageId, 1);
    assert l1[|l1| - 1] == '0' && l2[|l2| - 1] == '1';
  }

  /** The first chunk of a message fails once and backs off; the second, recorded meanwhile, is
      published by the next drain while the first is still owed. */
  lemma ALaterRowCanBePublishedFirst(
    limits: Limits, turnId: string, messageId: string, text: MessageSplit.Text,
    first: SignedEvent, second: SignedEvent, error: string)
    returns (trace: seq<System>, steps: seq<Step>, last: System)
    requires limits.maxAttempts > 1 && limits.baseRetryMs > 0 && limits.maxRetryMs > 0
    ensures Reached(limits, trace, steps, last)
    ensures var l1, l2 := LogicalIds.LogicalId(turnId, messageId, 0), LogicalIds.LogicalId(turnId, messageId, 1);
      && last.log == [Stored(l1, first), Act.Sent(l1, first), Stored(l2, second), Act.Sent(l2, second), Acked(l2)]
      && l1 in last.db.outbox && Owed(last.db.outbox[l1].state)
  {
    var l1, l2 := LogicalIds.LogicalId(turnId, messageId, 0), LogicalIds.LogicalId(turnId, messageId, 1);
    ChunksDiffer(turnId, messageId);
    hide LogicalIds.LogicalId, LogicalIds.Decimal;
    var refused := Answer.Rejected(error, false);
    assert RetryDelay(limits, 1) > 0 by { assert Pow2(0) == 1; }
    var s0 := NEW_SYSTEM;
    trace, steps := [s0], [];
    assert Reached(limits, trace, steps, s0) && Holds(s0, map[]);
    RecordsNew(s0, limits, map[], l1, turnId, text, first, 0);
    var rows1 := map[l1 := OutboxModel.Fresh(first, 0)];
    var s1 := Next(s0, limits, RecordChunk(l1, turnId, text, first, 0, Whole));
    assert map[][l1 := OutboxModel.Fresh(first, 0)] == rows1;
    assert Candidates(s1.db, Some(0)) == {l1};
    hide Next, Possible, Recorded, RetryDelay;
    trace, steps := Extended(limits, trace, steps, s0, RecordChunk(l1, turnId, text, first, 0, Whole));
    var s2: System;
    trace, steps, s2 := Drained(limits, trace, steps, s1, rows1, l1, 0, refused);
    var failed := rows1[l1].(state := OutFailed, attempts := 1, lastError := Some(error),
      nextRetryAt := Some(RetryDelay(limits, 1)));
    trace, steps, last := SecondIsPublished(limits, trace, steps, s2, l1, l2, failed, turnId, text, second);
    assert s2.log == [Stored(l1, first), Act.Sent(l1, first)];
  }

  lemma SecondIsPublished(
    limits: Limits, trace: seq<System>, steps: seq<Step>, s: System, l1: string, l2: string, failed: OutboxRow,
    turnId: string, text: MessageSplit.Text, second: SignedEvent)
    returns (longer: seq<System>, more: seq<Step>, last: System)
    requires Reached(limits, trace, steps, s) && Holds(s, map[l1 := failed]) && l1 != l2 && limits.maxAttempts > 1
    requires failed.state == OutFailed && BacksOff(failed, 0)
    ensures Reached(limits, longer, more, last)
    ensures last.log == s.log + [Stored(l2, second), Act.Sent(l2, second), Acked(l2)]
    ensures l1 in last.db.outbox && Owed(last.db.outbox[l1].state)
  {
    var rows := map[l1 := failed];
    var row := OutboxModel.Fresh(second, 0);
    RecordsNew(s, limits, rows, l2, turnId, text, second, 0);
    var step := RecordChunk(l2, turnId, text, second, 0, Whole);
    var s3 := Next(s, limits, step);
    assert Candidates(s3.db, Some(0)) == {l2};
    hide Next, Possible, Recorded, Candidates, Reached;
    longer, more := Extended(limits, trace, steps, s, step);
    longer, more, last := Drained(limits, longer, more, s3, rows[l2 := row], l2, 0, Answer.Accepted);
    assert last.log == s.log + [Stored(l2, second), Act.Sent(l2, second), Acked(l2)];
  }
}
