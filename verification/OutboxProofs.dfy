/** Effectively-once publishing: what every interleaving of recording, draining, recovery and
    crashes keeps. */
module OutboxProofs {
  import opened Basics
  import opened Tables
  import MessageSplit
  import opened Ordering
  import opened OutboxModel

  /** The intent state that goes with a row. */
  function Matching(db: Db, l: string): IntentState {
    if l !in db.outbox then Pending else
    match db.outbox[l].state
    case OutPending => Signed
    case OutFailed => Signed
    case OutPublished => Published
    case OutDead => Abandoned
  }

  ghost predicate Coherent(db: Db) {
    forall l :: l in db.intents ==> db.intents[l].state == Matching(db, l)
  }

  /** Signing again keeps the two tables coherent exactly unless the row is already closed. */
  lemma SigningKeepsCoherenceExactlyWhen(db: Db, l: string, event: SignedEvent, now: int)
    requires Coherent(db)
    ensures Coherent(PutSigned(db, l, OutboxModel.Fresh(event, now))) <==>
      (l in db.intents && l in db.outbox ==> Owed(db.outbox[l].state))
  {
    var to := PutSigned(db, l, OutboxModel.Fresh(event, now));
    if l in db.intents {
      assert to.intents[l].state == Signed;
    }
  }

  /** Dead-lettering keeps them coherent exactly for a row that exists and is not published. */
  lemma DeadLetteringKeepsCoherenceExactlyWhen(db: Db, l: string, error: string)
    requires Coherent(db)
    ensures Coherent(MarkDeadLetter(db, l, error)) <==>
      (l in db.intents ==> l in db.outbox && db.outbox[l].state != OutPublished)
  {
    var to := MarkDeadLetter(db, l, error);
    if l in db.intents {
      assert to.intents[l].state == Abandoned;
    }
  }

  // --------------------------------------------------------------- the record

  /** Each id is stored once; what is sent is what was stored before; nothing is sent after
      it was acknowledged. */
  ghost predicate Faithful(log: seq<Act>) {
    && (forall i, j :: 0 <= i < j < |log| && log[i].Stored? && log[j].Stored? ==>
          log[i].logicalId != log[j].logicalId)
    && SentWasStored(log)
    && (forall i, j :: 0 <= i < j < |log| && log[i].Acked? && log[j].Sent? ==>
          log[i].logicalId != log[j].logicalId)
  }

  ghost predicate SentWasStored(log: seq<Act>) {
    forall j :: 0 <= j < |log| && log[j].Sent? ==>
      exists i :: 0 <= i < j && log[i] == Stored(log[j].logicalId, log[j].event)
  }

  lemma SentStaysStored(log: seq<Act>, act: Act)
    requires SentWasStored(log) && (act.Sent? ==> Stored(act.logicalId, act.event) in log)
    ensures SentWasStored(log + [act])
  {
    var next := log + [act];
    forall j | 0 <= j < |next| && next[j].Sent?
      ensures exists i :: 0 <= i < j && next[i] == Stored(next[j].logicalId, next[j].event)
    {
      if j < |log| {
        var i :| 0 <= i < j && log[i] == Stored(log[j].logicalId, log[j].event);
        assert next[i] == log[i];
      } else {
        var i :| 0 <= i < |log| && log[i] == Stored(act.logicalId, act.event);
        assert next[i] == log[i];
      }
    }
  }

  /** The tables remember what the log says. */
  ghost predicate Remembered(log: seq<Act>, db: Db) {
    && (forall i :: 0 <= i < |log| && log[i].Stored? ==> log[i].logicalId in db.outbox)
    && (forall l :: l in db.outbox ==> Stored(l, db.outbox[l].event) in log)
    && (forall i :: 0 <= i < |log| && log[i].Acked? ==>
          log[i].logicalId in db.outbox && db.outbox[log[i].logicalId].state == OutPublished)
  }

  /** The row is still exactly as the drain read it. */
  predicate Current(db: Db, r: Record) {
    r.logicalId in db.outbox && db.outbox[r.logicalId].event == r.event
    && db.outbox[r.logicalId].attempts == r.attempts && Owed(db.outbox[r.logicalId].state)
  }

  function Running(s: System): seq<Record> {
    (if s.waiting.Some? then [s.waiting.value] else []) + s.rest
  }

  ghost predicate DrainCurrent(running: seq<Record>, db: Db) {
    && (forall i :: 0 <= i < |running| ==> Current(db, running[i]))
    && (forall i, j :: 0 <= i < j < |running| ==> running[i].logicalId != running[j].logicalId)
  }

  ghost predicate WithinAttempts(db: Db, limits: Limits) {
    forall l :: l in db.outbox && Owed(db.outbox[l].state) ==>
      db.outbox[l].attempts < limits.maxAttempts && (db.outbox[l].state == OutPending ==> db.outbox[l].attempts == 0)
  }

  ghost predicate Valid(s: System, limits: Limits) {
    && Coherent(s.db) && Faithful(s.log) && Remembered(s.log, s.db)
    && DrainCurrent(Running(s), s.db) && WithinAttempts(s.db, limits)
  }

  // ------------------------------------------------------------------- signing

  lemma SignKeeps(s: System, limits: Limits, l: string, event: SignedEvent, now: int)
    requires Valid(s, limits) && limits.maxAttempts > 0
    requires l in s.db.intents && l in s.db.outbox ==> Owed(s.db.outbox[l].state)
    ensures Valid(Sign(s, l, event, now), limits)
  {
    SigningKeepsCoherenceExactlyWhen(s.db, l, event, now);
    var t := Sign(s, l, event, now);
    SignRows(s.db, t.db, l, event, now, limits);
    hide Coherent, WithinAttempts, PutSigned;
    if l !in s.db.outbox { StoreAppends(s.log, s.db, t.db, l, event); }
    hide Faithful;
    assert Remembered(t.log, t.db) by { hide DrainCurrent; }
    hide Remembered;
    assert Running(t) == Running(s);
    assert DrainCurrent(Running(t), t.db);
  }

  /** Signing adds at most one fresh row. */
  lemma SignRows(db: Db, to: Db, l: string, event: SignedEvent, now: int, limits: Limits)
    requires WithinAttempts(db, limits) && limits.maxAttempts > 0
    requires to == PutSigned(db, l, OutboxModel.Fresh(event, now))
    ensures WithinAttempts(to, limits)
    ensures forall k :: k in db.outbox ==> k in to.outbox && to.outbox[k] == db.outbox[k]
    ensures to.outbox.Keys == db.outbox.Keys + {l}
    ensures l !in db.outbox ==> to.outbox[l].event == event
  {
    assert to.outbox == if l in db.outbox then db.outbox else db.outbox[l := OutboxModel.Fresh(event, now)];
    hide PutSigned;
    if l in db.outbox { assert to.outbox.Keys == db.outbox.Keys + {l}; }
  }

  lemma StoreAppends(log: seq<Act>, from: Db, to: Db, l: string, event: SignedEvent)
    requires Faithful(log) && Remembered(log, from) && l !in from.outbox
    requires to.outbox.Keys == from.outbox.Keys + {l} && to.outbox[l].event == event
    requires forall k :: k in from.outbox ==> to.outbox[k] == from.outbox[k]
    ensures Faithful(log + [Stored(l, event)]) && Remembered(log + [Stored(l, event)], to)
  {
    var next := log + [Stored(l, event)];
    assert next[|log|] == Stored(l, event);
    SentStaysStored(log, Stored(l, event));
    hide SentWasStored;
  }

  lemma IntentKeeps(s: System, limits: Limits, l: string, row: IntentRow, ordinals: map<string, nat>)
    requires Valid(s, limits) && l !in s.db.intents && l !in s.db.outbox && row.state == Pending
    ensures Valid(s.(ordinals := ordinals, db := PutIntent(s.db, l, row)), limits)
  {
  }

  lemma RecordKeeps(s: System, limits: Limits, l: string, turnId: string, content: MessageSplit.Text,
                    event: SignedEvent, now: int, cut: Cut)
    requires Valid(s, limits) && limits.maxAttempts > 0
    requires l !in s.db.outbox || l in s.db.intents
    ensures Valid(Recorded(s, l, turnId, content, event, now, cut), limits)
  {
    hide Valid;
    var n := NextOrdinal(s.ordinals, turnId);
    var counted := s.(ordinals := s.ordinals[turnId := n + 1]);
    SameValid(s, counted, limits);
    if l !in s.db.intents {
      var row := IntentRow(turnId, n, content, Pending, now);
      IntentKeeps(s, limits, l, row, counted.ordinals);
      var intended := counted.(db := PutIntent(s.db, l, row));
      CrashKeeps(intended, limits);
      SignKeeps(intended, limits, l, event, now);
      var signed := Sign(intended, l, event, now);
      CrashKeeps(signed, limits);
      assert signed.db.intents[l].state == Signed;
      assert SetIntentState(signed.db, l, Signed) == signed.db;
    }
  }

  /** The counters do not matter. */
  lemma SameValid(s: System, t: System, limits: Limits)
    requires Valid(s, limits) && t == s.(ordinals := t.ordinals)
    ensures Valid(t, limits)
  {
  }

  lemma CrashKeeps(s: System, limits: Limits)
    requires Valid(s, limits)
    ensures Valid(Crashed(s), limits)
  {
  }

  // ------------------------------------------------------------------ draining

  lemma StartDrainKeeps(s: System, limits: Limits, order: seq<string>, now: int)
    requires Valid(s, limits) && Possible(s, StartDrain(order, now))
    ensures Valid(Next(s, limits, StartDrain(order, now)), limits)
  {
    StartedIsKnown(s.db, order, Some(now));
    SnapshotIsCurrent(s.db, order, Some(now));
    assert Running(Next(s, limits, StartDrain(order, now))) == Snapshot(s.db, order);
  }

  lemma SnapshotIsCurrent(db: Db, order: seq<string>, now: Option<int>)
    requires multiset(order) == multiset(DuePublishes(db, now))
    requires forall l :: l in order <==> l in Candidates(db, now)
    ensures DrainCurrent(Snapshot(db, order), db)
  {
    DueIsEveryCandidateOnce(db, now);
    var keys, drained := KeysInOrder(Candidates(db, now)), Snapshot(db, order);
    forall i | 0 <= i < |order| ensures Current(db, drained[i]) && drained[i].logicalId == order[i] {
      assert order[i] in order;
    }
    hide DuePublishes, Candidates, Current, Snapshot;
    forall i, j | 0 <= i < j < |order| ensures drained[i].logicalId != drained[j].logicalId {
      NoRepeats(order, keys, i, j);
    }
  }

  lemma NoRepeats<T>(a: seq<T>, b: seq<T>, i: nat, j: nat)
    requires multiset(a) == multiset(b) && i < j < |a|
    requires forall k, l :: 0 <= k < l < |b| ==> b[k] != b[l]
    ensures a[i] != a[j]
  {
    var x := a[i];
    AtMostOnce(b, x);
    assert a == a[..j] + [a[j]] + a[j + 1..];
    assert a[..j][i] == x;
    assert multiset(a)[x] >= multiset(a[..j])[x] + multiset{a[j]}[x];
  }

  lemma {:induction false} AtMostOnce<T>(b: seq<T>, x: T)
    requires forall k, l :: 0 <= k < l < |b| ==> b[k] != b[l]
    ensures multiset(b)[x] <= 1
  {
    if b != [] {
      AtMostOnce(b[1..], x);
      assert b == [b[0]] + b[1..];
      if x == b[0] { assert x !in b[1..]; }
    }
  }

  lemma TakeNextKeeps(s: System, limits: Limits, skip: bool)
    requires Valid(s, limits) && Possible(s, TakeNext(skip))
    ensures Valid(Next(s, limits, TakeNext(skip)), limits)
  {
    var t := Next(s, limits, TakeNext(skip));
    assert s.rest[0] == Running(s)[0];
    if !skip {
      SendAppends(s.log, s.db, s.rest[0]);
      assert Running(t) == Running(s);
    } else {
      assert Running(t) == Running(s)[1..];
    }
  }

  lemma SendAppends(log: seq<Act>, db: Db, r: Record)
    requires Faithful(log) && Remembered(log, db) && Current(db, r)
    ensures Faithful(log + [Act.Sent(r.logicalId, r.event)]) && Remembered(log + [Act.Sent(r.logicalId, r.event)], db)
  {
    var next := log + [Act.Sent(r.logicalId, r.event)];
    assert next[|log|] == Act.Sent(r.logicalId, r.event);
    SentStaysStored(log, Act.Sent(r.logicalId, r.event));
    hide SentWasStored;
  }

  /** One owed row changes; the tables stay coherent and the attempts bounded. */
  ghost predicate OneRowChanged(db: Db, to: Db, l: string, limits: Limits) {
    && Coherent(to) && WithinAttempts(to, limits)
    && to.outbox.Keys == db.outbox.Keys
    && (forall k :: k in db.outbox ==> to.outbox[k].event == db.outbox[k].event)
    && (forall k :: k in db.outbox && k != l ==> to.outbox[k] == db.outbox[k])
  }

  lemma PublishedRow(db: Db, limits: Limits, l: string)
    requires Coherent(db) && WithinAttempts(db, limits) && l in db.outbox && Owed(db.outbox[l].state)
    ensures OneRowChanged(db, MarkPublished(db, l), l, limits)
    ensures MarkPublished(db, l).outbox[l].state == OutPublished
  {
    var to := MarkPublished(db, l);
    assert Coherent(to) by { hide WithinAttempts; }
    assert WithinAttempts(to, limits) by { hide Coherent; }
    hide Coherent, WithinAttempts;
  }

  lemma FailedRow(db: Db, limits: Limits, l: string, error: string, at: Option<int>)
    requires Coherent(db) && WithinAttempts(db, limits) && l in db.outbox && Owed(db.outbox[l].state)
    requires db.outbox[l].attempts + 1 < limits.maxAttempts
    ensures OneRowChanged(db, MarkFailed(db, l, error, at), l, limits)
  {
    var to := MarkFailed(db, l, error, at);
    assert Coherent(to) by { hide WithinAttempts; }
    assert WithinAttempts(to, limits) by { hide Coherent; }
    hide Coherent, WithinAttempts;
  }

  lemma DeadRow(db: Db, limits: Limits, l: string, error: string)
    requires Coherent(db) && WithinAttempts(db, limits) && l in db.outbox && db.outbox[l].state != OutPublished
    ensures OneRowChanged(db, MarkDeadLetter(db, l, error), l, limits)
  {
    DeadLetteringKeepsCoherenceExactlyWhen(db, l, error);
  }

  lemma MarkedRow(db: Db, limits: Limits, r: Record, answer: Answer, now: int)
    requires Coherent(db) && WithinAttempts(db, limits) && Current(db, r)
    ensures OneRowChanged(db, Marked(db, limits, r, answer, now), r.logicalId, limits)
    ensures answer.Accepted? ==> Marked(db, limits, r, answer, now).outbox[r.logicalId].state == OutPublished
  {
    hide OneRowChanged, Coherent, WithinAttempts;
    match answer
    case Accepted => PublishedRow(db, limits, r.logicalId);
    case Rejected(message, terminal) =>
      DeadRow(db, limits, r.logicalId, message);
      if !terminal && r.attempts + 1 < limits.maxAttempts {
        FailedRow(db, limits, r.logicalId, message, Some(now + RetryDelay(limits, r.attempts + 1)));
      }
  }

  lemma AnsweredKeeps(s: System, limits: Limits, answer: Answer, now: int)
    requires Valid(s, limits) && Possible(s, Answered(answer, now))
    ensures Valid(Next(s, limits, Answered(answer, now)), limits)
  {
    var r := s.waiting.value;
    var t := Next(s, limits, Answered(answer, now));
    assert r == Running(s)[0];
    MarkedRow(s.db, limits, r, answer, now);
    MarkAppends(s.log, s.db, t.db, r.logicalId, answer.Accepted?);
    assert Running(t) == Running(s)[1..];
    RestStaysCurrent(Running(s), s.db, t.db);
  }

  lemma RestStaysCurrent(running: seq<Record>, from: Db, to: Db)
    requires running != [] && DrainCurrent(running, from)
    requires forall l :: l in from.outbox && l != running[0].logicalId ==> l in to.outbox && to.outbox[l] == from.outbox[l]
    ensures DrainCurrent(running[1..], to)
  {
    forall i | 0 <= i < |running[1..]| ensures Current(to, running[1..][i]) {
      assert running[1..][i] == running[i + 1];
      assert running[0].logicalId != running[i + 1].logicalId;
    }
  }

  lemma MarkAppends(log: seq<Act>, from: Db, to: Db, l: string, acked: bool)
    requires Faithful(log) && Remembered(log, from)
    requires l in from.outbox && Owed(from.outbox[l].state)
    requires to.outbox.Keys == from.outbox.Keys
    requires forall k :: k in from.outbox ==> to.outbox[k].event == from.outbox[k].event
    requires forall k :: k in from.outbox && k != l ==> to.outbox[k] == from.outbox[k]
    requires acked ==> to.outbox[l].state == OutPublished
    ensures var next := if acked then log + [Acked(l)] else log; Faithful(next) && Remembered(next, to)
  {
    if acked { SentStaysStored(log, Acked(l)); }
    hide SentWasStored;
    var next := if acked then log + [Acked(l)] else log;
    assert Faithful(next) by { hide Remembered; }
    StillRemembered(log, from, to, l);
    hide Faithful;
    if acked { AckRemembered(log, to, l); }
  }

  /** An owed row was not acknowledged, so it may change. */
  lemma StillRemembered(log: seq<Act>, from: Db, to: Db, l: string)
    requires Remembered(log, from) && l in from.outbox && Owed(from.outbox[l].state)
    requires to.outbox.Keys == from.outbox.Keys
    requires forall k :: k in from.outbox ==> to.outbox[k].event == from.outbox[k].event
    requires forall k :: k in from.outbox && k != l ==> to.outbox[k] == from.outbox[k]
    ensures Remembered(log, to)
  {
    forall k | k in to.outbox ensures Stored(k, to.outbox[k].event) in log {
      assert Stored(k, from.outbox[k].event) in log;
    }
  }

  lemma AckRemembered(log: seq<Act>, db: Db, l: string)
    requires Remembered(log, db) && l in db.outbox && db.outbox[l].state == OutPublished
    ensures Remembered(log + [Acked(l)], db)
  {
    forall k | k in db.outbox ensures Stored(k, db.outbox[k].event) in log + [Acked(l)] {
      assert Stored(k, db.outbox[k].event) in log;
    }
  }

  // ------------------------------------------------------------------ recovery

  lemma {:induction false} GivenUpRows(db: Db, limits: Limits, ids: seq<string>, budget: nat)
    requires Coherent(db) && WithinAttempts(db, limits)
    requires forall l :: l in ids ==> l in db.outbox && Owed(db.outbox[l].state)
    requires forall i, j :: 0 <= i < j < |ids| ==> ids[i] != ids[j]
    ensures var to := GiveUp(db, ids, budget);
      && Coherent(to) && WithinAttempts(to, limits)
      && to.outbox.Keys == db.outbox.Keys
      && (forall l :: l in db.outbox ==> to.outbox[l].event == db.outbox[l].event)
      && (forall l :: l in db.outbox && l !in ids ==> to.outbox[l] == db.outbox[l])
  {
    if ids != [] {
      hide Coherent, WithinAttempts;
      var front, l := ids[..|ids| - 1], ids[|ids| - 1];
      GivenUpRows(db, limits, front, budget);
      assert l !in front && l in ids;
      DeadRow(GiveUp(db, front, budget), limits, l, SpentReason(db.outbox[l].attempts));
    }
  }

  lemma DueHasNoRepeats(db: Db, now: Option<int>)
    ensures forall i, j :: 0 <= i < j < |DuePublishes(db, now)| ==> DuePublishes(db, now)[i] != DuePublishes(db, now)[j]
  {
    var ids := DuePublishes(db, now);
    DueIsEveryCandidateOnce(db, now);
    hide DuePublishes;
    forall i, j | 0 <= i < j < |ids| ensures ids[i] != ids[j] {
      NoRepeats(ids, KeysInOrder(Candidates(db, now)), i, j);
    }
  }

  lemma RecoverKeeps(s: System, limits: Limits, budget: nat)
    requires Valid(s, limits) && s.rest == [] && s.waiting.None?
    ensures Valid(s.(db := GiveUp(s.db, DuePublishes(s.db, None), budget)), limits)
  {
    var ids := DuePublishes(s.db, None);
    assert (forall l :: l in ids ==> l in s.db.outbox && Owed(s.db.outbox[l].state)) by {
      DueIsEveryCandidateOnce(s.db, None);
    }
    DueHasNoRepeats(s.db, None);
    hide *;
    assert Coherent(s.db) && WithinAttempts(s.db, limits) && Remembered(s.log, s.db) by { HasParts(s, limits); }
    GivenUpRows(s.db, limits, ids, budget);
    RememberedKeys(s.log, s.db, GiveUp(s.db, ids, budget), ids);
    AtRestIsValid(s, GiveUp(s.db, ids, budget), limits);
  }

  lemma HasParts(s: System, limits: Limits)
    requires Valid(s, limits)
    ensures Coherent(s.db) && WithinAttempts(s.db, limits) && Remembered(s.log, s.db) && Faithful(s.log)
  {
  }

  lemma AtRestIsValid(s: System, to: Db, limits: Limits)
    requires Valid(s, limits) && s.rest == [] && s.waiting.None?
    requires Coherent(to) && Remembered(s.log, to) && WithinAttempts(to, limits)
    ensures Valid(s.(db := to), limits)
  {
  }

  lemma RememberedKeys(log: seq<Act>, from: Db, to: Db, ids: seq<string>)
    requires Remembered(log, from) && to.outbox.Keys == from.outbox.Keys
    requires forall l :: l in ids ==> l in from.outbox && Owed(from.outbox[l].state)
    requires forall l :: l in from.outbox ==> to.outbox[l].event == from.outbox[l].event
    requires forall l :: l in from.outbox && l !in ids ==> to.outbox[l] == from.outbox[l]
    ensures Remembered(log, to)
  {
    forall i | 0 <= i < |log| && log[i].Acked? ensures log[i].logicalId !in ids {
      assert from.outbox[log[i].logicalId].state == OutPublished;
    }
  }

  /** The publisher gives up before recovery's larger budget can ever be reached. */
  lemma {:induction false} RecoveryNeverDeadLetters(s: System, limits: Limits, budget: nat, ids: seq<string>)
    requires Valid(s, limits) && budget >= limits.maxAttempts
    requires forall l :: l in ids ==> l in s.db.outbox && Owed(s.db.outbox[l].state)
    ensures GiveUp(s.db, ids, budget) == s.db
  {
    if ids != [] {
      RecoveryNeverDeadLetters(s, limits, budget, ids[..|ids| - 1]);
      assert ids[|ids| - 1] in ids;
    }
  }

  // ---------------------------------------------------------------------- runs

  lemma StepKeeps(s: System, limits: Limits, step: Step)
    requires Valid(s, limits) && limits.maxAttempts > 0 && Possible(s, step)
    ensures Valid(Next(s, limits, step), limits)
  {
    hide Valid;
    match step
    case RecordChunk(l, turnId, content, event, now, cut) => RecordKeeps(s, limits, l, turnId, content, event, now, cut);
    case SignIntent(l, event, now) =>
      UnsignedHasNoRow(s.db, l);
      SignKeeps(s, limits, l, event, now);
    case PutMetric(l, event, now) => SignKeeps(s, limits, l, event, now);
    case StartDrain(order, now) => StartDrainKeeps(s, limits, order, now);
    case TakeNext(skip) => TakeNextKeeps(s, limits, skip);
    case Answered(answer, now) => AnsweredKeeps(s, limits, answer, now);
    case Crash => CrashKeeps(s, limits);
    case Recover(budget) => RecoverKeeps(s, limits, budget);
  }

  lemma UnsignedHasNoRow(db: Db, l: string)
    requires l in UnsignedIntents(db)
    ensures l in db.intents && l !in db.outbox && db.intents[l].state == Pending
  {
    var rows := KeysInOrder(set l | l in db.intents && db.intents[l].state == Pending && l !in db.outbox);
    SortByPermutes(By(l => if l in db.intents then SortKey(0, db.intents[l].turnId, db.intents[l].ordinal, 0, l)
                           else SortKey(0, "", 0, 0, l)), rows);
  }

  ghost predicate Follows(trace: seq<System>, limits: Limits, steps: seq<Step>) {
    && |trace| == |steps| + 1
    && (forall i :: 0 <= i < |steps| ==>
          Possible(trace[i], steps[i]) && trace[i + 1] == Next(trace[i], limits, steps[i]))
  }

  const NEW_SYSTEM := System(EMPTY_DB, map[], [], None, [])

  /** From an empty store, whatever crashes and whatever the relay answers: every send of a
      logical id carries the one event stored for it, nothing acknowledged is sent again, and
      intents and rows agree. */
  lemma {:induction false} EveryRunIsFaithful(trace: seq<System>, limits: Limits, steps: seq<Step>)
    requires limits.maxAttempts > 0
    requires Follows(trace, limits, steps) && trace[0] == NEW_SYSTEM
    ensures forall i :: 0 <= i < |trace| ==> Valid(trace[i], limits)
  {
    hide Next, Possible;
    if steps != [] {
      hide Valid;
      var n := |steps| - 1;
      EveryRunIsFaithful(trace[..n + 1], limits, steps[..n]);
      assert trace[n] == trace[..n + 1][n];
      StepKeeps(trace[n], limits, steps[n]);
      assert forall i :: 0 <= i < n + 1 ==> trace[i] == trace[..n + 1][i];
    }
  }

  /** Two sends of one logical id carry the same bytes. */
  lemma SendsAgree(log: seq<Act>, i: nat, j: nat)
    requires Faithful(log) && i < |log| && j < |log| && log[i].Sent? && log[j].Sent?
    requires log[i].logicalId == log[j].logicalId
    ensures log[i].event == log[j].event
  {
    var k :| 0 <= k < i && log[k] == Stored(log[i].logicalId, log[i].event);
    var l :| 0 <= l < j && log[l] == Stored(log[j].logicalId, log[j].event);
    if k < l { assert false; }
    if l < k { assert false; }
  }

  /** In every run, crashes and all, the relay never sees two versions of one output, and
      nothing it acknowledged is sent again. */
  lemma NoRunSendsTwoVersions(trace: seq<System>, limits: Limits, steps: seq<Step>, n: nat, i: nat, j: nat)
    requires limits.maxAttempts > 0
    requires Follows(trace, limits, steps) && trace[0] == NEW_SYSTEM && n < |trace|
    requires i < j < |trace[n].log| && trace[n].log[j].Sent? && trace[n].log[i].logicalId == trace[n].log[j].logicalId
    ensures !trace[n].log[i].Acked?
    ensures trace[n].log[i].event == trace[n].log[j].event
  {
    EveryRunIsFaithful(trace, limits, steps);
    var log := trace[n].log;
    assert Valid(trace[n], limits);
    hide Valid;
    assert Faithful(log) by { HasParts(trace[n], limits); }
    if log[i].Sent? { SendsAgree(log, i, j); }
    if log[i].Stored? { StoredIsSent(log, i, j); }
  }

  lemma StoredIsSent(log: seq<Act>, i: nat, j: nat)
    requires Faithful(log) && i < |log| && j < |log| && log[i].Stored? && log[j].Sent?
    requires log[i].logicalId == log[j].logicalId
    ensures log[i].event == log[j].event
  {
    var k :| 0 <= k < j && log[k] == Stored(log[j].logicalId, log[j].event);
    if k < i { assert false; }
    if i < k { assert false; }
  }

  // --------------------------------------------------------------------- delay

  lemma {:induction false} Pow2Grows(a: nat, b: nat)
    requires a <= b
    ensures 1 <= Pow2(a) <= Pow2(b)
    decreases b
  {
    if a < b { Pow2Grows(a, b - 1); } else if a > 0 { Pow2Grows(a - 1, b - 1); }
  }

  /** Retry delays never shrink and never pass the ceiling. */
  lemma RetryDelayGrows(limits: Limits, a: nat, b: nat)
    requires 0 < a <= b
    ensures RetryDelay(limits, a) <= RetryDelay(limits, b) <= limits.maxRetryMs
  {
    Pow2Grows(a - 1, b - 1);
    Scaled(limits.baseRetryMs, Pow2(a - 1), Pow2(b - 1));
  }

  lemma Scaled(k: nat, a: nat, b: nat)
    requires a <= b
    ensures k * a <= k * b
  {
  }
}
