/** One drain of the outbox: which rows it attempts, and what it writes down. */
module Publishers {
  import opened Basics
  import opened Tables
  import opened Storage
  import opened LogicalIds
  import opened PublishOrder
  import M = OutboxModel

  /** The relay's answer to one attempt and the clock after it. */
  datatype Reply = Reply(answer: M.Answer, now: int)

  datatype Attempt = Attempt(record: M.Record, reply: Reply)

  function TurnOf(r: M.Record): string { SplitLogicalId(r.logicalId).turnId }

  /** The attempts of a drain over `due`: a turn with a failure is skipped from then on, and
      the drain stops early when it is stopped, which is when the replies run out. */
  function Attempts(due: seq<M.Record>, blocked: set<string>, replies: seq<Reply>): seq<Attempt> {
    if due == [] || replies == [] then []
    else if TurnOf(due[0]) in blocked then Attempts(due[1..], blocked, replies)
    else [Attempt(due[0], replies[0])] + Attempts(due[1..],
      if replies[0].answer.Accepted? then blocked else blocked + {TurnOf(due[0])}, replies[1..])
  }

  function Effect(db: Db, limits: M.Limits, log: seq<Attempt>): Db
    decreases |log|
  {
    if log == [] then db else
    Effect(M.Marked(db, limits, log[0].record, log[0].reply.answer, log[0].reply.now), limits, log[1..])
  }

  function AcceptedIn(log: seq<Attempt>): nat {
    if log == [] then 0 else (if log[0].reply.answer.Accepted? then 1 else 0) + AcceptedIn(log[1..])
  }

  // ------------------------------------------------------ order within a turn

  function Of(due: seq<M.Record>, t: string): seq<M.Record> {
    if due == [] then [] else (if TurnOf(due[0]) == t then [due[0]] else []) + Of(due[1..], t)
  }

  function AttemptsOf(log: seq<Attempt>, t: string): seq<Attempt> {
    if log == [] then [] else (if TurnOf(log[0].record) == t then [log[0]] else []) + AttemptsOf(log[1..], t)
  }

  function Tried(log: seq<Attempt>): seq<M.Record> {
    seq(|log|, i requires 0 <= i < |log| => log[i].record)
  }

  /** One turn's attempts against its rows: a prefix of them, of which only the last can have
      failed, and all of them if the drain was not cut short and none failed. */
  predicate InOrder(mine: seq<Attempt>, rows: seq<M.Record>, cutShort: bool) {
    && Tried(mine) <= rows
    && (forall i :: 0 <= i < |mine| - 1 ==> mine[i].reply.answer.Accepted?)
    && (!cutShort && (mine == [] || mine[|mine| - 1].reply.answer.Accepted?) ==> Tried(mine) == rows)
  }

  /** A turn's attempts are a prefix of its rows in publish order, only the last of them can
      have failed, and a drain that was not stopped tries them all unless one failed. */
  lemma {:induction false} ATurnIsPublishedInOrder(due: seq<M.Record>, blocked: set<string>, replies: seq<Reply>, t: string)
    requires t !in blocked
    ensures var log := Attempts(due, blocked, replies);
      InOrder(AttemptsOf(log, t), Of(due, t), |log| >= |replies|)
    decreases |due|
  {
    hide InOrder, TurnOf;
    var log := Attempts(due, blocked, replies);
    if due == [] || replies == [] {
      NothingTried(Of(due, t), |log| >= |replies|);
      if due == [] { assert Of(due, t) == []; }
    } else if TurnOf(due[0]) in blocked {
      ATurnIsPublishedInOrder(due[1..], blocked, replies, t);
      assert Of(due, t) == Of(due[1..], t);
    } else {
      var failed := !replies[0].answer.Accepted?;
      var next := if failed then blocked + {TurnOf(due[0])} else blocked;
      var rest := Attempts(due[1..], next, replies[1..]);
      assert log[0] == Attempt(due[0], replies[0]) && log[1..] == rest;
      if TurnOf(due[0]) == t && failed {
        NothingOfABlockedTurn(due[1..], next, replies[1..], t);
        OneFailed(log[0], Of(due[1..], t), |log| >= |replies|);
      } else {
        ATurnIsPublishedInOrder(due[1..], next, replies[1..], t);
        if TurnOf(due[0]) == t {
          OneAccepted(log[0], AttemptsOf(rest, t), Of(due[1..], t), |rest| >= |replies| - 1);
        } else {
          assert AttemptsOf(log, t) == AttemptsOf(rest, t) && Of(due, t) == Of(due[1..], t);
        }
      }
    }
  }

  lemma NothingTried(rows: seq<M.Record>, cutShort: bool)
    ensures cutShort || rows == [] ==> InOrder([], rows, cutShort)
  {
  }

  lemma OneFailed(first: Attempt, rows: seq<M.Record>, cutShort: bool)
    requires !first.reply.answer.Accepted?
    ensures InOrder([first] + [], [first.record] + rows, cutShort)
  {
    assert Tried([first] + []) == [first.record];
  }

  lemma OneAccepted(first: Attempt, mine: seq<Attempt>, rows: seq<M.Record>, cutShort: bool)
    requires first.reply.answer.Accepted? && InOrder(mine, rows, cutShort)
    ensures InOrder([first] + mine, [first.record] + rows, cutShort)
  {
    assert Tried([first] + mine) == [first.record] + Tried(mine);
  }

  lemma {:induction false} NothingOfABlockedTurn(due: seq<M.Record>, blocked: set<string>, replies: seq<Reply>, t: string)
    requires t in blocked
    ensures AttemptsOf(Attempts(due, blocked, replies), t) == []
    decreases |due|
  {
    if due != [] && replies != [] {
      if TurnOf(due[0]) in blocked {
        NothingOfABlockedTurn(due[1..], blocked, replies, t);
      } else {
        var next := if replies[0].answer.Accepted? then blocked else blocked + {TurnOf(due[0])};
        NothingOfABlockedTurn(due[1..], next, replies[1..], t);
        assert Attempts(due, blocked, replies)[1..] == Attempts(due[1..], next, replies[1..]);
      }
    }
  }

  // ------------------------------------------------------- a drain is a run

  /** The steps a drain takes: skip a blocked row, or send it and write down the answer. */
  function Steps(due: seq<M.Record>, blocked: set<string>, replies: seq<Reply>): seq<M.Step> {
    if due == [] || replies == [] then []
    else if TurnOf(due[0]) in blocked then [M.TakeNext(true)] + Steps(due[1..], blocked, replies)
    else [M.TakeNext(false), M.Answered(replies[0].answer, replies[0].now)] + Steps(due[1..],
      if replies[0].answer.Accepted? then blocked else blocked + {TurnOf(due[0])}, replies[1..])
  }

  ghost predicate Walks(s: M.System, limits: M.Limits, steps: seq<M.Step>)
    decreases |steps|
  {
    steps == [] || (M.Possible(s, steps[0]) && Walks(M.Next(s, limits, steps[0]), limits, steps[1..]))
  }

  ghost function Walk(s: M.System, limits: M.Limits, steps: seq<M.Step>): M.System
    requires Walks(s, limits, steps)
    decreases |steps|
  {
    if steps == [] then s else Walk(M.Next(s, limits, steps[0]), limits, steps[1..])
  }

  /** Sending the next row and writing its answer down. */
  ghost function SentAndMarked(s: M.System, limits: M.Limits, reply: Reply): M.System
    requires s.waiting.None? && s.rest != []
  {
    M.Next(M.Next(s, limits, M.TakeNext(false)), limits, M.Answered(reply.answer, reply.now))
  }

  lemma SendingWalks(s: M.System, limits: M.Limits, reply: Reply, rest: seq<M.Step>)
    requires s.waiting.None? && s.rest != []
    requires Walks(SentAndMarked(s, limits, reply), limits, rest)
    ensures var steps := [M.TakeNext(false), M.Answered(reply.answer, reply.now)] + rest;
      && Walks(s, limits, steps)
      && Walk(s, limits, steps) == Walk(SentAndMarked(s, limits, reply), limits, rest)
  {
    hide M.Marked;
    var answered := M.Answered(reply.answer, reply.now);
    var sent := M.Next(s, limits, M.TakeNext(false));
    assert ([answered] + rest)[1..] == rest;
    assert Walks(sent, limits, [answered] + rest);
    assert ([M.TakeNext(false), answered] + rest)[1..] == [answered] + rest;
  }

  lemma SkippingWalks(s: M.System, limits: M.Limits, rest: seq<M.Step>)
    requires s.waiting.None? && s.rest != []
    requires Walks(s.(rest := s.rest[1..]), limits, rest)
    ensures var steps := [M.TakeNext(true)] + rest;
      && Walks(s, limits, steps)
      && Walk(s, limits, steps) == Walk(s.(rest := s.rest[1..]), limits, rest)
  {
    assert ([M.TakeNext(true)] + rest)[1..] == rest;
  }

  /** Everything a drain does to the store is what the outbox system's own steps do, so what
      holds over all runs of that system holds through every drain. */
  lemma {:induction false} ADrainIsARun(s: M.System, limits: M.Limits, blocked: set<string>, replies: seq<Reply>)
    requires s.waiting.None?
    ensures Walks(s, limits, Steps(s.rest, blocked, replies))
    ensures Walk(s, limits, Steps(s.rest, blocked, replies)).db
      == Effect(s.db, limits, Attempts(s.rest, blocked, replies))
    decreases |s.rest|
  {
    hide Walks, Walk, M.Marked, TurnOf;
    if s.rest == [] || replies == [] {
      Standing(s, limits);
    } else if TurnOf(s.rest[0]) in blocked {
      var skipped := s.(rest := s.rest[1..]);
      ADrainIsARun(skipped, limits, blocked, replies);
      SkippingWalks(s, limits, Steps(skipped.rest, blocked, replies));
    } else {
      var next := if replies[0].answer.Accepted? then blocked else blocked + {TurnOf(s.rest[0])};
      var done := SentAndMarked(s, limits, replies[0]);
      ADrainIsARun(done, limits, next, replies[1..]);
      SendingWalks(s, limits, replies[0], Steps(done.rest, next, replies[1..]));
      var log := Attempts(s.rest, blocked, replies);
      assert log[1..] == Attempts(done.rest, next, replies[1..]);
    }
  }

  lemma Standing(s: M.System, limits: M.Limits)
    ensures Walks(s, limits, []) && Walk(s, limits, []) == s
  {
  }

  // ---------------------------------------------------------------- the class

  class OutboxPublisher {
    const db: Database
    const limits: M.Limits

    constructor (db: Database, limits: M.Limits)
      ensures this.db == db && this.limits == limits
    {
      this.db, this.limits := db, limits;
    }

    /** Writes one answer down. */
    method Mark(record: M.Record, reply: Reply)
      modifies db
      ensures db.Model() == M.Marked(old(db.Model()), limits, record, reply.answer, reply.now)
    {
      if reply.answer.Accepted? {
        db.MarkPublished(record.logicalId);
        return;
      }
      var attempts := record.attempts + 1;
      if reply.answer.terminal || attempts >= limits.maxAttempts {
        db.MarkDeadLetter(record.logicalId, reply.answer.message);
        return;
      }
      db.MarkFailed(record.logicalId, reply.answer.message, Some(reply.now + M.RetryDelay(limits, attempts)));
    }

    /** Publishes what is due and counts what the relay accepted. */
    method DrainOnce(now: int, replies: seq<Reply>) returns (published: nat, ghost log: seq<Attempt>)
      modifies db
      ensures log == Attempts(InPublishOrder(Due(old(db.Model()), now)), {}, replies)
      ensures db.Model() == Effect(old(db.Model()), limits, log)
      ensures published == AcceptedIn(log)
    {
      hide *;
      var due := OrderForPublish(Due(db.Model(), now));
      var blockedTurns: set<string>, replied: nat := {}, 0;
      published, log := 0, [];
      ghost var before, all := db.Model(), Attempts(due, {}, replies);
      Start(before, limits, due, replies);
      for i := 0 to |due|
        invariant replied <= |replies|
        invariant all == log + Attempts(due[i..], blockedTurns, replies[replied..])
        invariant db.Model() == Effect(before, limits, log)
        invariant published == AcceptedIn(log)
      {
        if replied == |replies| {
          OutOfReplies(due[i..], blockedTurns, replies[replied..]);
          return;
        }
        var record := due[i];
        AttemptsUnfold(due, i, blockedTurns, replies, replied);
        if TurnOf(record) in blockedTurns { continue; }
        var reply := replies[replied];
        replied := replied + 1;
        EffectAppends(before, limits, log, Attempt(record, reply));
        AcceptedAppends(log, Attempt(record, reply));
        log := log + [Attempt(record, reply)];
        Mark(record, reply);
        if reply.answer.Accepted? {
          published := published + 1;
        } else {
          blockedTurns := blockedTurns + {TurnOf(record)};
        }
      }
      OutOfRows(due[|due|..], blockedTurns, replies[replied..]);
    }
  }

  lemma Start(db: Db, limits: M.Limits, due: seq<M.Record>, replies: seq<Reply>)
    ensures Attempts(due, {}, replies) == [] + Attempts(due[0..], {}, replies[0..])
    ensures Effect(db, limits, []) == db && AcceptedIn([]) == 0
  {
    assert due[0..] == due && replies[0..] == replies;
  }

  lemma OutOfReplies(due: seq<M.Record>, blocked: set<string>, replies: seq<Reply>)
    requires replies == []
    ensures Attempts(due, blocked, replies) == []
  {
  }

  lemma OutOfRows(due: seq<M.Record>, blocked: set<string>, replies: seq<Reply>)
    requires due == []
    ensures Attempts(due, blocked, replies) == []
  {
  }

  lemma AttemptsUnfold(due: seq<M.Record>, i: nat, blocked: set<string>, replies: seq<Reply>, k: nat)
    requires i < |due| && k < |replies|
    ensures Attempts(due[i..], blocked, replies[k..]) ==
      if TurnOf(due[i]) in blocked then Attempts(due[i + 1..], blocked, replies[k..])
      else [Attempt(due[i], replies[k])] + Attempts(due[i + 1..],
        if replies[k].answer.Accepted? then blocked else blocked + {TurnOf(due[i])}, replies[k + 1..])
  {
    assert due[i..][1..] == due[i + 1..] && replies[k..][1..] == replies[k + 1..];
  }

  /** The rows that are due, as the drain reads them. */
  function Due(db: Db, now: int): seq<M.Record> {
    M.DueIsEveryCandidateOnce(db, Some(now));
    M.Snapshot(db, M.DuePublishes(db, Some(now)))
  }

  lemma {:induction false} EffectAppends(db: Db, limits: M.Limits, log: seq<Attempt>, a: Attempt)
    ensures Effect(db, limits, log + [a])
      == M.Marked(Effect(db, limits, log), limits, a.record, a.reply.answer, a.reply.now)
    decreases |log|
  {
    if log != [] {
      EffectAppends(M.Marked(db, limits, log[0].record, log[0].reply.answer, log[0].reply.now), limits, log[1..], a);
      assert (log + [a])[1..] == log[1..] + [a];
    }
  }

  lemma {:induction false} AcceptedAppends(log: seq<Attempt>, a: Attempt)
    ensures AcceptedIn(log + [a]) == AcceptedIn(log) + if a.reply.answer.Accepted? then 1 else 0
  {
    if log != [] {
      AcceptedAppends(log[1..], a);
      assert (log + [a])[1..] == log[1..] + [a];
    }
  }
}
