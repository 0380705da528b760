/** Recovery replays exactly what is owed, in an order the rows alone decide, and running it
    a second time changes nothing. */
module RecoveryProofs {
  import opened Basics
  import opened Tables
  import opened Ordering
  import opened Recovery
  import P = OutboxProofs
  import A = ActorProofs

  // ------------------------------------------------------- what is replayed

  /** Owed an answer: not settled, and not delivered and then followed by output. */
  predicate ToReplay(db: Db, id: string) {
    id in db.inbox && Unsettled(db.inbox[id].disposition) && !Answered(db, id)
  }

  lemma {:induction false} LatestIsMaximal(db: Db, intents: seq<string>, turnId: string)
    requires forall l :: l in intents ==> l in db.intents
    ensures var latest := LatestAmong(db, intents, turnId);
      && (latest.None? ==> forall l :: l in intents ==> db.intents[l].turnId != turnId)
      && (latest.Some? ==>
            && (exists l :: l in intents && db.intents[l].turnId == turnId && db.intents[l].createdAt == latest.value)
            && (forall l :: l in intents && db.intents[l].turnId == turnId ==> db.intents[l].createdAt <= latest.value))
  {
    if intents != [] {
      LatestIsMaximal(db, intents[1..], turnId);
      var l0, rest := intents[0], LatestAmong(db, intents[1..], turnId);
      assert intents == [l0] + intents[1..];
      if db.intents[l0].turnId != turnId || (rest.Some? && db.intents[l0].createdAt <= rest.value) {
        if rest.Some? {
          var l :| l in intents[1..] && db.intents[l].turnId == turnId && db.intents[l].createdAt == rest.value;
          assert l in intents;
        }
      } else {
        assert l0 in intents;
      }
    }
  }

  /** An input counts as answered when it was delivered and some output of its turn was
      recorded strictly later. */
  lemma AnsweredExactlyWhen(db: Db, id: string)
    requires id in db.inbox
    ensures Answered(db, id) <==>
      var t := db.inbox[id].turnId;
      && t.Some? && (t.value, id) in db.inputs && db.inputs[(t.value, id)].deliveredAt.Some?
      && exists l :: l in db.intents && db.intents[l].turnId == t.value
           && db.intents[l].createdAt > db.inputs[(t.value, id)].deliveredAt.value
  {
    if db.inbox[id].turnId.Some? {
      var turnId := db.inbox[id].turnId.value;
      LatestIsMaximal(db, KeysInOrder(db.intents.Keys), turnId);
    }
  }

  lemma {:induction false} ConsideredHolds(db: Db, ids: seq<string>, c: Candidate)
    requires forall id :: id in ids ==> id in db.inbox
    ensures c in Considered(db, ids) <==>
      c.input.record.id in ids && !Answered(db, c.input.record.id) && c == CandidateFor(db, c.input.record.id)
  {
    if ids != [] {
      hide Answered;
      var front, last := ids[..|ids| - 1], ids[|ids| - 1];
      ConsideredHolds(db, front, c);
      assert ids == front + [last];
      assert CandidateFor(db, last).input.record.id == last;
    }
  }

  lemma ChannelReplayHolds(db: Db, channelId: string, c: Candidate)
    ensures c in ChannelReplay(db, channelId) <==>
      && c.input.record.id in UnsettledIn(db, channelId) && !Answered(db, c.input.record.id)
      && c == CandidateFor(db, c.input.record.id)
  {
    hide Answered, CandidateFor;
    UnsettledRows(db, channelId);
    var ids := UnsettledForChannel(db, channelId);
    SortByPermutes(By(ReplayKey), Considered(db, ids));
    ConsideredHolds(db, ids, c);
  }

  ghost predicate Replays(inputs: seq<RequeuedInput>, id: string) {
    exists i :: 0 <= i < |inputs| && inputs[i].record.id == id
  }

  lemma {:induction false} RequeueForHolds(db: Db, channels: seq<string>, id: string)
    ensures Replays(RequeueFor(db, channels), id) <==> ToReplay(db, id) && db.inbox[id].channelId in channels
  {
    hide Replays, ToReplay, Answered, ChannelReplay, Replayed;
    if channels == [] {
      NothingReplays(id);
    } else {
      var front, last := channels[..|channels| - 1], channels[|channels| - 1];
      RequeueForHolds(db, front, id);
      ReplayedHolds(db, last, id);
      assert channels == front + [last];
      AppendReplays(RequeueFor(db, front), Replayed(ChannelReplay(db, last)), id);
    }
  }

  lemma NothingReplays(id: string)
    ensures !Replays([], id)
  {
  }

  lemma AppendReplays(before: seq<RequeuedInput>, mine: seq<RequeuedInput>, id: string)
    ensures Replays(before + mine, id) <==> Replays(before, id) || Replays(mine, id)
  {
    if Replays(before, id) {
      var i :| 0 <= i < |before| && before[i].record.id == id;
      assert (before + mine)[i].record.id == id;
    }
    if Replays(mine, id) {
      var i :| 0 <= i < |mine| && mine[i].record.id == id;
      assert (before + mine)[|before| + i].record.id == id;
    }
  }

  lemma ReplayedHolds(db: Db, channelId: string, id: string)
    ensures Replays(Replayed(ChannelReplay(db, channelId)), id)
      <==> ToReplay(db, id) && db.inbox[id].channelId == channelId
  {
    hide Answered, ChannelReplay;
    var cs := ChannelReplay(db, channelId);
    if ToReplay(db, id) && db.inbox[id].channelId == channelId {
      var c := CandidateFor(db, id);
      ChannelReplayHolds(db, channelId, c);
      var i :| 0 <= i < |cs| && cs[i] == c;
      assert Replayed(cs)[i].record.id == id;
    }
    if Replays(Replayed(cs), id) {
      var i :| 0 <= i < |cs| && Replayed(cs)[i].record.id == id;
      assert cs[i] in cs;
      ChannelReplayHolds(db, channelId, cs[i]);
    }
  }

  /** The replay list names exactly the inputs still owed an answer. */
  lemma RequeueIsExact(db: Db, id: string)
    ensures Replays(Requeue(db), id) <==> ToReplay(db, id)
  {
    RequeueForHolds(db, UnsettledChannels(db), id);
  }

  // -------------------------------------------------------------- their order

  lemma {:induction false} ConsideredDiffer(db: Db, ids: seq<string>, i: nat, j: nat)
    requires forall id :: id in ids ==> id in db.inbox
    requires forall k, l :: 0 <= k < l < |ids| ==> ids[k] != ids[l]
    requires i < j < |Considered(db, ids)|
    ensures Considered(db, ids)[i].input.record.id != Considered(db, ids)[j].input.record.id
  {
    hide Answered;
    var front, last := ids[..|ids| - 1], ids[|ids| - 1];
    var before := Considered(db, front);
    if j < |before| {
      ConsideredDiffer(db, front, i, j);
    } else {
      ConsideredHolds(db, front, before[i]);
      assert before[i] in before;
    }
  }

  /** Whatever order the rows come in, a channel replays in the same order. */
  lemma RowOrderDoesNotMatter(db: Db, channelId: string, rows: seq<string>)
    requires multiset(rows) == multiset(UnsettledForChannel(db, channelId))
    ensures forall id :: id in rows ==> id in db.inbox
    ensures SortBy(By(ReplayKey), Considered(db, rows)) == ChannelReplay(db, channelId)
  {
    UnsettledRows(db, channelId);
    var ids := UnsettledForChannel(db, channelId);
    SamePopulation(rows, ids);
    assert SortBy(By(ReplayKey), Considered(db, ids)) == ChannelReplay(db, channelId);
    assert forall id :: id in ids ==> id in db.inbox;
    hide *;
    ConsideredPermutes(db, rows, ids);
    CandidatesNeverTie(db, rows);
    ByIsTotal(ReplayKey);
    SortByForgetsOrder(By(ReplayKey), Considered(db, rows), Considered(db, ids));
  }

  lemma CandidatesNeverTie(db: Db, ids: seq<string>)
    requires forall id :: id in ids ==> id in db.inbox
    ensures var cs := Considered(db, ids);
      forall x, y :: x in cs && y in cs && By(ReplayKey)(x, y) && By(ReplayKey)(y, x) ==> x == y
  {
    hide Answered, CandidateFor;
    var cs := Considered(db, ids);
    forall x, y | x in cs && y in cs && By(ReplayKey)(x, y) && By(ReplayKey)(y, x) ensures x == y {
      KeyLeTotal(ReplayKey(x), ReplayKey(y));
      ConsideredHolds(db, ids, x);
      ConsideredHolds(db, ids, y);
    }
  }

  predicate IsFor(db: Db, c: Candidate) {
    c.input.record.id in db.inbox && !Answered(db, c.input.record.id) && c == CandidateFor(db, c.input.record.id)
  }

  /** A candidate occurs once for every occurrence of its row. */
  lemma {:induction false} ConsideredCounts(db: Db, ids: seq<string>, c: Candidate)
    requires forall id :: id in ids ==> id in db.inbox
    ensures multiset(Considered(db, ids))[c] == if IsFor(db, c) then multiset(ids)[c.input.record.id] else 0
  {
    if ids != [] {
      var front, last := ids[..|ids| - 1], ids[|ids| - 1];
      ConsideredStep(db, ids);
      hide *;
      assert ids == front + [last];
      ConsideredCounts(db, front, c);
      AppendCounts(front, last, c.input.record.id);
      LastCandidate(db, last, c);
      if !Answered(db, last) { AppendCounts(Considered(db, front), CandidateFor(db, last), c); }
    }
  }

  lemma ConsideredStep(db: Db, ids: seq<string>)
    requires ids != [] && forall id :: id in ids ==> id in db.inbox
    ensures var front, last := ids[..|ids| - 1], ids[|ids| - 1];
      Considered(db, ids) == Considered(db, front) + if Answered(db, last) then [] else [CandidateFor(db, last)]
  {
    hide Answered, CandidateFor;
  }

  lemma LastCandidate(db: Db, last: string, c: Candidate)
    requires last in db.inbox
    ensures !Answered(db, last) && c == CandidateFor(db, last) <==> IsFor(db, c) && c.input.record.id == last
  {
    hide Answered;
    assert CandidateFor(db, last).input.record.id == last;
  }

  lemma AppendCounts<T>(s: seq<T>, x: T, y: T)
    ensures multiset(s + [x])[y] == multiset(s)[y] + if x == y then 1 else 0
  {
  }

  lemma ConsideredPermutes(db: Db, a: seq<string>, b: seq<string>)
    requires multiset(a) == multiset(b)
    requires (forall id :: id in a ==> id in db.inbox) && (forall id :: id in b ==> id in db.inbox)
    ensures multiset(Considered(db, a)) == multiset(Considered(db, b))
  {
    hide *;
    forall c ensures multiset(Considered(db, a))[c] == multiset(Considered(db, b))[c] {
      ConsideredCounts(db, a, c);
      ConsideredCounts(db, b, c);
    }
  }

  lemma ReplayIsSorted(db: Db, channelId: string)
    ensures Sorted(By(ReplayKey), ChannelReplay(db, channelId))
  {
    UnsettledRows(db, channelId);
    ByIsTotal(ReplayKey);
    SortBySorts(By(ReplayKey), Considered(db, UnsettledForChannel(db, channelId)));
  }

  /** Between two inputs of one turn there are only inputs of that turn, and they come in the
      order they were accepted. The turn's row must exist and its id must not be an event id. */
  lemma ATurnReplaysTogether(db: Db, channelId: string, turnId: string, i: nat, j: nat, k: nat)
    requires turnId in db.turns && turnId !in db.inbox
    requires var cs := ChannelReplay(db, channelId);
      && i <= j <= k < |cs|
      && cs[i].input.previousTurnId == Some(turnId) && cs[k].input.previousTurnId == Some(turnId)
    ensures var cs := ChannelReplay(db, channelId);
      && cs[j].input.previousTurnId == Some(turnId)
      && cs[i].ordinal <= cs[j].ordinal <= cs[k].ordinal
  {
    ReplayIsSorted(db, channelId);
    var cs := ChannelReplay(db, channelId);
    hide ChannelReplay, Answered;
    assert cs[i] in cs && cs[j] in cs && cs[k] in cs;
    ChannelReplayHolds(db, channelId, cs[i]);
    ChannelReplayHolds(db, channelId, cs[j]);
    ChannelReplayHolds(db, channelId, cs[k]);
    assert cs[i].groupAt == cs[k].groupAt == db.turns[turnId].startedAt;
    assert cs[i].groupId == cs[k].groupId == turnId;
    InOrder(cs, i, j);
    InOrder(cs, j, k);
    TextLeTotal(cs[i].groupId, cs[j].groupId);
  }

  lemma InOrder(cs: seq<Candidate>, i: nat, j: nat)
    requires Sorted(By(ReplayKey), cs) && i <= j < |cs|
    ensures KeyLe(ReplayKey(cs[i]), ReplayKey(cs[j]))
  {
    if i < j { assert By(ReplayKey)(cs[i], cs[j]); } else { KeyLeTotal(ReplayKey(cs[i]), ReplayKey(cs[i])); }
  }

  /** Inputs that still have their rows in turn_inputs never share a place. */
  lemma ATurnReplaysInStrictOrder(db: Db, channelId: string, turnId: string, i: nat, k: nat)
    requires A.UniqueOrdinals(db) && turnId in db.turns && turnId !in db.inbox
    requires var cs := ChannelReplay(db, channelId);
      && i < k < |cs|
      && cs[i].input.previousTurnId == Some(turnId) && cs[k].input.previousTurnId == Some(turnId)
      && cs[i].input.role.Some? && cs[k].input.role.Some?
    ensures var cs := ChannelReplay(db, channelId); cs[i].ordinal < cs[k].ordinal
  {
    ATurnReplaysTogether(db, channelId, turnId, i, i, k);
    NoInputReplaysTwice(db, channelId, i, k);
    var cs := ChannelReplay(db, channelId);
    hide ChannelReplay, Answered;
    assert cs[i] in cs && cs[k] in cs;
    ChannelReplayHolds(db, channelId, cs[i]);
    ChannelReplayHolds(db, channelId, cs[k]);
    var x, y := (turnId, cs[i].input.record.id), (turnId, cs[k].input.record.id);
    assert db.inputs[x].ordinal == cs[i].ordinal && db.inputs[y].ordinal == cs[k].ordinal;
  }

  /** No input is replayed twice in a channel. */
  lemma NoInputReplaysTwice(db: Db, channelId: string, i: nat, j: nat)
    requires i < j < |ChannelReplay(db, channelId)|
    ensures var cs := ChannelReplay(db, channelId); cs[i].input.record.id != cs[j].input.record.id
  {
    hide Answered, CandidateFor;
    UnsettledRows(db, channelId);
    var ids, cs := UnsettledForChannel(db, channelId), ChannelReplay(db, channelId);
    var before := Considered(db, ids);
    forall k, l | 0 <= k < l < |ids| ensures ids[k] != ids[l] {
      P.NoRepeats(ids, KeysInOrder(UnsettledIn(db, channelId)), k, l);
    }
    SortByPermutes(By(ReplayKey), before);
    if cs[i].input.record.id == cs[j].input.record.id {
      assert cs[i] in cs && cs[j] in cs;
      ConsideredHolds(db, ids, cs[i]);
      ConsideredHolds(db, ids, cs[j]);
      assert cs[i] == cs[j];
      forall k, l | 0 <= k < l < |before| ensures before[k] != before[l] { ConsideredDiffer(db, ids, k, l); }
      P.NoRepeats(cs, before, i, j);
    }
  }
}
