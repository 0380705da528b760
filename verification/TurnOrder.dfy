/** The order a turn's rows leave in: by chunk first and by ordinal only then, which is the
    order of the ordinals exactly when no chunk number falls along them. */
module TurnOrder {
  import opened Basics
  import opened Tables
  import opened Ordering
  import opened LogicalIds
  import opened PublishOrder
  import opened Publishers
  import M = OutboxModel
  import P = OutboxProofs

  /** A row of turn `t`, by its intent and by its name. */
  predicate Belongs(db: Db, l: string, t: string) {
    l in db.intents && db.intents[l].turnId == t && SplitLogicalId(l).turnId == t
  }

  function Suffix(l: string): nat { SplitLogicalId(l).ordinal }

  function OrdinalOf(db: Db, l: string): int { if l in db.intents then db.intents[l].ordinal else -1 }

  /** What a turn's rows are published by: chunk, ordinal, age, name. */
  function Place(db: Db, l: string): SortKey {
    SortKey(Suffix(l), "", OrdinalOf(db, l), if l in db.outbox then db.outbox[l].createdAt else 0, l)
  }

  /** What one drain takes up, in order. */
  function Drain(db: Db, now: int): seq<M.Record> { InPublishOrder(Due(db, now)) }

  // --------------------------------------------------------- the query's order

  lemma {:induction false} GroupAtIsOldest(db: Db, rows: seq<string>, l: string, at: int)
    requires forall k :: k in rows ==> k in db.outbox
    ensures var oldest := M.GroupAt(db, rows, l, at);
      && oldest <= at
      && (forall k :: k in rows && M.GroupOf(db, k) == M.GroupOf(db, l) ==> oldest <= db.outbox[k].createdAt)
      && (oldest == at || exists k :: k in rows && M.GroupOf(db, k) == M.GroupOf(db, l) && db.outbox[k].createdAt == oldest)
  {
    if rows != [] {
      var k := rows[0];
      GroupAtIsOldest(db, rows[1..], l,
        if M.GroupOf(db, k) == M.GroupOf(db, l) && db.outbox[k].createdAt < at then db.outbox[k].createdAt else at);
    }
  }

  lemma AGroupHasOneAge(db: Db, rows: seq<string>, k: string, l: string)
    requires (forall r :: r in rows ==> r in db.outbox) && k in rows && l in rows
    requires M.GroupOf(db, k) == M.GroupOf(db, l)
    ensures M.GroupAt(db, rows, k, db.outbox[k].createdAt) == M.GroupAt(db, rows, l, db.outbox[l].createdAt)
  {
    GroupAtIsOldest(db, rows, k, db.outbox[k].createdAt);
    GroupAtIsOldest(db, rows, l, db.outbox[l].createdAt);
  }

  lemma QuerySorted(db: Db, now: int, x: nat, y: nat)
    requires x < y < |M.DuePublishes(db, Some(now))|
    ensures var ids, rows := M.DuePublishes(db, Some(now)), KeysInOrder(M.Candidates(db, Some(now)));
      && ids[x] in rows && ids[y] in rows
      && KeyLe(M.DueKey(db, rows, ids[x]), M.DueKey(db, rows, ids[y]))
  {
    var rows := KeysInOrder(M.Candidates(db, Some(now)));
    var key := (l: string) => M.DueKey(db, rows, l);
    ByIsTotal(key);
    SortBySorts(By(key), rows);
    SortByPermutes(By(key), rows);
    var ids := M.DuePublishes(db, Some(now));
    assert ids == SortBy(By(key), rows);
    hide SortBy, KeysInOrder, KeyLe, M.DueKey, M.Candidates, M.DuePublishes;
    assert ids[x] in ids && ids[y] in ids;
    assert By(key)(ids[x], ids[y]);
  }

  /** The query lists a turn's rows by ordinal, then by age, then by name. */
  lemma QueryOrder(db: Db, now: int, t: string, x: nat, y: nat)
    requires x < y < |M.DuePublishes(db, Some(now))|
    requires var ids := M.DuePublishes(db, Some(now)); Belongs(db, ids[x], t) && Belongs(db, ids[y], t)
    ensures var ids := M.DuePublishes(db, Some(now));
      Suffix(ids[x]) == Suffix(ids[y]) ==> KeyLe(Place(db, ids[x]), Place(db, ids[y]))
  {
    QuerySorted(db, now, x, y);
    var ids, rows := M.DuePublishes(db, Some(now)), KeysInOrder(M.Candidates(db, Some(now)));
    var k, l := ids[x], ids[y];
    hide M.DuePublishes, KeysInOrder, Suffix, SplitLogicalId;
    AGroupHasOneAge(db, rows, k, l);
    hide M.GroupAt, M.Candidates;
  }

  // ---------------------------------------------------------- the drain's order

  lemma RankedPermutes(entries: seq<Entry>)
    ensures multiset(Ranked(entries)) == multiset(entries) && |Ranked(entries)| == |entries|
    ensures forall e :: e in Ranked(entries) <==> e in entries
  {
    var turns := Turns(entries);
    var rank := (e: Entry) => Rank(turns, e);
    SortByPermutes(By(rank), entries);
    assert Ranked(entries) == SortBy(By(rank), entries);
    hide SortBy, Ranked, Turns, Rank;
  }

  /** Each entry that is ranked is the row the query listed at its index, and no other is. */
  lemma RankedRows(due: seq<M.Record>, i: nat, j: nat)
    requires i < j < |Ranked(Entries(due))|
    ensures var order := Ranked(Entries(due));
      && order[i].index < |due| && order[i] == EntryOf(due[order[i].index], order[i].index)
      && order[j].index < |due| && order[j] == EntryOf(due[order[j].index], order[j].index)
      && order[i].index != order[j].index
  {
    var entries := Entries(due);
    var order := Ranked(entries);
    RankedPermutes(entries);
    hide Ranked, SplitLogicalId;
    assert order[i] in order && order[j] in order;
    var x :| 0 <= x < |entries| && entries[x] == order[i];
    var y :| 0 <= y < |entries| && entries[y] == order[j];
    P.NoRepeats(order, entries, i, j);
  }

  /** One turn's rows leave a drain by chunk, within a chunk by ordinal, each once. */
  lemma ATurnGoesOutByChunkThenOrdinal(db: Db, now: int, t: string, i: nat, j: nat)
    requires i < j < |Drain(db, now)|
    requires Belongs(db, Drain(db, now)[i].logicalId, t) && Belongs(db, Drain(db, now)[j].logicalId, t)
    ensures var k, l := Drain(db, now)[i].logicalId, Drain(db, now)[j].logicalId;
      k != l && KeyLe(Place(db, k), Place(db, l)) && k in M.Candidates(db, Some(now)) && l in M.Candidates(db, Some(now))
  {
    var due, ids := Due(db, now), M.DuePublishes(db, Some(now));
    var order := Ranked(Entries(due));
    RankedRows(due, i, j);
    RankedIsSorted(Entries(due), i, j);
    P.DueHasNoRepeats(db, Some(now));
    M.DueIsEveryCandidateOnce(db, Some(now));
    var x, y := order[i].index, order[j].index;
    assert due[x].logicalId == ids[x] && due[y].logicalId == ids[y];
    assert Drain(db, now)[i] == due[x] && Drain(db, now)[j] == due[y];
    hide Ranked, Entries, Turns, M.DuePublishes, M.Candidates;
    if x < y { QueryOrder(db, now, t, x, y); }
  }

  lemma DrainRowsDiffer(db: Db, now: int, i: nat, j: nat)
    requires i < j < |Drain(db, now)|
    ensures Drain(db, now)[i].logicalId != Drain(db, now)[j].logicalId
  {
    var due, ids := Due(db, now), M.DuePublishes(db, Some(now));
    var order := Ranked(Entries(due));
    RankedRows(due, i, j);
    P.DueHasNoRepeats(db, Some(now));
    M.DueIsEveryCandidateOnce(db, Some(now));
    var x, y := order[i].index, order[j].index;
    assert due[x].logicalId == ids[x] && due[y].logicalId == ids[y];
    hide Ranked, Entries, M.DuePublishes, M.Candidates;
  }

  lemma DrainPermutes(due: seq<M.Record>)
    ensures |InPublishOrder(due)| == |due| && forall r :: r in InPublishOrder(due) <==> r in due
  {
    var entries := Entries(due);
    RankedPermutes(entries);
    assert RecordsOf(entries) == due;
    RecordsPermute(Ranked(entries), entries);
    hide Ranked, RecordsOf, Entries;
    SamePopulation(InPublishOrder(due), due);
  }

  lemma DueIsTheQuery(db: Db, now: int)
    ensures |Due(db, now)| == |M.Candidates(db, Some(now))|
    ensures forall l :: l in M.Candidates(db, Some(now)) <==> exists x :: 0 <= x < |Due(db, now)| && Due(db, now)[x].logicalId == l
  {
    var due, ids := Due(db, now), M.DuePublishes(db, Some(now));
    M.DueIsEveryCandidateOnce(db, Some(now));
    assert |due| == |ids| && forall x :: 0 <= x < |due| ==> due[x].logicalId == ids[x];
    hide M.DuePublishes, M.Candidates, Due;
    forall l ensures l in ids <==> exists x :: 0 <= x < |due| && due[x].logicalId == l {
      if l in ids {
        var x :| 0 <= x < |ids| && ids[x] == l;
        assert due[x].logicalId == l;
      }
      if x :| 0 <= x < |due| && due[x].logicalId == l { assert ids[x] in ids; }
    }
  }

  /** A drain takes up exactly the rows that are due. */
  lemma DrainIsWhatIsDue(db: Db, now: int, l: string)
    ensures l in M.Candidates(db, Some(now)) <==> exists i :: 0 <= i < |Drain(db, now)| && Drain(db, now)[i].logicalId == l
    ensures |Drain(db, now)| == |M.Candidates(db, Some(now))|
  {
    hide M.Candidates, Due, InPublishOrder;
    var due, drain := Due(db, now), Drain(db, now);
    DueIsTheQuery(db, now);
    DrainPermutes(due);
    if l in M.Candidates(db, Some(now)) {
      var x :| 0 <= x < |due| && due[x].logicalId == l;
      assert due[x] in drain;
    }
    if i :| 0 <= i < |drain| && drain[i].logicalId == l { assert drain[i] in due; }
  }

  // ----------------------------------------------------------- the ordinals

  ghost predicate InOrdinalOrder(db: Db, records: seq<M.Record>, t: string) {
    forall i, j :: 0 <= i < j < |records| && Belongs(db, records[i].logicalId, t) && Belongs(db, records[j].logicalId, t)
      ==> OrdinalOf(db, records[i].logicalId) <= OrdinalOf(db, records[j].logicalId)
  }

  /** Two due rows of the turn of which the earlier has the higher chunk number. */
  ghost predicate Falls(db: Db, now: int, t: string) {
    exists k, l :: k in M.Candidates(db, Some(now)) && l in M.Candidates(db, Some(now))
      && Belongs(db, k, t) && Belongs(db, l, t) && OrdinalOf(db, k) < OrdinalOf(db, l) && Suffix(k) > Suffix(l)
  }

  /** A drain publishes a turn's rows in the order of their ordinals exactly when no chunk
      number falls along the ordinals of the rows that are due. */
  lemma ATurnGoesOutInOrdinalOrderExactlyWhen(db: Db, now: int, t: string)
    ensures InOrdinalOrder(db, Drain(db, now), t) <==> !Falls(db, now, t)
  {
    var drain := Drain(db, now);
    hide Drain, Suffix, Belongs, M.Candidates;
    forall i, j | 0 <= i < j < |drain| && Belongs(db, drain[i].logicalId, t) && Belongs(db, drain[j].logicalId, t)
      ensures Suffix(drain[i].logicalId) < Suffix(drain[j].logicalId)
        || OrdinalOf(db, drain[i].logicalId) <= OrdinalOf(db, drain[j].logicalId)
      ensures Suffix(drain[i].logicalId) <= Suffix(drain[j].logicalId)
      ensures drain[i].logicalId in M.Candidates(db, Some(now)) && drain[j].logicalId in M.Candidates(db, Some(now))
    {
      ATurnGoesOutByChunkThenOrdinal(db, now, t, i, j);
    }
    if Falls(db, now, t) {
      var k, l :| k in M.Candidates(db, Some(now)) && l in M.Candidates(db, Some(now))
        && Belongs(db, k, t) && Belongs(db, l, t) && OrdinalOf(db, k) < OrdinalOf(db, l) && Suffix(k) > Suffix(l);
      DrainIsWhatIsDue(db, now, k);
      DrainIsWhatIsDue(db, now, l);
      var i :| 0 <= i < |drain| && drain[i].logicalId == k;
      var j :| 0 <= j < |drain| && drain[j].logicalId == l;
      assert j < i;
    }
  }

  // ----------------------------------------------------------- and the attempts

  /** What a drain attempts keeps the order of what it took up. */
  lemma {:induction false} AttemptsKeepOrder(
    db: Db, due: seq<M.Record>, blocked: set<string>, replies: seq<Reply>, t: string)
    requires InOrdinalOrder(db, due, t)
    ensures var tried := Tried(Attempts(due, blocked, replies));
      InOrdinalOrder(db, tried, t) && forall r :: r in tried ==> r in due
    decreases |due|
  {
    hide TurnOf, Belongs, OrdinalOf;
    if due != [] && replies != [] {
      assert InOrdinalOrder(db, due[1..], t);
      if TurnOf(due[0]) in blocked {
        AttemptsKeepOrder(db, due[1..], blocked, replies, t);
      } else {
        var next := if replies[0].answer.Accepted? then blocked else blocked + {TurnOf(due[0])};
        AttemptsKeepOrder(db, due[1..], next, replies[1..], t);
        var rest := Tried(Attempts(due[1..], next, replies[1..]));
        assert Tried(Attempts(due, blocked, replies)) == [due[0]] + rest;
        HeadKeepsOrder(db, due, rest, t);
      }
    }
  }

  lemma HeadKeepsOrder(db: Db, due: seq<M.Record>, rest: seq<M.Record>, t: string)
    requires due != [] && InOrdinalOrder(db, due, t) && InOrdinalOrder(db, rest, t)
    requires forall r :: r in rest ==> r in due[1..]
    ensures InOrdinalOrder(db, [due[0]] + rest, t)
  {
    hide Belongs, OrdinalOf;
    var all := [due[0]] + rest;
    forall i, j | 0 <= i < j < |all| && Belongs(db, all[i].logicalId, t) && Belongs(db, all[j].logicalId, t)
      ensures OrdinalOf(db, all[i].logicalId) <= OrdinalOf(db, all[j].logicalId)
    {
      if i == 0 {
        assert rest[j - 1] in rest;
        var k :| 1 <= k < |due| && due[k] == rest[j - 1];
      } else {
        assert all[i] == rest[i - 1] && all[j] == rest[j - 1];
      }
    }
  }

  lemma {:induction false} AllAreTried(due: seq<M.Record>, replies: seq<Reply>)
    requires |replies| == |due| && forall r :: r in replies ==> r.answer.Accepted?
    ensures Tried(Attempts(due, {}, replies)) == due
  {
    hide TurnOf;
    if due != [] {
      AllAreTried(due[1..], replies[1..]);
      assert replies[0] in replies;
      assert Attempts(due, {}, replies) == [Attempt(due[0], replies[0])] + Attempts(due[1..], {}, replies[1..]);
    }
  }

  /** A drain attempts a turn's rows in the order of their ordinals, whatever the relay answers,
      exactly when no chunk number falls along the ordinals of the rows that are due. */
  lemma ADrainKeepsOrdinalOrderExactlyWhen(db: Db, now: int, t: string)
    ensures (forall replies :: InOrdinalOrder(db, Tried(Attempts(Drain(db, now), {}, replies)), t)) <==> !Falls(db, now, t)
  {
    var drain := Drain(db, now);
    ATurnGoesOutInOrdinalOrderExactlyWhen(db, now, t);
    hide Drain, InOrdinalOrder, Falls;
    if InOrdinalOrder(db, drain, t) {
      forall replies ensures InOrdinalOrder(db, Tried(Attempts(drain, {}, replies)), t) {
        AttemptsKeepOrder(db, drain, {}, replies, t);
      }
    } else {
      var replies := seq(|drain|, _ => Reply(M.Accepted, now));
      AllAreTried(drain, replies);
    }
  }
}
