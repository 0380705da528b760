/** A run of the outbox in which a message goes out between the two chunks of the one before it. */
module MessageRuns {
  import opened Basics
  import opened Tables
  import opened Ordering
  import opened OutboxModel
  import opened OutboxProofs
  import opened TurnOrder
  import opened MessageOrder
  import opened Overtaking

  /** Two lists without repeats and with the same members. */
  lemma SameMembers<T>(a: seq<T>, b: seq<T>)
    requires forall i, j :: 0 <= i < j < |a| ==> a[i] != a[j]
    requires forall i, j :: 0 <= i < j < |b| ==> b[i] != b[j]
    requires forall x :: x in a <==> x in b
    ensures multiset(a) == multiset(b)
  {
    forall x ensures multiset(a)[x] == multiset(b)[x] {
      AtMostOnce(a, x);
      AtMostOnce(b, x);
      assert x in multiset(a) <==> x in a;
      assert x in multiset(b) <==> x in b;
    }
  }

  lemma DrainRecord(db: Db, now: int, i: nat)
    requires i < |Drain(db, now)|
    ensures var r := Drain(db, now)[i];
      && r.logicalId in db.outbox
      && r == Record(r.logicalId, db.outbox[r.logicalId].event, db.outbox[r.logicalId].attempts)
  {
    var due, ids := Publishers.Due(db, now), DuePublishes(db, Some(now));
    DueIsEveryCandidateOnce(db, Some(now));
    DrainPermutes(due);
    hide DuePublishes, PublishOrder.InPublishOrder;
    assert Drain(db, now)[i] in due;
    var x :| 0 <= x < |due| && due[x] == Drain(db, now)[i];
    assert ids[x] in Candidates(db, Some(now));
  }

  /** Three rows of a turn, of two chunks and one chunk, and no others. */
  ghost predicate TwoMessages(s: System, t: string, a: Chunk, b: Chunk, c: Chunk) {
    && Plain(t) && HoldsChunks(s, t, 0, [a, b, c])
    && s.db.outbox.Keys == {Id(t, a), Id(t, b), Id(t, c)} && s.db.intents.Keys == s.db.outbox.Keys
    && a.index == 0 && b.index == 1 && c.index == 0 && a.messageId == b.messageId && c.messageId != a.messageId
    && a.now <= 0 && b.now <= 0 && c.now <= 0
  }

  /** `i` is to go out before `k`, and `k` before `j`. */
  ghost predicate InThisOrder(db: Db, t: string, i: string, k: string, j: string) {
    && Candidates(db, Some(0)) == {i, j, k} && i != j && j != k && i != k
    && Belongs(db, i, t) && Belongs(db, j, t) && Belongs(db, k, t)
    && !KeyLe(Place(db, j), Place(db, i)) && !KeyLe(Place(db, k), Place(db, i)) && !KeyLe(Place(db, j), Place(db, k))
  }

  lemma Later(db: Db, x: string, y: string)
    requires Suffix(x) > Suffix(y) || (Suffix(x) == Suffix(y) && OrdinalOf(db, x) > OrdinalOf(db, y))
    ensures !KeyLe(Place(db, x), Place(db, y)) && x != y
  {
    hide Suffix;
  }

  lemma OnlyRows(db: Db, rows: set<string>)
    requires db.outbox.Keys == rows
    ensures Candidates(db, Some(0)) <= rows
  {
  }

  lemma TheirPlaces(s: System, t: string, a: Chunk, b: Chunk, c: Chunk)
    requires TwoMessages(s, t, a, b, c)
    ensures InThisOrder(s.db, t, Id(t, a), Id(t, c), Id(t, b))
  {
    hide HoldsChunks, Id, Suffix, Belongs, OrdinalOf, Plain, Place, KeyLe;
    OnlyRows(s.db, {Id(t, a), Id(t, b), Id(t, c)});
    hide Candidates;
    var cs := [a, b, c];
    assert cs[0] == a && cs[1] == b && cs[2] == c;
    AChunkIsDue(s, t, 0, cs, 0, 0);
    AChunkIsDue(s, t, 0, cs, 0, 1);
    AChunkIsDue(s, t, 0, cs, 0, 2);
    Later(s.db, Id(t, b), Id(t, a));
    Later(s.db, Id(t, c), Id(t, a));
    Later(s.db, Id(t, b), Id(t, c));
  }

  lemma ThreeSorted(d: seq<string>, i: string, k: string, j: string)
    requires |d| == 3 && d[0] in {i, j, k} && d[1] in {i, j, k} && d[2] in {i, j, k}
    requires forall x, y :: 0 <= x < y < 3 ==>
      d[x] != d[y] && !(d[x] == j && d[y] == i) && !(d[x] == k && d[y] == i) && !(d[x] == j && d[y] == k)
    ensures d == [i, k, j]
  {
    assert d[0] != d[1] && d[0] != d[2] && d[1] != d[2];
  }

  lemma DrainTakesUp(db: Db, x: nat)
    requires x < |Drain(db, 0)|
    ensures Drain(db, 0)[x].logicalId in Candidates(db, Some(0))
  {
    hide Drain;
    DrainIsWhatIsDue(db, 0, Drain(db, 0)[x].logicalId);
  }

  /** The drain takes the second message up between the chunks of the first. */
  lemma TheDrainInterleaves(db: Db, t: string, i: string, k: string, j: string)
    requires InThisOrder(db, t, i, k, j)
    ensures |Drain(db, 0)| == 3 && forall x :: 0 <= x < 3 ==> Drain(db, 0)[x].logicalId == [i, k, j][x]
  {
    hide Candidates, Drain, Belongs, Place, KeyLe;
    var drain := Drain(db, 0);
    DrainIsWhatIsDue(db, 0, i);
    assert |drain| == |{i, j, k}| == 3;
    var d := [drain[0].logicalId, drain[1].logicalId, drain[2].logicalId];
    DrainTakesUp(db, 0);
    DrainTakesUp(db, 1);
    DrainTakesUp(db, 2);
    forall x, y | 0 <= x < y < 3
      ensures d[x] != d[y] && !(d[x] == j && d[y] == i) && !(d[x] == k && d[y] == i) && !(d[x] == j && d[y] == k)
    {
      ATurnGoesOutByChunkThenOrdinal(db, 0, t, x, y);
    }
    ThreeSorted(d, i, k, j);
  }

  lemma TheyAreDue(db: Db, t: string, i: string, k: string, j: string)
    requires InThisOrder(db, t, i, k, j)
    ensures multiset([i, k, j]) == multiset(DuePublishes(db, Some(0)))
  {
    var due := DuePublishes(db, Some(0));
    DueIsEveryCandidateOnce(db, Some(0));
    DueHasNoRepeats(db, Some(0));
    assert Candidates(db, Some(0)) == {i, j, k} && i != j && j != k && i != k;
    hide *;
    ThreeOnce(i, k, j, due);
  }

  lemma ThreeOnce(i: string, k: string, j: string, due: seq<string>)
    requires i != j && j != k && i != k && forall l :: l in due <==> l in {i, j, k}
    requires forall x, y :: 0 <= x < y < |due| ==> due[x] != due[y]
    ensures multiset([i, k, j]) == multiset(due)
  {
    SameMembers([i, k, j], due);
  }

  lemma Recorded1(limits: Limits, trace: seq<System>, steps: seq<Step>, s: System, t: string, c: Chunk)
    returns (longer: seq<System>, more: seq<Step>)
    requires Reached(limits, trace, steps, s) && Id(t, c) !in s.db.intents && Id(t, c) !in s.db.outbox
    ensures var to := Recorded(s, Id(t, c), t, c.body, c.event, c.now, Whole);
      && Reached(limits, longer, more, to) && |steps| + 1 == |more| && longer[|more|] == to
      && to.db.outbox.Keys == s.db.outbox.Keys + {Id(t, c)} && to.db.intents.Keys == s.db.intents.Keys + {Id(t, c)}
      && to.rest == s.rest && to.waiting == s.waiting && to.log == s.log + [Stored(Id(t, c), c.event)]
  {
    hide Id;
    longer, more := Extended(limits, trace, steps, s, RecordChunk(Id(t, c), t, c.body, c.event, c.now, Whole));
  }

  function Heard(r: Record): seq<Act> { [Act.Sent(r.logicalId, r.event), Acked(r.logicalId)] }

  /** The next row is sent and acknowledged. */
  lemma SentAndAcked(limits: Limits, trace: seq<System>, steps: seq<Step>, s: System, now: int)
    returns (longer: seq<System>, more: seq<Step>, last: System)
    requires Reached(limits, trace, steps, s) && s.waiting.None? && s.rest != []
    ensures Reached(limits, longer, more, last) && trace <= longer && steps <= more
    ensures last.rest == s.rest[1..] && last.waiting.None?
    ensures last.log == s.log + Heard(s.rest[0])
  {
    longer, more := Extended(limits, trace, steps, s, TakeNext(false));
    var sent := Next(s, limits, TakeNext(false));
    longer, more := Extended(limits, longer, more, sent, Answered(Accepted, now));
    last := Next(sent, limits, Answered(Accepted, now));
  }

  /** Any turn, any two messages, the first of two chunks: recorded, then drained by a relay that
      accepts everything, they go out first chunk, other message, second chunk. */
  lemma AMessageCanGoOutBetweenChunks(
    limits: Limits, t: string, messageId: string, other: string, a: Chunk, b: Chunk, c: Chunk)
    returns (trace: seq<System>, steps: seq<Step>, recorded: System, last: System)
    requires Plain(t) && messageId != other
    requires a == Chunk(messageId, 0, a.body, a.event, 0) && b == Chunk(messageId, 1, b.body, b.event, 0)
    requires c == Chunk(other, 0, c.body, c.event, 0)
    ensures Reached(limits, trace, steps, last) && |steps| > 3 && trace[3] == recorded
    ensures OrdinalOf(recorded.db, Id(t, a)) == 0 && OrdinalOf(recorded.db, Id(t, b)) == 1
    ensures OrdinalOf(recorded.db, Id(t, c)) == 2
    ensures steps[3] == StartDrain([Id(t, a), Id(t, c), Id(t, b)], 0)
    ensures recorded.db.outbox.Keys == {Id(t, a), Id(t, b), Id(t, c)}
    ensures Snapshot(recorded.db, [Id(t, a), Id(t, c), Id(t, b)]) == Drain(recorded.db, 0)
    ensures last.log == [Stored(Id(t, a), a.event), Stored(Id(t, b), b.event), Stored(Id(t, c), c.event)]
      + [Act.Sent(Id(t, a), a.event), Acked(Id(t, a)), Act.Sent(Id(t, c), c.event), Acked(Id(t, c))]
      + [Act.Sent(Id(t, b), b.event), Acked(Id(t, b))]
  {
    hide HoldsChunks, Id, Plain, InThisOrder, Drain, OrdinalOf, DuePublishes;
    trace, steps, recorded := BothRecorded(limits, t, a, b, c);
    TheirPlaces(recorded, t, a, b, c);
    TheirRows(recorded, t, a, b, c);
    assert recorded.db.outbox.Keys == {Id(t, a), Id(t, b), Id(t, c)};
    assert |trace| == 4 && trace[3] == recorded && |steps| == 3;
    hide *;
    trace, steps, last := ThreeDrained(limits, trace, steps, recorded, t, Id(t, a), Id(t, c), Id(t, b));
  }

  lemma ThreeDrained(limits: Limits, trace: seq<System>, steps: seq<Step>, s: System, t: string,
                     i: string, k: string, j: string)
    returns (longer: seq<System>, more: seq<Step>, last: System)
    requires Reached(limits, trace, steps, s) && |trace| == |steps| + 1 && trace[|steps|] == s
    requires s.rest == [] && s.waiting.None? && InThisOrder(s.db, t, i, k, j)
    requires forall l :: l in [i, k, j] ==> l in s.db.outbox && s.db.outbox[l].attempts == 0
    ensures Reached(limits, longer, more, last) && trace <= longer && steps + [StartDrain([i, k, j], 0)] <= more
    ensures Snapshot(s.db, [i, k, j]) == Drain(s.db, 0)
    ensures last.log == s.log
      + [Act.Sent(i, s.db.outbox[i].event), Acked(i), Act.Sent(k, s.db.outbox[k].event), Acked(k)]
      + [Act.Sent(j, s.db.outbox[j].event), Acked(j)]
  {
    hide Drain, DuePublishes, Reached, InThisOrder;
    var order := [i, k, j];
    TheDrainInterleaves(s.db, t, i, k, j);
    TheyAreDue(s.db, t, i, k, j);
    DrainIsSnapshot(s.db, order);
    longer, more := Extended(limits, trace, steps, s, StartDrain(order, 0));
    longer, more, last := AllSent(limits, longer, more, s.(rest := Drain(s.db, 0)));
  }

  lemma DrainIsSnapshot(db: Db, order: seq<string>)
    requires multiset(order) == multiset(DuePublishes(db, Some(0)))
    requires |Drain(db, 0)| == |order| && forall x :: 0 <= x < |order| ==> Drain(db, 0)[x].logicalId == order[x]
    ensures (forall l :: l in order ==> l in db.outbox) && Snapshot(db, order) == Drain(db, 0)
  {
    StartedIsKnown(db, order, Some(0));
    hide DuePublishes, Drain;
    forall x | 0 <= x < |order| ensures Drain(db, 0)[x] == Snapshot(db, order)[x] { DrainRecord(db, 0, x); }
  }

  /** Three rows, all of them sent and acknowledged. */
  lemma AllSent(limits: Limits, trace: seq<System>, steps: seq<Step>, s: System)
    returns (longer: seq<System>, more: seq<Step>, last: System)
    requires Reached(limits, trace, steps, s) && s.waiting.None? && |s.rest| == 3
    ensures Reached(limits, longer, more, last) && trace <= longer && steps <= more
    ensures last.log == s.log + Heard(s.rest[0]) + Heard(s.rest[1]) + Heard(s.rest[2])
  {
    hide Reached;
    var t: System;
    longer, more, t := SentAndAcked(limits, trace, steps, s, 0);
    longer, more, t := SentAndAcked(limits, longer, more, t, 0);
    longer, more, last := SentAndAcked(limits, longer, more, t, 0);
  }

  lemma TheirRows(s: System, t: string, a: Chunk, b: Chunk, c: Chunk)
    requires TwoMessages(s, t, a, b, c)
    ensures forall d :: d in {a, b, c} ==>
      Id(t, d) in s.db.outbox && s.db.outbox[Id(t, d)].event == d.event && s.db.outbox[Id(t, d)].attempts == 0
    ensures OrdinalOf(s.db, Id(t, a)) == 0 && OrdinalOf(s.db, Id(t, b)) == 1 && OrdinalOf(s.db, Id(t, c)) == 2
  {
    var cs := [a, b, c];
    assert RowOf(s.db, t, cs[0], 0) && RowOf(s.db, t, cs[1], 1) && RowOf(s.db, t, cs[2], 2);
    hide Id, Plain;
  }

  lemma BothRecorded(limits: Limits, t: string, a: Chunk, b: Chunk, c: Chunk)
    returns (trace: seq<System>, steps: seq<Step>, recorded: System)
    requires Plain(t) && a.messageId == b.messageId != c.messageId && a.index == c.index == 0 && b.index == 1
    requires a.now == b.now == c.now == 0
    ensures Reached(limits, trace, steps, recorded) && |steps| == 3 && TwoMessages(recorded, t, a, b, c)
    ensures recorded.rest == [] && recorded.waiting.None?
    ensures recorded.log == [Stored(Id(t, a), a.event), Stored(Id(t, b), b.event), Stored(Id(t, c), c.event)]
  {
    hide Id, Recorded, RecordChunks, Reached, HoldsChunks, Plain;
    IdsDiffer(t, a, b);
    IdsDiffer(t, b, c);
    IdsDiffer(t, a, c);
    TheyAreStored(t, a, b, c);
    trace, steps, recorded := ThreeRecorded(limits, t, a, b, c);
  }

  lemma ThreeRecorded(limits: Limits, t: string, a: Chunk, b: Chunk, c: Chunk)
    returns (trace: seq<System>, steps: seq<Step>, recorded: System)
    requires Id(t, a) != Id(t, b) && Id(t, b) != Id(t, c) && Id(t, a) != Id(t, c)
    ensures Reached(limits, trace, steps, recorded) && |steps| == 3
    ensures recorded == RecordChunks(NEW_SYSTEM, t, [a, b, c])
    ensures recorded.db.outbox.Keys == recorded.db.intents.Keys == {Id(t, a), Id(t, b), Id(t, c)}
    ensures recorded.rest == [] && recorded.waiting.None?
    ensures recorded.log == [Stored(Id(t, a), a.event), Stored(Id(t, b), b.event), Stored(Id(t, c), c.event)]
  {
    hide Id, Recorded, RecordChunks;
    trace, steps := [NEW_SYSTEM], [];
    assert Reached(limits, trace, steps, NEW_SYSTEM);
    hide Reached;
    trace, steps := Recorded1(limits, trace, steps, NEW_SYSTEM, t, a);
    var s1 := Recorded(NEW_SYSTEM, Id(t, a), t, a.body, a.event, a.now, Whole);
    assert s1.db.outbox.Keys == {Id(t, a)} && s1.db.intents.Keys == {Id(t, a)};
    trace, steps := Recorded1(limits, trace, steps, s1, t, b);
    var s2 := Recorded(s1, Id(t, b), t, b.body, b.event, b.now, Whole);
    assert s2.db.outbox.Keys == {Id(t, a), Id(t, b)} && s2.db.intents.Keys == {Id(t, a), Id(t, b)};
    trace, steps := Recorded1(limits, trace, steps, s2, t, c);
    recorded := Recorded(s2, Id(t, c), t, c.body, c.event, c.now, Whole);
    Unrolled(NEW_SYSTEM, t, a, b, c);
  }

  lemma TheyAreStored(t: string, a: Chunk, b: Chunk, c: Chunk)
    requires Plain(t) && Id(t, a) != Id(t, b) && Id(t, b) != Id(t, c) && Id(t, a) != Id(t, c)
    ensures HoldsChunks(RecordChunks(NEW_SYSTEM, t, [a, b, c]), t, 0, [a, b, c])
  {
    var cs := [a, b, c];
    assert Unnamed(NEW_SYSTEM.db, t) && NextOrdinal(NEW_SYSTEM.ordinals, t) == 0;
    hide *;
    ChunksAreStored(NEW_SYSTEM, t, cs);
  }

  lemma Unrolled(s: System, t: string, a: Chunk, b: Chunk, c: Chunk)
    ensures var s1 := Recorded(s, Id(t, a), t, a.body, a.event, a.now, Whole);
      var s2 := Recorded(s1, Id(t, b), t, b.body, b.event, b.now, Whole);
      RecordChunks(s, t, [a, b, c]) == Recorded(s2, Id(t, c), t, c.body, c.event, c.now, Whole)
  {
    hide Recorded, Id;
    assert [a, b, c][..2] == [a, b] && [a, b][..1] == [a] && [a][..0] == [];
    assert RecordChunks(s, t, []) == s;
    assert RecordChunks(s, t, [a]) == Recorded(s, Id(t, a), t, a.body, a.event, a.now, Whole);
  }
}
