/** What the order of the ordinals amounts to in messages and chunks: a turn's rows leave out of
    order as soon as anything follows a message of several chunks. */
module MessageOrder {
  import opened Basics
  import opened Tables
  import opened LogicalIds
  import opened MessageSplit
  import opened OutputRouters
  import opened TurnOrder
  import M = OutboxModel

  /** One assistant message as it was recorded: its bodies, and what was signed for each. */
  datatype Message = Message(id: string, bodies: seq<Text>, events: seq<SignedEvent>, now: int) {
    predicate Signed() { |bodies| <= |events| }
  }

  datatype Chunk = Chunk(messageId: string, index: nat, body: Text, event: SignedEvent, now: int)

  function ChunksOf(m: Message): seq<Chunk>
    requires m.Signed()
  {
    seq(|m.bodies|, i requires 0 <= i < |m.bodies| => Chunk(m.id, i, m.bodies[i], m.events[i], m.now))
  }

  /** Every message's chunks, one after the other. */
  function AllChunks(ms: seq<Message>): seq<Chunk>
    requires forall m :: m in ms ==> m.Signed()
  {
    if ms == [] then [] else AllChunks(ms[..|ms| - 1]) + ChunksOf(ms[|ms| - 1])
  }

  /** A turn's messages, recorded one after the other by one process. */
  function RecordAll(s: M.System, t: string, ms: seq<Message>): M.System
    requires forall m :: m in ms ==> m.Signed()
  {
    if ms == [] then s else
    var m := ms[|ms| - 1];
    assert m.Signed();
    RecordFrom(RecordAll(s, t, ms[..|ms| - 1]), t, m.id, m.bodies, m.events, m.now, 0)
  }

  function Id(t: string, c: Chunk): string { LogicalId(t, c.messageId, c.index) }

  function RecordChunks(s: M.System, t: string, cs: seq<Chunk>): M.System {
    if cs == [] then s else
    var c := cs[|cs| - 1];
    M.Recorded(RecordChunks(s, t, cs[..|cs| - 1]), Id(t, c), t, c.body, c.event, c.now, M.Whole)
  }

  // --------------------------------------------------- messages as one run of chunks

  lemma {:induction false} RecordedInTwo(s: M.System, t: string, a: seq<Chunk>, b: seq<Chunk>)
    ensures RecordChunks(s, t, a + b) == RecordChunks(RecordChunks(s, t, a), t, b)
    decreases |b|
  {
    hide M.Recorded, Id;
    if b == [] {
      assert a + b == a;
    } else {
      assert (a + b)[..|a + b| - 1] == a + b[..|b| - 1];
      RecordedInTwo(s, t, a, b[..|b| - 1]);
    }
  }

  lemma {:induction false} AMessageIsItsChunks(s: M.System, t: string, m: Message, i: nat)
    requires m.Signed() && i <= |m.bodies|
    ensures RecordFrom(RecordChunks(s, t, ChunksOf(m)[..i]), t, m.id, m.bodies, m.events, m.now, i)
      == RecordChunks(s, t, ChunksOf(m))
    decreases |m.bodies| - i
  {
    var cs := ChunksOf(m);
    hide M.Recorded, LogicalId;
    if i == |m.bodies| {
      assert cs[..i] == cs;
    } else {
      assert cs[..i + 1][..i] == cs[..i] && cs[..i + 1][i] == cs[i];
      AMessageIsItsChunks(s, t, m, i + 1);
    }
  }

  lemma {:induction false} MessagesAreChunks(s: M.System, t: string, ms: seq<Message>)
    requires forall m :: m in ms ==> m.Signed()
    ensures RecordAll(s, t, ms) == RecordChunks(s, t, AllChunks(ms))
  {
    if ms != [] {
      var front, m := ms[..|ms| - 1], ms[|ms| - 1];
      MessagesAreChunks(s, t, front);
      var before := RecordChunks(s, t, AllChunks(front));
      AMessageIsItsChunks(before, t, m, 0);
      assert ChunksOf(m)[..0] == [];
      RecordedInTwo(s, t, AllChunks(front), ChunksOf(m));
    }
  }

  // ------------------------------------------------------------- what is stored

  /** The store names no row after the turn. */
  predicate Unnamed(db: Db, t: string) {
    && (forall l :: l in db.intents ==> SplitLogicalId(l).turnId != t)
    && (forall l :: l in db.outbox ==> SplitLogicalId(l).turnId != t)
  }

  ghost predicate Named(t: string, cs: seq<Chunk>, l: string) { exists p :: 0 <= p < |cs| && l == Id(t, cs[p]) }

  /** The turn's rows are its chunks, with the ordinals counted on from `base`. */
  ghost predicate HoldsChunks(s: M.System, t: string, base: nat, cs: seq<Chunk>) {
    && M.NextOrdinal(s.ordinals, t) == base + |cs|
    && (forall l :: l in s.db.intents && SplitLogicalId(l).turnId == t ==> Named(t, cs, l))
    && (forall l :: l in s.db.outbox && SplitLogicalId(l).turnId == t ==> Named(t, cs, l))
    && (forall p :: 0 <= p < |cs| ==> RowOf(s.db, t, cs[p], base + p))
  }

  predicate RowOf(db: Db, t: string, c: Chunk, ordinal: nat) {
    var l := Id(t, c);
    && l in db.intents && db.intents[l].turnId == t && db.intents[l].ordinal == ordinal
    && l in db.outbox && db.outbox[l] == M.Fresh(c.event, c.now)
  }

  predicate Plain(t: string) { t != "" && ':' !in t }

  lemma IdReads(t: string, c: Chunk)
    requires Plain(t)
    ensures SplitLogicalId(Id(t, c)) == Parts(t, c.index)
  {
    SplitUndoesPrintExactlyWhen(t, c.messageId, c.index);
  }

  lemma {:induction false} ChunksAreStored(s: M.System, t: string, cs: seq<Chunk>)
    requires Plain(t) && Unnamed(s.db, t)
    requires forall p, q :: 0 <= p < q < |cs| ==> Id(t, cs[p]) != Id(t, cs[q])
    ensures HoldsChunks(RecordChunks(s, t, cs), t, M.NextOrdinal(s.ordinals, t), cs)
  {
    hide Id, Plain, M.Recorded, HoldsChunks, Unnamed;
    if cs == [] {
      NothingStored(s, t);
    } else {
      var front := cs[..|cs| - 1];
      assert forall p :: 0 <= p < |front| ==> front[p] == cs[p];
      ChunksAreStored(s, t, front);
      OneMoreStored(RecordChunks(s, t, front), t, M.NextOrdinal(s.ordinals, t), front, cs[|cs| - 1]);
      assert cs == front + [cs[|cs| - 1]];
    }
  }

  lemma NothingStored(s: M.System, t: string)
    requires Unnamed(s.db, t)
    ensures HoldsChunks(s, t, M.NextOrdinal(s.ordinals, t), [])
  {
  }

  lemma OneMoreStored(s: M.System, t: string, base: nat, front: seq<Chunk>, c: Chunk)
    requires Plain(t) && HoldsChunks(s, t, base, front)
    requires forall p :: 0 <= p < |front| ==> Id(t, front[p]) != Id(t, c)
    ensures HoldsChunks(M.Recorded(s, Id(t, c), t, c.body, c.event, c.now, M.Whole), t, base, front + [c])
  {
    var l, to := Id(t, c), M.Recorded(s, Id(t, c), t, c.body, c.event, c.now, M.Whole);
    IdReads(t, c);
    assert !Named(t, front, l);
    RecordedRow(s, l, t, c.body, c.event, c.now);
    hide M.Recorded, Plain, SplitLogicalId, M.NextOrdinal, M.Fresh;
    OneMoreNamed(t, front, c);
    OneMoreRow(s.db, to.db, t, base, front, c, c.now);
    hide Named, RowOf, Id;
  }

  lemma RecordedRow(s: M.System, l: string, t: string, body: Text, event: SignedEvent, now: int)
    requires l !in s.db.intents && l !in s.db.outbox
    ensures var to := M.Recorded(s, l, t, body, event, now, M.Whole);
      && to.db.intents == s.db.intents[l := IntentRow(t, M.NextOrdinal(s.ordinals, t), body, Signed, now)]
      && to.db.outbox == s.db.outbox[l := M.Fresh(event, now)]
      && M.NextOrdinal(to.ordinals, t) == M.NextOrdinal(s.ordinals, t) + 1
  {
  }

  lemma OneMoreNamed(t: string, front: seq<Chunk>, c: Chunk)
    ensures forall k :: Named(t, front, k) || k == Id(t, c) ==> Named(t, front + [c], k)
  {
    hide Id;
    var cs := front + [c];
    forall k | Named(t, front, k) || k == Id(t, c) ensures Named(t, cs, k) {
      if Named(t, front, k) {
        var p :| 0 <= p < |front| && k == Id(t, front[p]);
        assert k == Id(t, cs[p]);
      } else {
        assert k == Id(t, cs[|front|]);
      }
    }
  }

  lemma OneMoreRow(from: Db, to: Db, t: string, base: nat, front: seq<Chunk>, c: Chunk, at: int)
    requires forall p :: 0 <= p < |front| ==> RowOf(from, t, front[p], base + p) && Id(t, front[p]) != Id(t, c)
    requires to.intents == from.intents[Id(t, c) := IntentRow(t, base + |front|, c.body, Signed, at)]
    requires to.outbox == from.outbox[Id(t, c) := M.Fresh(c.event, c.now)]
    ensures forall p :: 0 <= p < |front + [c]| ==> RowOf(to, t, (front + [c])[p], base + p)
  {
    hide Id, M.Fresh;
    var cs := front + [c];
    forall p | 0 <= p < |cs| ensures RowOf(to, t, cs[p], base + p) {
      if p < |front| { assert RowOf(from, t, front[p], base + p) && cs[p] == front[p]; }
    }
  }

  // ------------------------------------------------------------------ the order

  /** A chunk number falls along the recording. */
  ghost predicate ChunkFalls(cs: seq<Chunk>) { exists p, q :: 0 <= p < q < |cs| && cs[p].index > cs[q].index }

  lemma ChunksFallExactlyWhen(s: M.System, t: string, base: nat, cs: seq<Chunk>, now: int)
    requires Plain(t) && HoldsChunks(s, t, base, cs) && forall c :: c in cs ==> c.now <= now
    ensures Falls(s.db, now, t) <==> ChunkFalls(cs)
  {
    hide Id, SplitLogicalId, Plain;
    if ChunkFalls(cs) {
      var p, q :| 0 <= p < q < |cs| && cs[p].index > cs[q].index;
      AChunkIsDue(s, t, base, cs, now, p);
      AChunkIsDue(s, t, base, cs, now, q);
      hide M.Candidates, Belongs, OrdinalOf, Suffix, HoldsChunks;
    }
    if Falls(s.db, now, t) {
      var k, l :| k in M.Candidates(s.db, Some(now)) && l in M.Candidates(s.db, Some(now))
        && Belongs(s.db, k, t) && Belongs(s.db, l, t) && OrdinalOf(s.db, k) < OrdinalOf(s.db, l) && Suffix(k) > Suffix(l);
      var p := ARowIsAChunk(s, t, base, cs, k);
      var q := ARowIsAChunk(s, t, base, cs, l);
    }
  }

  lemma AChunkIsDue(s: M.System, t: string, base: nat, cs: seq<Chunk>, now: int, p: nat)
    requires Plain(t) && HoldsChunks(s, t, base, cs) && p < |cs| && forall c :: c in cs ==> c.now <= now
    ensures var l := Id(t, cs[p]);
      && l in M.Candidates(s.db, Some(now)) && Belongs(s.db, l, t)
      && OrdinalOf(s.db, l) == base + p && Suffix(l) == cs[p].index
  {
    IdReads(t, cs[p]);
    assert cs[p] in cs && RowOf(s.db, t, cs[p], base + p);
    hide Id, SplitLogicalId;
  }

  lemma ARowIsAChunk(s: M.System, t: string, base: nat, cs: seq<Chunk>, l: string) returns (p: nat)
    requires Plain(t) && HoldsChunks(s, t, base, cs) && Belongs(s.db, l, t)
    ensures p < |cs| && OrdinalOf(s.db, l) == base + p && Suffix(l) == cs[p].index
  {
    assert Named(t, cs, l);
    p :| 0 <= p < |cs| && l == Id(t, cs[p]);
    IdReads(t, cs[p]);
    assert RowOf(s.db, t, cs[p], base + p);
    hide Id, SplitLogicalId;
  }

  /** A message of two chunks or more is followed by one that has any. */
  ghost predicate FollowedUp(ms: seq<Message>) {
    exists x, y :: 0 <= x < y < |ms| && |ms[x].bodies| >= 2 && |ms[y].bodies| >= 1
  }

  lemma {:induction false} LongMessages(ms: seq<Message>)
    requires forall m :: m in ms ==> m.Signed()
    ensures (exists p :: 0 <= p < |AllChunks(ms)| && AllChunks(ms)[p].index > 0) <==> exists m :: m in ms && |m.bodies| >= 2
    ensures forall c :: c in AllChunks(ms) ==> exists m :: m in ms && c in ChunksOf(m)
  {
    if ms != [] {
      var front, m := ms[..|ms| - 1], ms[|ms| - 1];
      LongMessages(front);
      var before, cs := AllChunks(front), ChunksOf(m);
      assert AllChunks(ms) == before + cs && ms == front + [m];
      hide AllChunks;
      if n :| n in ms && |n.bodies| >= 2 {
        if n in front {
          var p :| 0 <= p < |before| && before[p].index > 0;
          assert (before + cs)[p].index > 0;
        } else {
          assert (before + cs)[|before| + 1].index == 1;
        }
      }
      if p :| 0 <= p < |before + cs| && (before + cs)[p].index > 0 {
        if p < |before| { assert before[p].index > 0; } else { assert |m.bodies| >= 2; }
      }
    }
  }

  lemma {:induction false} ChunkFallsExactlyWhen(ms: seq<Message>)
    requires forall m :: m in ms ==> m.Signed()
    ensures ChunkFalls(AllChunks(ms)) <==> FollowedUp(ms)
  {
    if ms != [] {
      var front, m := ms[..|ms| - 1], ms[|ms| - 1];
      ChunkFallsExactlyWhen(front);
      LongMessages(front);
      assert AllChunks(ms) == AllChunks(front) + ChunksOf(m) && ms == front + [m];
      FallsAcross(AllChunks(front), m);
      FollowedUpAcross(front, m);
      hide AllChunks, ChunksOf, ChunkFalls, FollowedUp;
    }
  }

  lemma FallsAcross(before: seq<Chunk>, m: Message)
    requires m.Signed()
    ensures ChunkFalls(before + ChunksOf(m)) <==>
      ChunkFalls(before) || (|m.bodies| >= 1 && exists p :: 0 <= p < |before| && before[p].index > 0)
  {
    var cs, n := before + ChunksOf(m), |before|;
    if ChunkFalls(before) {
      var p, q :| 0 <= p < q < n && before[p].index > before[q].index;
      assert cs[p].index > cs[q].index;
    }
    if p :| 0 <= p < n && before[p].index > 0 && |m.bodies| >= 1 {
      assert cs[p].index > cs[n].index;
    }
    if ChunkFalls(cs) {
      var p, q :| 0 <= p < q < |cs| && cs[p].index > cs[q].index;
      if q < n { assert before[p].index > before[q].index; } else { assert p < n && before[p].index > 0; }
    }
  }

  lemma FollowedUpAcross(front: seq<Message>, m: Message)
    ensures FollowedUp(front + [m]) <==>
      FollowedUp(front) || (|m.bodies| >= 1 && exists n :: n in front && |n.bodies| >= 2)
  {
    var ms := front + [m];
    if FollowedUp(front) {
      var x, y :| 0 <= x < y < |front| && |front[x].bodies| >= 2 && |front[y].bodies| >= 1;
      assert |ms[x].bodies| >= 2 && |ms[y].bodies| >= 1;
    }
    if n :| n in front && |n.bodies| >= 2 && |m.bodies| >= 1 {
      var x :| 0 <= x < |front| && front[x] == n;
      assert |ms[x].bodies| >= 2 && |ms[|front|].bodies| >= 1;
    }
    if FollowedUp(ms) {
      var x, y :| 0 <= x < y < |ms| && |ms[x].bodies| >= 2 && |ms[y].bodies| >= 1;
      if y < |front| { assert |front[x].bodies| >= 2 && |front[y].bodies| >= 1; } else { assert front[x] in front; }
    }
  }

  lemma {:induction false} IdsAreDistinct(t: string, ms: seq<Message>)
    requires Plain(t) && forall m :: m in ms ==> m.Signed()
    requires forall x, y :: 0 <= x < y < |ms| ==> ms[x].id != ms[y].id
    ensures var cs := AllChunks(ms); forall p, q :: 0 <= p < q < |cs| ==> Id(t, cs[p]) != Id(t, cs[q])
  {
    if ms != [] {
      var front, m := ms[..|ms| - 1], ms[|ms| - 1];
      assert ms == front + [m];
      IdsAreDistinct(t, front);
      LongMessages(front);
      var before, cs := AllChunks(front), AllChunks(ms);
      assert cs == before + ChunksOf(m);
      hide AllChunks, Id;
      forall p, q | 0 <= p < q < |cs| ensures Id(t, cs[p]) != Id(t, cs[q]) {
        if q >= |before| {
          if p < |before| { assert before[p] in before; assert cs[p].messageId != cs[q].messageId; }
          IdsDiffer(t, cs[p], cs[q]);
        }
      }
    }
  }

  lemma MessageRead(t: string, c: Chunk)
    ensures |Id(t, c)| - |Decimal(c.index)| - 1 == |t| + 1 + |c.messageId|
    ensures Id(t, c)[|t| + 1..|t| + 1 + |c.messageId|] == c.messageId
  {
  }

  lemma IdsDiffer(t: string, a: Chunk, b: Chunk)
    requires Plain(t) && (a.messageId != b.messageId || a.index != b.index)
    ensures Id(t, a) != Id(t, b)
  {
    IdReads(t, a);
    IdReads(t, b);
    MessageRead(t, a);
    MessageRead(t, b);
    hide Id, Plain;
  }

  /** However a turn's messages are cut, once they are all recorded and due a drain publishes
      them in the order they were recorded exactly when nothing follows a message of two chunks
      or more. Otherwise a later message goes out between the chunks of an earlier one. */
  lemma MessagesGoOutInOrderExactlyWhen(s: M.System, t: string, ms: seq<Message>, now: int)
    requires Plain(t) && Unnamed(s.db, t)
    requires forall m :: m in ms ==> m.Signed() && m.now <= now
    requires forall x, y :: 0 <= x < y < |ms| ==> ms[x].id != ms[y].id
    ensures var db := RecordAll(s, t, ms).db; InOrdinalOrder(db, Drain(db, now), t) <==> !FollowedUp(ms)
  {
    var cs := AllChunks(ms);
    MessagesAreChunks(s, t, ms);
    IdsAreDistinct(t, ms);
    ChunksAreStored(s, t, cs);
    var r := RecordChunks(s, t, cs);
    LongMessages(ms);
    ChunkFallsExactlyWhen(ms);
    hide HoldsChunks, AllChunks, RecordChunks, RecordAll, Falls, InOrdinalOrder, ChunkFalls, FollowedUp, Unnamed, Plain;
    ChunksFallExactlyWhen(r, t, M.NextOrdinal(s.ordinals, t), cs, now);
    ATurnGoesOutInOrdinalOrderExactlyWhen(r.db, now, t);
  }
}
