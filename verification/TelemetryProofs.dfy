/** What every run of the telemetry buffer keeps. */
module TelemetryProofs {
  import opened Basics
  import opened MessageSplit
  import opened FrameSplit
  import opened TelemetryModel

  // --------------------------------------------------------------- accounting

  function Drafts(log: seq<Emission>): seq<Draft> {
    seq(|log|, i requires 0 <= i < |log| => log[i].draft)
  }

  function FramesOf(draft: Draft, payloads: seq<Payload>): seq<Draft> {
    seq(|payloads|, i requires 0 <= i < |payloads| => draft.(payload := payloads[i]))
  }

  /** The frames a list of drafts splits into. */
  function AllFrames(cfg: Config, drafts: seq<Draft>): seq<Draft> {
    if drafts == [] then [] else
    var last := drafts[|drafts| - 1];
    AllFrames(cfg, drafts[..|drafts| - 1]) + FramesOf(last, SplitPayload(last.payload, cfg.budget))
  }

  /** The frames that overflow reports own up to. */
  function Told(frames: seq<Draft>): nat {
    if frames == [] then 0 else
    var last := frames[|frames| - 1].payload;
    Told(frames[..|frames| - 1]) + if last.Overflow? then last.dropped else 0
  }

  function OverflowReports(frames: seq<Draft>): nat {
    if frames == [] then 0 else
    OverflowReports(frames[..|frames| - 1]) + if frames[|frames| - 1].payload.Overflow? then 1 else 0
  }

  function Ceiling(cfg: Config): nat { if cfg.limit == 0 then 1 else cfg.limit }

  /** `due` is every frame handed over so far: each was taken or shed, what was taken is out
      or queued, and what was shed is reported or still counted. */
  ghost predicate Accounts(cfg: Config, b: Buffer, due: seq<Draft>) {
    && Drafts(b.emitted) + b.queue == b.taken
    && b.shed == b.reported + b.dropped && b.reported == Told(b.taken) && b.reports == OverflowReports(b.taken)
    && (b.dropped > 0 ==> b.dropRoute.Some?)
    && |b.queue| <= Ceiling(cfg)
    && |due| == |b.taken| - b.reports + b.shed
    && (b.shed == 0 ==> b.taken == due && b.reports == 0)
  }

  // -------------------------------------------------------------------- pacing

  /** The last `windowCount` emissions are this window's, the others are from windows at
      least a second older; so `rate` emissions on, the window has moved by a second. */
  ghost predicate Paced(cfg: Config, b: Buffer) {
    && b.windowCount <= cfg.rate && b.windowCount <= |b.emitted|
    && (b.windowStart.None? || cfg.rate == 0 ==> b.emitted == [])
    && (b.windowStart.Some? ==>
          && b.windowStart.value <= b.clock
          && (forall i :: |b.emitted| - b.windowCount <= i < |b.emitted| ==>
                b.emitted[i].window == b.windowStart.value)
          && (forall i :: 0 <= i < |b.emitted| - b.windowCount ==>
                b.emitted[i].window <= b.windowStart.value - RATE_WINDOW_MS))
    && (forall i :: 0 <= i < |b.emitted| ==>
          b.emitted[i].window <= b.emitted[i].at < b.emitted[i].window + RATE_WINDOW_MS)
    && (forall i, j :: 0 <= i && i + cfg.rate <= j < |b.emitted| && i < j ==>
          b.emitted[i].window + RATE_WINDOW_MS <= b.emitted[j].window)
  }

  /** The window is open at `now`. */
  ghost predicate Current(b: Buffer, now: int) {
    b.clock == now && b.windowStart.Some? && b.windowStart.value <= now < b.windowStart.value + RATE_WINDOW_MS
  }

  lemma RefreshKeeps(cfg: Config, b: Buffer, due: seq<Draft>, now: int)
    requires Accounts(cfg, b, due) && Paced(cfg, b) && now >= b.clock
    ensures var r := Refreshed(b, now); Accounts(cfg, r, due) && Paced(cfg, r) && Current(r, now)
  {
    var r := Refreshed(b, now);
    assert Accounts(cfg, r, due) by { hide Paced; }
    assert Paced(cfg, r) && Current(r, now) by { hide Accounts; }
    hide Accounts, Paced;
  }

  lemma SendKeepsAccounts(cfg: Config, b: Buffer, due: seq<Draft>, now: int)
    requires Accounts(cfg, b, due) && b.queue != [] && b.windowStart.Some?
    ensures Accounts(cfg, Sent(b, now), due)
  {
    var s := Sent(b, now);
    assert Drafts(s.emitted) == Drafts(b.emitted) + [b.queue[0]];
    assert b.queue == [b.queue[0]] + s.queue;
  }

  lemma SendKeepsPace(cfg: Config, b: Buffer, now: int)
    requires Paced(cfg, b) && Current(b, now) && b.queue != [] && b.windowCount < cfg.rate
    ensures Paced(cfg, Sent(b, now)) && Current(Sent(b, now), now)
  {
  }

  lemma {:induction false} DrainKeeps(cfg: Config, b: Buffer, due: seq<Draft>, now: int)
    requires Accounts(cfg, b, due) && Paced(cfg, b) && Current(b, now)
    ensures var d := Drained(cfg, b, now);
      Accounts(cfg, d, due) && Paced(cfg, d) && Current(d, now) && (d.queue == [] || d.windowCount >= cfg.rate)
    decreases |b.queue|
  {
    hide Accounts, Paced;
    if b.queue != [] && b.windowCount < cfg.rate {
      SendKeepsAccounts(cfg, b, due, now);
      SendKeepsPace(cfg, b, now);
      DrainKeeps(cfg, Sent(b, now), due, now);
    }
  }

  lemma ReportKeeps(cfg: Config, b: Buffer, due: seq<Draft>, now: int)
    requires Accounts(cfg, b, due) && Paced(cfg, b) && Current(b, now) && b.queue == [] && b.dropped > 0
    ensures var r := Reported(cfg, b); Accounts(cfg, r, due) && Paced(cfg, r) && Current(r, now)
  {
    var r := Reported(cfg, b);
    assert r.taken[..|r.taken| - 1] == b.taken;
    assert Drafts(r.emitted) + r.queue == r.taken;
  }

  /** A queue that is not empty has its timer, and nobody waits for an empty one. */
  ghost predicate Alive(b: Buffer) {
    (b.queue != [] ==> b.armed) && (b.waiters > 0 ==> b.queue != [])
  }

  /** Nothing is still unreported when the queue is empty. */
  ghost predicate Owned(b: Buffer) { b.queue == [] ==> b.dropped == 0 }

  /** What pumping leaves alone. */
  ghost predicate SameSources(b: Buffer, to: Buffer) {
    && to.pending == b.pending && to.toolStatus == b.toolStatus && to.stopped == b.stopped
    && to.pushed == b.pushed && to.released == b.released && to.shed == b.shed
  }

  lemma SettledKeeps(cfg: Config, d: Buffer, due: seq<Draft>, now: int)
    requires Accounts(cfg, d, due) && Paced(cfg, d)
    ensures var p := if d.queue != [] then d.(armed := true) else d.(waiters := 0);
      Accounts(cfg, p, due) && Paced(cfg, p)
  {
  }

  lemma {:induction false} PumpKeeps(cfg: Config, b: Buffer, due: seq<Draft>, now: int)
    requires Accounts(cfg, b, due) && Paced(cfg, b) && now >= b.clock
    ensures var p := Pump(cfg, b, now);
      && Accounts(cfg, p, due) && Paced(cfg, p) && p.clock == now
      && Alive(p) && Owned(p) && SameSources(b, p)
    decreases b.dropped
  {
    hide Accounts, Paced, Drained;
    var r := Refreshed(b, now);
    RefreshKeeps(cfg, b, due, now);
    DrainKeeps(cfg, r, due, now);
    var d := Drained(cfg, r, now);
    if d.queue == [] && d.dropped > 0 {
      ReportKeeps(cfg, d, due, now);
      PumpKeeps(cfg, Reported(cfg, d), due, now);
    } else {
      SettledKeeps(cfg, d, due, now);
    }
  }

  lemma {:induction false} OfferKeeps(cfg: Config, b: Buffer, due: seq<Draft>, draft: Draft, payloads: seq<Payload>)
    requires Accounts(cfg, b, due) && Paced(cfg, b)
    requires forall i :: 0 <= i < |payloads| ==> !payloads[i].Overflow?
    ensures var o := Offered(cfg, b, draft, payloads);
      && Accounts(cfg, o, due + FramesOf(draft, payloads)) && Paced(cfg, o)
      && SameSources(b, o.(shed := b.shed)) && o.clock == b.clock && o.shed >= b.shed
  {
    if payloads == [] {
      assert due + FramesOf(draft, payloads) == due;
    } else {
      hide Accounts, Paced, OfferedOne, FramesOf;
      var front, last := payloads[..|payloads| - 1], payloads[|payloads| - 1];
      OfferKeeps(cfg, b, due, draft, front);
      hide Offered;
      OfferStep(cfg, b, draft, payloads);
      OfferOne(cfg, Offered(cfg, b, draft, front), due + FramesOf(draft, front), draft, last);
      FramesStep(due, draft, payloads);
    }
  }

  lemma OfferStep(cfg: Config, b: Buffer, draft: Draft, payloads: seq<Payload>)
    requires payloads != []
    ensures Offered(cfg, b, draft, payloads)
      == OfferedOne(cfg, Offered(cfg, b, draft, payloads[..|payloads| - 1]), draft, payloads[|payloads| - 1])
  {
  }

  lemma FramesStep(due: seq<Draft>, draft: Draft, payloads: seq<Payload>)
    requires payloads != []
    ensures due + FramesOf(draft, payloads)
      == due + FramesOf(draft, payloads[..|payloads| - 1]) + [draft.(payload := payloads[|payloads| - 1])]
  {
  }

  lemma OfferOne(cfg: Config, o: Buffer, due: seq<Draft>, draft: Draft, payload: Payload)
    requires Accounts(cfg, o, due) && Paced(cfg, o) && !payload.Overflow?
    ensures var n := OfferedOne(cfg, o, draft, payload);
      && Accounts(cfg, n, due + [draft.(payload := payload)]) && Paced(cfg, n)
      && SameSources(o, n.(shed := o.shed)) && n.clock == o.clock && n.shed >= o.shed
  {
    if |o.queue| < cfg.limit {
      TakeOne(cfg, o, due, draft.(payload := payload));
    } else {
      hide Told, OverflowReports;
    }
  }

  lemma TakeOne(cfg: Config, o: Buffer, due: seq<Draft>, frame: Draft)
    requires Accounts(cfg, o, due) && Paced(cfg, o) && !frame.payload.Overflow? && |o.queue| < cfg.limit
    ensures var n := o.(queue := o.queue + [frame], taken := o.taken + [frame]);
      Accounts(cfg, n, due + [frame]) && Paced(cfg, n)
  {
    var n := o.(queue := o.queue + [frame], taken := o.taken + [frame]);
    assert Told(n.taken) == Told(o.taken) && OverflowReports(n.taken) == OverflowReports(o.taken) by {
      assert n.taken[..|n.taken| - 1] == o.taken;
    }
    hide Told, OverflowReports;
    assert Paced(cfg, n);
    assert n.emitted == o.emitted;
    hide Paced, Drafts;
  }

  /** Between operations. */
  ghost predicate Steady(cfg: Config, b: Buffer) {
    && Accounts(cfg, b, AllFrames(cfg, b.released)) && Paced(cfg, b)
    && (b.stopped || (Alive(b) && Owned(b)))
  }

  lemma SplitsMakeNoReports(p: Payload, budget: nat)
    requires !p.Overflow?
    ensures forall i :: 0 <= i < |SplitPayload(p, budget)| ==> !SplitPayload(p, budget)[i].Overflow?
  {
    hide Encoded;
    if p.Chunk? { ChunkSplitsLosslessly(p, budget); }
  }

  lemma EnqueueKeeps(cfg: Config, b: Buffer, draft: Draft, now: int)
    requires Steady(cfg, b) && now >= b.clock && !draft.payload.Overflow?
    ensures var e := Enqueue(cfg, b, draft, now);
      && Steady(cfg, e) && Alive(e) && Owned(e) && e.clock == now
      && SameSources(b.(released := b.released + [draft], shed := e.shed), e) && e.shed >= b.shed
  {
    var noted := b.(released := b.released + [draft]);
    var payloads := SplitPayload(draft.payload, cfg.budget);
    var due := AllFrames(cfg, b.released);
    assert Accounts(cfg, noted, due) && Paced(cfg, noted);
    SplitsMakeNoReports(draft.payload, cfg.budget);
    OfferKeeps(cfg, noted, due, draft, payloads);
    assert noted.released[..|noted.released| - 1] == b.released;
    assert AllFrames(cfg, noted.released) == due + FramesOf(draft, payloads);
    hide Accounts, Paced, Offered, Pump, SplitPayload, AllFrames;
    PumpKeeps(cfg, Offered(cfg, noted, draft, payloads), AllFrames(cfg, noted.released), now);
  }

  // --------------------------------------------------------------------- order

  /** What a reader of the feed sees: the units of a message's text, and whole other frames. */
  datatype Atom = Letter(kind: ChunkKind, messageId: Text, u: Unit) | Whole(frame: Payload)

  function Letters(kind: ChunkKind, messageId: Text, text: Text): seq<Atom> {
    seq(|text|, i requires 0 <= i < |text| => Letter(kind, messageId, text[i]))
  }

  function Wholes(payloads: seq<Payload>): seq<Atom> {
    seq(|payloads|, i requires 0 <= i < |payloads| => Whole(payloads[i]))
  }

  function DraftAtoms(cfg: Config, d: Draft): seq<Atom> {
    if d.payload.Chunk? then Letters(d.payload.kind, d.payload.messageId, d.payload.text)
    else Wholes(SplitPayload(d.payload, cfg.budget))
  }

  /** What the drafts of turn `t` amount to. */
  function Atoms(cfg: Config, t: Option<string>, drafts: seq<Draft>): seq<Atom> {
    if drafts == [] then [] else
    Atoms(cfg, t, drafts[..|drafts| - 1])
    + if drafts[|drafts| - 1].turnId == t then DraftAtoms(cfg, drafts[|drafts| - 1]) else []
  }

  function FrameAtom(p: Payload): seq<Atom> {
    if p.Chunk? then Letters(p.kind, p.messageId, p.text) else [Whole(p)]
  }

  /** What the frames of turn `t` on the wire or in the queue amount to. */
  function FrameAtoms(t: Option<string>, frames: seq<Draft>): seq<Atom> {
    if frames == [] then [] else
    FrameAtoms(t, frames[..|frames| - 1])
    + if frames[|frames| - 1].turnId == t then FrameAtom(frames[|frames| - 1].payload) else []
  }

  function OpenAtoms(o: Open): seq<Atom> { Letters(o.key.kind, o.key.messageId, o.text) }

  function PendingAtoms(t: Option<string>, pending: seq<Open>): seq<Atom> {
    if pending == [] then [] else
    (if pending[0].key.turnId == t then OpenAtoms(pending[0]) else []) + PendingAtoms(t, pending[1..])
  }

  /** At most one open text per turn. */
  ghost predicate OneEach(pending: seq<Open>) {
    && (forall i :: 0 <= i < |pending| ==>
          pending[i].first.turnId == pending[i].key.turnId && pending[i].first.payload.Chunk?)
    && (forall i, j :: 0 <= i < j < |pending| ==> pending[i].key.turnId != pending[j].key.turnId)
  }

  /** Turn by turn, what was released and what is open is what was pushed. */
  ghost predicate InOrder(cfg: Config, b: Buffer) {
    && OneEach(b.pending)
    && forall t :: Atoms(cfg, t, b.released) + PendingAtoms(t, b.pending) == Atoms(cfg, t, b.pushed)
  }

  lemma {:induction false} PendingOfOther(t: Option<string>, pending: seq<Open>)
    requires forall i :: 0 <= i < |pending| ==> pending[i].key.turnId != t
    ensures PendingAtoms(t, pending) == []
  {
    if pending != [] { PendingOfOther(t, pending[1..]); }
  }

  lemma {:induction false} PendingConcat(t: Option<string>, a: seq<Open>, b: seq<Open>)
    ensures PendingAtoms(t, a + b) == PendingAtoms(t, a) + PendingAtoms(t, b)
  {
    hide OpenAtoms;
    if a == [] {
      assert a + b == b;
    } else {
      TailOfConcat(a, b);
      PendingConcat(t, a[1..], b);
    }
  }

  lemma PendingOf(t: Option<string>, pending: seq<Open>, i: nat)
    requires OneEach(pending) && i < |pending| && pending[i].key.turnId == t
    ensures PendingAtoms(t, pending) == OpenAtoms(pending[i])
  {
    var a, c := pending[..i], pending[i + 1..];
    assert pending == a + ([pending[i]] + c);
    PendingConcat(t, a, [pending[i]] + c);
    PendingConcat(t, [pending[i]], c);
    PendingOfOther(t, a);
    PendingOfOther(t, c);
    assert PendingAtoms(t, [pending[i]]) == OpenAtoms(pending[i]) + PendingAtoms(t, [pending[i]][1..]);
  }

  lemma AtomsAppend(cfg: Config, t: Option<string>, drafts: seq<Draft>, d: Draft)
    ensures Atoms(cfg, t, drafts + [d]) == Atoms(cfg, t, drafts) + if d.turnId == t then DraftAtoms(cfg, d) else []
  {
    assert (drafts + [d])[..|drafts + [d]| - 1] == drafts;
  }

  function Removed(pending: seq<Open>, i: nat): seq<Open>
    requires i < |pending|
  {
    pending[..i] + pending[i + 1..]
  }

  lemma RemovedHolds(pending: seq<Open>, i: nat)
    requires OneEach(pending) && i < |pending|
    ensures OneEach(Removed(pending, i))
    ensures forall o :: o in Removed(pending, i) ==> o in pending && o.key != pending[i].key
    ensures forall k :: 0 <= k < |Removed(pending, i)| ==>
      Removed(pending, i)[k].key.turnId != pending[i].key.turnId
  {
    var r := Removed(pending, i);
    forall k | 0 <= k < |r| ensures r[k] == pending[if k < i then k else k + 1] {}
  }

  lemma RemovedAtoms(pending: seq<Open>, i: nat, t: Option<string>)
    requires OneEach(pending) && i < |pending|
    ensures if t == pending[i].key.turnId then PendingAtoms(t, Removed(pending, i)) == []
            else PendingAtoms(t, Removed(pending, i)) == PendingAtoms(t, pending)
  {
    if t == pending[i].key.turnId {
      RemovedHolds(pending, i);
      PendingOfOther(t, Removed(pending, i));
    } else {
      AroundOne(t, pending, i);
      hide PendingAtoms, OneEach;
      PendingConcat(t, pending[..i], pending[i + 1..]);
    }
  }

  /** Moving an open text to the queue keeps every turn's order. */
  lemma ReleaseKeepsOrder(cfg: Config, b: Buffer, i: nat, e: Buffer)
    requires InOrder(cfg, b) && i < |b.pending|
    requires e.pending == Removed(b.pending, i) && e.pushed == b.pushed
    requires e.released == b.released + [OpenFrame(b.pending[i])]
    ensures InOrder(cfg, e)
    ensures forall o :: o in e.pending ==> o in b.pending && o.key != b.pending[i].key
  {
    hide Removed, Atoms, PendingAtoms;
    RemovedHolds(b.pending, i);
    forall t ensures Atoms(cfg, t, e.released) + PendingAtoms(t, e.pending) == Atoms(cfg, t, e.pushed) {
      RemovedAtoms(b.pending, i, t);
      AtomsAppend(cfg, t, b.released, OpenFrame(b.pending[i]));
      if t == b.pending[i].key.turnId { PendingOf(t, b.pending, i); }
      assert Atoms(cfg, t, b.released) + PendingAtoms(t, b.pending) == Atoms(cfg, t, b.pushed);
    }
  }

  // ------------------------------------------------------------ the invariant

  ghost predicate Valid(cfg: Config, b: Buffer) {
    Steady(cfg, b) && InOrder(cfg, b)
  }

  lemma ReleaseKeeps(cfg: Config, b: Buffer, key: Key, now: int)
    requires Valid(cfg, b) && now >= b.clock
    ensures var e := ReleaseChunk(cfg, b, key, now);
      && Valid(cfg, e) && now >= e.clock >= b.clock && e.shed >= b.shed
      && e.stopped == b.stopped && e.toolStatus == b.toolStatus && e.pushed == b.pushed
      && (forall o :: o in e.pending ==> o in b.pending && o.key != key)
  {
    hide Steady, InOrder;
    var i := Find(b.pending, key);
    if i == |b.pending| {
      forall o | o in b.pending ensures o.key != key {
        var j :| 0 <= j < |b.pending| && b.pending[j] == o;
      }
    } else {
      var closed := b.(pending := Removed(b.pending, i));
      ClosingKeepsSteady(cfg, b, Removed(b.pending, i));
      EnqueueKeeps(cfg, closed, OpenFrame(b.pending[i]), now);
      hide Enqueue;
      ReleaseKeepsOrder(cfg, b, i, Enqueue(cfg, closed, OpenFrame(b.pending[i]), now));
    }
  }

  lemma ClosingKeepsSteady(cfg: Config, b: Buffer, pending: seq<Open>)
    requires Steady(cfg, b)
    ensures Steady(cfg, b.(pending := pending))
  {
  }

  lemma {:induction false} ReleaseAllKeeps(cfg: Config, b: Buffer, keys: seq<Key>, now: int)
    requires Valid(cfg, b) && now >= b.clock
    ensures var e := ReleaseAll(cfg, b, keys, now);
      && Valid(cfg, e) && now >= e.clock >= b.clock && e.shed >= b.shed
      && e.stopped == b.stopped && e.toolStatus == b.toolStatus && e.pushed == b.pushed
      && (forall o :: o in e.pending ==> o in b.pending && o.key !in keys)
    decreases |keys|
  {
    if keys != [] {
      hide Valid, ReleaseChunk;
      var key, rest := keys[0], keys[1..];
      assert forall k :: k in keys <==> k == key || k in rest;
      ReleaseKeeps(cfg, b, key, now);
      ReleaseAllKeeps(cfg, ReleaseChunk(cfg, b, key, now), rest, now);
    }
  }

  lemma {:induction false} KeysOfHolds(pending: seq<Open>, turnId: Option<string>, but: Option<Key>, o: Open)
    requires o in pending && o.first.turnId == turnId && Some(o.key) != but
    ensures o.key in KeysOf(pending, turnId, but)
  {
    if o != pending[0] {
      assert pending == [pending[0]] + pending[1..];
      KeysOfHolds(pending[1..], turnId, but, o);
    }
  }

  /** After the other texts of the turn are released, only `but` can still be open. */
  lemma OnlyOneLeft(cfg: Config, b: Buffer, turnId: Option<string>, but: Option<Key>, now: int)
    requires Valid(cfg, b) && now >= b.clock
    ensures var e := ReleaseAll(cfg, b, KeysOf(b.pending, turnId, but), now);
      && Valid(cfg, e) && now >= e.clock >= b.clock && e.shed >= b.shed
      && e.stopped == b.stopped && e.toolStatus == b.toolStatus && e.pushed == b.pushed
      && forall i :: 0 <= i < |e.pending| && e.pending[i].key.turnId == turnId ==> Some(e.pending[i].key) == but
  {
    ReleaseAllKeeps(cfg, b, KeysOf(b.pending, turnId, but), now);
    var e := ReleaseAll(cfg, b, KeysOf(b.pending, turnId, but), now);
    forall i | 0 <= i < |e.pending| && e.pending[i].key.turnId == turnId ensures Some(e.pending[i].key) == but {
      assert e.pending[i] in e.pending;
      assert OneEach(e.pending);
      if Some(e.pending[i].key) != but { KeysOfHolds(b.pending, turnId, but, e.pending[i]); }
    }
  }

  // -------------------------------------------------------------- text pushed

  lemma LettersConcat(kind: ChunkKind, messageId: Text, a: Text, b: Text)
    ensures Letters(kind, messageId, a + b) == Letters(kind, messageId, a) + Letters(kind, messageId, b)
  {
  }

  lemma ExtendedAtoms(pending: seq<Open>, draft: Draft, t: Option<string>)
    requires OneEach(pending) && draft.payload.Chunk?
    requires forall i :: 0 <= i < |pending| && pending[i].key.turnId == draft.turnId ==>
      pending[i].key == ChunkKey(draft)
    ensures OneEach(Extended(pending, draft))
    ensures PendingAtoms(t, Extended(pending, draft)) == PendingAtoms(t, pending)
      + if draft.turnId == t then Letters(draft.payload.kind, draft.payload.messageId, draft.payload.text) else []
  {
    var i := Find(pending, ChunkKey(draft));
    if i < |pending| { LengthenedAtoms(pending, draft, i, t); } else { OpenedAtoms(pending, draft, t); }
  }

  /** The open text grows by the chunk's. */
  lemma LengthenedAtoms(pending: seq<Open>, draft: Draft, i: nat, t: Option<string>)
    requires OneEach(pending) && draft.payload.Chunk? && i < |pending| && pending[i].key == ChunkKey(draft)
    ensures var to := pending[i := pending[i].(text := pending[i].text + draft.payload.text)];
      && OneEach(to)
      && PendingAtoms(t, to) == PendingAtoms(t, pending)
           + if draft.turnId == t then Letters(draft.payload.kind, draft.payload.messageId, draft.payload.text) else []
  {
    var more := pending[i].(text := pending[i].text + draft.payload.text);
    var to := pending[i := more];
    assert OneEach(to);
    if t == draft.turnId {
      PendingOf(t, pending, i);
      PendingOf(t, to, i);
      LettersConcat(more.key.kind, more.key.messageId, pending[i].text, draft.payload.text);
    } else {
      AroundOne(t, pending, i);
      AroundOne(t, to, i);
      hide PendingAtoms, OneEach;
      assert to[..i] == pending[..i] && to[i + 1..] == pending[i + 1..];
    }
  }

  /** Another turn's entry adds nothing. */
  lemma AroundOne(t: Option<string>, pending: seq<Open>, i: nat)
    requires i < |pending| && pending[i].key.turnId != t
    ensures PendingAtoms(t, pending) == PendingAtoms(t, pending[..i]) + PendingAtoms(t, pending[i + 1..])
  {
    var a, c := pending[..i], pending[i + 1..];
    assert pending == a + ([pending[i]] + c);
    PendingOfOther(t, [pending[i]]);
    hide PendingAtoms;
    PendingConcat(t, a, [pending[i]] + c);
    PendingConcat(t, [pending[i]], c);
  }

  lemma OpenedAtoms(pending: seq<Open>, draft: Draft, t: Option<string>)
    requires OneEach(pending) && draft.payload.Chunk?
    requires forall i :: 0 <= i < |pending| ==> pending[i].key.turnId != draft.turnId
    ensures var to := pending + [Open(ChunkKey(draft), draft, draft.payload.text)];
      && OneEach(to)
      && PendingAtoms(t, to) == PendingAtoms(t, pending)
           + if draft.turnId == t then Letters(draft.payload.kind, draft.payload.messageId, draft.payload.text) else []
  {
    var o := Open(ChunkKey(draft), draft, draft.payload.text);
    PendingConcat(t, pending, [o]);
    assert PendingAtoms(t, [o]) == (if draft.turnId == t then OpenAtoms(o) else []) + PendingAtoms(t, [o][1..]);
  }

  lemma PushChunkKeeps(cfg: Config, b: Buffer, draft: Draft, now: int)
    requires Valid(cfg, b) && now >= b.clock && draft.payload.Chunk?
    ensures Valid(cfg, PushChunk(cfg, b, draft, now))
  {
    OnlyOneLeft(cfg, b, draft.turnId, Some(ChunkKey(draft)), now);
    var e := ReleaseAll(cfg, b, KeysOf(b.pending, draft.turnId, Some(ChunkKey(draft))), now);
    hide ReleaseAll, KeysOf;
    ExtendingKeeps(cfg, e, draft, now);
  }

  lemma ExtendingKeeps(cfg: Config, e: Buffer, draft: Draft, now: int)
    requires Valid(cfg, e) && now >= e.clock && draft.payload.Chunk?
    requires forall i :: 0 <= i < |e.pending| && e.pending[i].key.turnId == draft.turnId ==>
      e.pending[i].key == ChunkKey(draft)
    ensures Valid(cfg, e.(pending := Extended(e.pending, draft), pushed := e.pushed + [draft], clock := now))
  {
    var to := e.(pending := Extended(e.pending, draft), pushed := e.pushed + [draft], clock := now);
    OpeningKeepsSteady(cfg, e, to.pending, to.pushed, now);
    hide Steady, Extended;
    ExtendingKeepsOrder(cfg, e, draft, to);
  }

  lemma OpeningKeepsSteady(cfg: Config, e: Buffer, pending: seq<Open>, pushed: seq<Draft>, now: int)
    requires Steady(cfg, e) && now >= e.clock
    ensures Steady(cfg, e.(pending := pending, pushed := pushed, clock := now))
  {
  }

  lemma ExtendingKeepsOrder(cfg: Config, e: Buffer, draft: Draft, to: Buffer)
    requires InOrder(cfg, e) && draft.payload.Chunk?
    requires forall i :: 0 <= i < |e.pending| && e.pending[i].key.turnId == draft.turnId ==>
      e.pending[i].key == ChunkKey(draft)
    requires to.pending == Extended(e.pending, draft)
    requires to.pushed == e.pushed + [draft] && to.released == e.released
    ensures InOrder(cfg, to)
  {
    hide Extended, Atoms, PendingAtoms, Letters;
    ExtendedAtoms(e.pending, draft, None);
    forall t ensures Atoms(cfg, t, to.released) + PendingAtoms(t, to.pending) == Atoms(cfg, t, to.pushed) {
      ExtendedAtoms(e.pending, draft, t);
      AtomsAppend(cfg, t, e.pushed, draft);
      assert Atoms(cfg, t, e.released) + PendingAtoms(t, e.pending) == Atoms(cfg, t, e.pushed);
    }
  }

  // ------------------------------------------------------ other frames pushed

  lemma PushFrameKeeps(cfg: Config, b: Buffer, draft: Draft, now: int)
    requires Valid(cfg, b) && now >= b.clock && !draft.payload.Chunk? && !draft.payload.Overflow?
    ensures Valid(cfg, Push(cfg, b, draft, now))
  {
    OnlyOneLeft(cfg, b, draft.turnId, None, now);
    var f := FlushTurn(cfg, b, draft.turnId, now);
    var guarded := Guarded(f.toolStatus, draft);
    var noted := f.(toolStatus := Noted(f.toolStatus, draft), pushed := f.pushed + [guarded]);
    assert Steady(cfg, noted) by { NotingKeepsSteady(cfg, f, noted.toolStatus, noted.pushed); }
    EnqueueKeeps(cfg, noted, guarded, now);
    hide ReleaseAll, KeysOf, Enqueue, Steady, FlushTurn, Noted;
    FrameKeepsOrder(cfg, f, guarded, Enqueue(cfg, noted, guarded, now));
  }

  lemma NotingKeepsSteady(
    cfg: Config, b: Buffer, statuses: map<(Option<string>, string), ToolStatus>, pushed: seq<Draft>)
    requires Steady(cfg, b)
    ensures Steady(cfg, b.(toolStatus := statuses, pushed := pushed))
  {
  }

  lemma FrameKeepsOrder(cfg: Config, b: Buffer, draft: Draft, e: Buffer)
    requires InOrder(cfg, b)
    requires forall i :: 0 <= i < |b.pending| ==> b.pending[i].key.turnId != draft.turnId
    requires e.pending == b.pending && e.pushed == b.pushed + [draft] && e.released == b.released + [draft]
    ensures InOrder(cfg, e)
  {
    hide Atoms, PendingAtoms;
    forall t ensures Atoms(cfg, t, e.released) + PendingAtoms(t, e.pending) == Atoms(cfg, t, e.pushed) {
      AtomsAppend(cfg, t, b.pushed, draft);
      AtomsAppend(cfg, t, b.released, draft);
      if t == draft.turnId { PendingOfOther(t, b.pending); }
      assert Atoms(cfg, t, b.released) + PendingAtoms(t, b.pending) == Atoms(cfg, t, b.pushed);
    }
  }

  // --------------------------------------------------------------------- steps

  lemma PumpingKeeps(cfg: Config, b: Buffer, from: Buffer, now: int)
    requires Valid(cfg, b) && now >= b.clock
    requires from == b.(armed := from.armed)
    ensures var p := Pump(cfg, from, now);
      Valid(cfg, p) && Alive(p) && Owned(p) && SameSources(b, p) && p.clock == now
  {
    var due := AllFrames(cfg, b.released);
    assert Accounts(cfg, from, due) && Paced(cfg, from);
    hide Accounts, Paced, Pump, AllFrames;
    PumpKeeps(cfg, from, due, now);
    var p := Pump(cfg, from, now);
    assert InOrder(cfg, p) by { hide Atoms, PendingAtoms, OneEach; }
  }

  lemma ReleasingAndPumping(cfg: Config, b: Buffer, now: int)
    requires Valid(cfg, b) && now >= b.clock
    ensures var p := Pump(cfg, ReleaseAll(cfg, b, Keys(b.pending), now), now);
      && Valid(cfg, p) && Alive(p) && Owned(p) && p.clock == now && p.stopped == b.stopped
      && p.pending == []
  {
    var e := ReleaseAll(cfg, b, Keys(b.pending), now);
    ReleaseAllKeeps(cfg, b, Keys(b.pending), now);
    PumpingKeeps(cfg, e, e, now);
    if e.pending != [] {
      assert e.pending[0] in e.pending;
      KeysHold(b.pending, e.pending[0]);
    }
  }

  lemma {:induction false} KeysHold(pending: seq<Open>, o: Open)
    requires o in pending
    ensures o.key in Keys(pending)
  {
    if o != pending[0] {
      assert pending == [pending[0]] + pending[1..];
      KeysHold(pending[1..], o);
    }
  }

  lemma StepKeeps(cfg: Config, b: Buffer, s: Step)
    requires Valid(cfg, b) && Possible(b, s)
    ensures Valid(cfg, Next(cfg, b, s))
  {
    hide Valid, Push, PushChunk, ReleaseChunk, PumpTimer, Flush, Stop, ForgetTurn, Find;
    match s.action
    case Pushing(draft) => PushKeeps(cfg, b, draft, s.now);
    case CoalesceTimer(key) => ReleaseKeeps(cfg, b, key, s.now);
    case PumpTimerFires => PumpTimerKeeps(cfg, b, s.now);
    case Flushing => FlushKeeps(cfg, b, s.now);
    case Stopping => StopKeeps(cfg, b, s.now);
    case Forgetting(turnId) => ForgetTurnKeeps(cfg, b, turnId, s.now);
  }

  lemma PushKeeps(cfg: Config, b: Buffer, draft: Draft, now: int)
    requires Valid(cfg, b) && now >= b.clock && !draft.payload.Overflow?
    ensures Valid(cfg, Push(cfg, b, draft, now))
  {
    if draft.payload.Chunk? {
      PushChunkKeeps(cfg, b, draft, now);
      hide Valid, PushChunk;
    } else {
      PushFrameKeeps(cfg, b, draft, now);
    }
  }

  lemma PumpTimerKeeps(cfg: Config, b: Buffer, now: int)
    requires Valid(cfg, b) && now >= b.clock
    ensures Valid(cfg, PumpTimer(cfg, b, now))
  {
    hide Valid, Pump;
    PumpingKeeps(cfg, b, b.(armed := false), now);
  }

  lemma FlushKeeps(cfg: Config, b: Buffer, now: int)
    requires Valid(cfg, b) && now >= b.clock
    ensures Valid(cfg, Flush(cfg, b, now))
  {
    hide Valid, Pump, ReleaseAll;
    ReleasingAndPumping(cfg, b, now);
    WaitingKeeps(cfg, Pump(cfg, ReleaseAll(cfg, b, Keys(b.pending), now), now));
  }

  lemma StopKeeps(cfg: Config, b: Buffer, now: int)
    requires Valid(cfg, b) && now >= b.clock
    ensures Valid(cfg, Stop(cfg, b, now))
  {
    hide Valid, Pump, ReleaseAll;
    ReleasingAndPumping(cfg, b, now);
    StoppingKeeps(cfg, Pump(cfg, ReleaseAll(cfg, b, Keys(b.pending), now), now));
  }

  lemma ForgetTurnKeeps(cfg: Config, b: Buffer, turnId: Option<string>, now: int)
    requires Valid(cfg, b) && now >= b.clock
    ensures Valid(cfg, ForgetTurn(cfg, b, turnId, now))
  {
    hide Valid, ReleaseAll;
    OnlyOneLeft(cfg, b, turnId, None, now);
    var f := FlushTurn(cfg, b, turnId, now);
    ForgettingKeeps(cfg, f, map k | k in f.toolStatus && k.0 != turnId :: f.toolStatus[k]);
  }

  lemma WaitingKeeps(cfg: Config, p: Buffer)
    requires Valid(cfg, p) && Alive(p)
    ensures p.queue != [] ==> Valid(cfg, p.(waiters := p.waiters + 1))
  {
    hide Atoms, PendingAtoms, OneEach;
  }

  lemma StoppingKeeps(cfg: Config, p: Buffer)
    requires Valid(cfg, p)
    ensures Valid(cfg, p.(armed := false, stopped := true))
  {
    hide Atoms, PendingAtoms, OneEach;
  }

  lemma ForgettingKeeps(cfg: Config, p: Buffer, statuses: map<(Option<string>, string), ToolStatus>)
    requires Valid(cfg, p)
    ensures Valid(cfg, p.(toolStatus := statuses))
  {
    hide Atoms, PendingAtoms, OneEach;
  }

  lemma EmptyIsValid(cfg: Config, clock: int)
    ensures Valid(cfg, Empty(clock))
  {
    assert Drafts([]) == [];
  }

  lemma {:induction false} RunsAreValid(cfg: Config, trace: seq<Buffer>, steps: seq<Step>, i: nat)
    requires Follows(cfg, trace, steps) && i < |trace| && Valid(cfg, trace[0])
    ensures Valid(cfg, trace[i])
  {
    if i > 0 {
      RunsAreValid(cfg, trace, steps, i - 1);
      StepKeeps(cfg, trace[i - 1], steps[i - 1]);
    }
  }
}
