/** Token and cost accounting: one metric per turn over a durable cumulative series. */
module Usage {
  import opened Basics

  /** A number the provider reported, or nothing. */
  type Counter = Option<real>

  datatype Field = Input | Output | Total | Cost | CacheRead | CacheWrite

  const FIELDS := [Input, Output, Total, Cost, CacheRead, CacheWrite]

  datatype Counters = Counters(
    input: Counter, output: Counter, total: Counter, cost: Counter, cacheRead: Counter, cacheWrite: Counter)
  {
    function Get(f: Field): Counter {
      match f
      case Input => input
      case Output => output
      case Total => total
      case Cost => cost
      case CacheRead => cacheRead
      case CacheWrite => cacheWrite
    }

    function With(f: Field, c: Counter): Counters {
      match f
      case Input => this.(input := c)
      case Output => this.(output := c)
      case Total => this.(total := c)
      case Cost => this.(cost := c)
      case CacheRead => this.(cacheRead := c)
      case CacheWrite => this.(cacheWrite := c)
    }
  }

  const NONE := Counters(None, None, None, None, None, None)

  lemma SameFields(a: Counters, b: Counters)
    requires forall f: Field :: a.Get(f) == b.Get(f)
    ensures a == b
  {
    assert a.Get(Input) == b.Get(Input) && a.Get(Output) == b.Get(Output) && a.Get(Total) == b.Get(Total);
    assert a.Get(Cost) == b.Get(Cost) && a.Get(CacheRead) == b.Get(CacheRead) && a.Get(CacheWrite) == b.Get(CacheWrite);
  }

  /** An unreported number counts as nothing. */
  function Amount(c: Counter): real { c.Or(0.0) }

  function AddCounter(a: Counter, b: Counter): Counter {
    if a.None? && b.None? then None else Some(Amount(a) + Amount(b))
  }

  function AddCounters(a: Counters, b: Counters): Counters {
    Counters(AddCounter(a.input, b.input), AddCounter(a.output, b.output), AddCounter(a.total, b.total),
             AddCounter(a.cost, b.cost), AddCounter(a.cacheRead, b.cacheRead), AddCounter(a.cacheWrite, b.cacheWrite))
  }

  function DiffCounter(a: Counter, b: Counter): Counter {
    if a.None? || b.None? then a
    else if a.value - b.value >= 0.0 then Some(a.value - b.value) else None
  }

  function DiffCounters(a: Counters, b: Counters): Counters {
    Counters(DiffCounter(a.input, b.input), DiffCounter(a.output, b.output), DiffCounter(a.total, b.total),
             DiffCounter(a.cost, b.cost), DiffCounter(a.cacheRead, b.cacheRead), DiffCounter(a.cacheWrite, b.cacheWrite))
  }

  predicate Below(a: Counter, b: Counter) { a.Some? && b.Some? && a.value < b.value }

  /** The two cache counters are not looked at. */
  predicate CountersRegressed(a: Counters, b: Counters) {
    Below(a.input, b.input) || Below(a.output, b.output) || Below(a.total, b.total) || Below(a.cost, b.cost)
  }

  /** What the model call reported; cached tokens are priced apart from the input. */
  datatype PiUsage = PiUsage(
    input: Counter, output: Counter, total: Counter, cost: Counter, cacheRead: Counter, cacheWrite: Counter)

  function NormalisePiUsage(u: PiUsage): Counters {
    Counters(AddCounter(AddCounter(u.input, u.cacheRead), u.cacheWrite), u.output, u.total, u.cost, u.cacheRead, u.cacheWrite)
  }

  datatype Delta = Delta(turn: Option<Counters>, reliable: bool)

  function DeriveTurnDelta(cumulative: Counters, baseline: Counters): Delta {
    if CountersRegressed(cumulative, baseline) then Delta(None, false)
    else Delta(Some(DiffCounters(cumulative, baseline)), true)
  }

  // ------------------------------------------------------- the stored baseline

  /** A value in the stored record. */
  datatype Value = Null | Number(value: real) | Unreadable

  type Stored = map<Field, Value>

  function Print(c: Counters): Stored {
    map f: Field | f in FIELDS :: if c.Get(f).None? then Null else Number(c.Get(f).value)
  }

  predicate Reads(s: Stored, f: Field) {
    f in s && (s[f].Null? || (s[f].Number? && s[f].value >= 0.0))
  }

  function ReadCounter(s: Stored, f: Field): Counter
    requires Reads(s, f)
  {
    if s[f].Null? then None else Some(s[f].value)
  }

  function ParseFrom(s: Stored, i: nat, c: Counters): Option<Counters>
    requires i <= |FIELDS|
    decreases |FIELDS| - i
  {
    if i == |FIELDS| then Some(c)
    else if !Reads(s, FIELDS[i]) then None
    else ParseFrom(s, i + 1, c.With(FIELDS[i], ReadCounter(s, FIELDS[i])))
  }

  function Parse(s: Stored): Option<Counters> { ParseFrom(s, 0, NONE) }

  method ParseCounters(s: Stored) returns (parsed: Option<Counters>)
    ensures parsed == Parse(s)
  {
    var counters := NONE;
    for i := 0 to |FIELDS|
      invariant ParseFrom(s, i, counters) == Parse(s)
    {
      var key := FIELDS[i];
      if key !in s || s[key].Unreadable? || (s[key].Number? && s[key].value < 0.0) { return None; }
      counters := counters.With(key, if s[key].Null? then None else Some(s[key].value));
    }
    parsed := Some(counters);
  }

  predicate NonNegative(c: Counter) { c.None? || c.value >= 0.0 }

  predicate AllNonNegative(c: Counters) {
    NonNegative(c.input) && NonNegative(c.output) && NonNegative(c.total)
    && NonNegative(c.cost) && NonNegative(c.cacheRead) && NonNegative(c.cacheWrite)
  }

  lemma EveryField(f: Field)
    ensures f in FIELDS
  {
    assert FIELDS[0] == Input && FIELDS[1] == Output && FIELDS[2] == Total;
    assert FIELDS[3] == Cost && FIELDS[4] == CacheRead && FIELDS[5] == CacheWrite;
  }

  /** A printed baseline reads back as itself exactly when no counter in it is negative. */
  lemma ParseUndoesPrintExactlyWhen(c: Counters)
    ensures Parse(Print(c)) == Some(c) <==> AllNonNegative(c)
    ensures !AllNonNegative(c) ==> Parse(Print(c)) == None
  {
    forall f: Field ensures f in Print(c) && (Reads(Print(c), f) <==> NonNegative(c.Get(f))) { EveryField(f); }
    var s := Print(c);
    var c1 := NONE.With(Input, c.input);
    var c2 := c1.With(Output, c.output);
    var c3 := c2.With(Total, c.total);
    var c4 := c3.With(Cost, c.cost);
    var c5 := c4.With(CacheRead, c.cacheRead);
    if Reads(s, Input) { assert ReadCounter(s, Input) == c.input; }
    if Reads(s, Output) { assert ReadCounter(s, Output) == c.output; }
    if Reads(s, Total) { assert ReadCounter(s, Total) == c.total; }
    if Reads(s, Cost) { assert ReadCounter(s, Cost) == c.cost; }
    if Reads(s, CacheRead) { assert ReadCounter(s, CacheRead) == c.cacheRead; }
    if Reads(s, CacheWrite) { assert ReadCounter(s, CacheWrite) == c.cacheWrite; }
    hide Print, Reads, ReadCounter;
    ParseSteps(s, c, c1, c2, c3, c4, c5);
  }

  lemma ParseSteps(s: Stored, c: Counters, c1: Counters, c2: Counters, c3: Counters, c4: Counters, c5: Counters)
    requires c1 == NONE.With(Input, c.input) && c2 == c1.With(Output, c.output) && c3 == c2.With(Total, c.total)
    requires c4 == c3.With(Cost, c.cost) && c5 == c4.With(CacheRead, c.cacheRead)
    requires forall f: Field :: Reads(s, f) ==> ReadCounter(s, f) == c.Get(f)
    ensures Parse(s) == if forall f: Field :: Reads(s, f) then Some(c) else None
  {
    hide Reads, ReadCounter;
    var all := forall f: Field :: Reads(s, f);
    if Reads(s, Input) && Reads(s, Output) && Reads(s, Total) && Reads(s, Cost)
      && Reads(s, CacheRead) && Reads(s, CacheWrite)
    {
      forall f: Field ensures Reads(s, f) { EveryField(f); }
    }
    assert ParseFrom(s, 6, c) == Some(c);
    assert ParseFrom(s, 5, c5) == if Reads(s, CacheWrite) then Some(c) else None;
    assert ParseFrom(s, 4, c4) == if Reads(s, CacheRead) then ParseFrom(s, 5, c5) else None;
    assert ParseFrom(s, 3, c3) == if Reads(s, Cost) then ParseFrom(s, 4, c4) else None;
    assert ParseFrom(s, 2, c2) == if Reads(s, Total) then ParseFrom(s, 3, c3) else None;
    assert ParseFrom(s, 1, c1) == if Reads(s, Output) then ParseFrom(s, 2, c2) else None;
    assert ParseFrom(s, 0, NONE) == if Reads(s, Input) then ParseFrom(s, 1, c1) else None;
  }

  // --------------------------------------------------------------- the tracker

  datatype Baseline = Baseline(turnSeq: nat, counters: Stored)

  datatype Session = Session(turnSeq: nat, cumulative: Counters, baselineKnown: bool)

  datatype Metric = Metric(
    sessionId: string, turnId: string, turnSeq: nat, turn: Option<Counters>, cumulative: Counters, reliable: bool)

  /** `baselines` is durable; `metrics` is the history of what `settle` returned. */
  datatype Tracker = Tracker(
    sessions: map<string, Session>, turnTotals: map<(string, string), Counters>,
    baselines: map<string, Baseline>, metrics: seq<Metric>)

  const NEW_TRACKER := Tracker(map[], map[], map[], [])

  function SessionOf(t: Tracker, sessionId: string): Session {
    if sessionId in t.sessions then t.sessions[sessionId]
    else if sessionId !in t.baselines then Session(0, NONE, true)
    else
      var stored := t.baselines[sessionId];
      var counters := Parse(stored.counters);
      Session(stored.turnSeq, counters.Or(NONE), counters.Some?)
  }

  function Observe(t: Tracker, sessionId: string, turnId: string, u: PiUsage): Tracker {
    var key := (sessionId, turnId);
    var previous := if key in t.turnTotals then t.turnTotals[key] else NONE;
    t.(turnTotals := t.turnTotals[key := AddCounters(previous, NormalisePiUsage(u))])
  }

  function Discard(t: Tracker, sessionId: string, turnId: string): Tracker {
    t.(turnTotals := t.turnTotals - {(sessionId, turnId)})
  }

  /** The metric of a turn whose samples come to `total`. */
  function MetricFor(s: Session, sessionId: string, turnId: string, total: Counters): Metric {
    var cumulative := AddCounters(s.cumulative, total);
    var delta := DeriveTurnDelta(cumulative, s.cumulative);
    Metric(sessionId, turnId, s.turnSeq + 1, delta.turn, cumulative, delta.reliable && s.baselineKnown)
  }

  /** A turn without samples has no metric and leaves the series alone. */
  function Settle(t: Tracker, sessionId: string, turnId: string): (Tracker, Option<Metric>) {
    var key := (sessionId, turnId);
    var rest := t.(turnTotals := t.turnTotals - {key});
    if key !in t.turnTotals || t.turnTotals[key] == NONE then (rest, None) else
    var s := SessionOf(t, sessionId);
    var m := MetricFor(s, sessionId, turnId, t.turnTotals[key]);
    (rest.(sessions := t.sessions[sessionId := Session(m.turnSeq, m.cumulative, s.baselineKnown)],
           baselines := t.baselines[sessionId := Baseline(m.turnSeq, Print(m.cumulative))],
           metrics := t.metrics + [m]), Some(m))
  }

  function Restart(t: Tracker): Tracker { t.(sessions := map[], turnTotals := map[]) }

  datatype Step =
    | Observing(sessionId: string, turnId: string, usage: PiUsage)
    | Discarding(sessionId: string, turnId: string)
    | Settling(sessionId: string, turnId: string)
    | Restarting

  function Next(t: Tracker, s: Step): Tracker {
    match s
    case Observing(sessionId, turnId, usage) => Observe(t, sessionId, turnId, usage)
    case Discarding(sessionId, turnId) => Discard(t, sessionId, turnId)
    case Settling(sessionId, turnId) => Settle(t, sessionId, turnId).0
    case Restarting => Restart(t)
  }

  ghost predicate Follows(trace: seq<Tracker>, steps: seq<Step>) {
    && |trace| == |steps| + 1
    && forall i :: 0 <= i < |steps| ==> trace[i + 1] == Next(trace[i], steps[i])
  }

  /** The object the actors report to. `baselines` stands for the session repository. */
  class UsageTracker {
    var sessions: map<string, Session>
    var turnTotals: map<(string, string), Counters>
    var baselines: map<string, Baseline>
    ghost var metrics: seq<Metric>

    ghost function Model(): Tracker reads this { Tracker(sessions, turnTotals, baselines, metrics) }

    constructor (baselines: map<string, Baseline>)
      ensures Model() == NEW_TRACKER.(baselines := baselines)
    {
      sessions, turnTotals, this.baselines, metrics := map[], map[], baselines, [];
    }

    method Observe(sessionId: string, turnId: string, usage: PiUsage)
      modifies this
      ensures Model() == Next(old(Model()), Observing(sessionId, turnId, usage))
    {
      var key := (sessionId, turnId);
      var previous := if key in turnTotals then turnTotals[key] else NONE;
      turnTotals := turnTotals[key := AddCounters(previous, NormalisePiUsage(usage))];
    }

    method Discard(sessionId: string, turnId: string)
      modifies this
      ensures Model() == Next(old(Model()), Discarding(sessionId, turnId))
    {
      turnTotals := turnTotals - {(sessionId, turnId)};
    }

    method State(sessionId: string) returns (s: Session)
      modifies this
      ensures s == SessionOf(old(Model()), sessionId)
      ensures Model() == old(Model()).(sessions := old(sessions)[sessionId := s])
    {
      if sessionId in sessions {
        s := sessions[sessionId];
        assert sessions[sessionId := s] == sessions;
        return;
      }
      var counters: Option<Counters> := None;
      if sessionId in baselines { counters := ParseCounters(baselines[sessionId].counters); }
      s := Session(
        if sessionId in baselines then baselines[sessionId].turnSeq else 0,
        counters.Or(NONE), sessionId !in baselines || counters.Some?);
      sessions := sessions[sessionId := s];
    }

    method Settle(sessionId: string, turnId: string) returns (metric: Option<Metric>)
      modifies this
      ensures Model() == Next(old(Model()), Settling(sessionId, turnId))
      ensures metrics == old(metrics) + if metric.Some? then [metric.value] else []
    {
      var key := (sessionId, turnId);
      if key !in turnTotals || turnTotals[key] == NONE {
        turnTotals := turnTotals - {key};
        return None;
      }
      var turnTotal := turnTotals[key];
      turnTotals := turnTotals - {key};
      hide DeriveTurnDelta, Parse, AddCounters, Print;
      var state := State(sessionId);
      var m := MetricFor(state, sessionId, turnId, turnTotal);
      ghost var sessionsBefore := old(sessions);
      assert sessionsBefore[sessionId := state][sessionId := Session(m.turnSeq, m.cumulative, state.baselineKnown)]
        == sessionsBefore[sessionId := Session(m.turnSeq, m.cumulative, state.baselineKnown)];
      Advance(m, state.baselineKnown);
      metric := Some(m);
    }

    method Advance(m: Metric, known: bool)
      modifies this
      ensures Model() == old(Model()).(
        sessions := old(sessions)[m.sessionId := Session(m.turnSeq, m.cumulative, known)],
        baselines := old(baselines)[m.sessionId := Baseline(m.turnSeq, Print(m.cumulative))],
        metrics := old(metrics) + [m])
    {
      hide Print;
      sessions := sessions[m.sessionId := Session(m.turnSeq, m.cumulative, known)];
      baselines := baselines[m.sessionId := Baseline(m.turnSeq, Print(m.cumulative))];
      metrics := metrics + [m];
    }
  }
}
