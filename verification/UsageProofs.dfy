/** The metrics of a session form one unbroken series, across any restarts. */
module UsageProofs {
  import opened Basics
  import opened Usage

  // --------------------------------------------------------------- one metric

  lemma AddKeepsNonNegative(a: Counters, b: Counters)
    requires AllNonNegative(a) && AllNonNegative(b)
    ensures AllNonNegative(AddCounters(a, b))
  {
  }

  lemma AddsFieldwise(a: Counters, b: Counters, f: Field)
    ensures AddCounters(a, b).Get(f) == AddCounter(a.Get(f), b.Get(f))
    ensures DiffCounters(a, b).Get(f) == DiffCounter(a.Get(f), b.Get(f))
    ensures AllNonNegative(a) ==> NonNegative(a.Get(f))
  {
  }

  /** A turn's figures are published exactly when no input, output, total or cost that had a
      baseline came out negative over the turn. */
  lemma TheDeltaIsReliableExactlyWhen(baseline: Counters, total: Counters)
    ensures var delta := DeriveTurnDelta(AddCounters(baseline, total), baseline);
      && (delta.reliable <==> forall f: Field :: f in [Input, Output, Total, Cost] && baseline.Get(f).Some? ==> Amount(total.Get(f)) >= 0.0)
      && (delta.turn.Some? <==> delta.reliable)
  {
    var c := AddCounters(baseline, total);
    assert [Input, Output, Total, Cost][0] == Input && [Input, Output, Total, Cost][1] == Output;
    assert [Input, Output, Total, Cost][2] == Total && [Input, Output, Total, Cost][3] == Cost;
    forall f: Field ensures Below(c.Get(f), baseline.Get(f)) <==> baseline.Get(f).Some? && Amount(total.Get(f)) < 0.0 {}
    assert Below(c.Get(Input), baseline.Get(Input)) == Below(c.input, baseline.input);
    assert Below(c.Get(Output), baseline.Get(Output)) == Below(c.output, baseline.output);
    assert Below(c.Get(Total), baseline.Get(Total)) == Below(c.total, baseline.total);
    assert Below(c.Get(Cost), baseline.Get(Cost)) == Below(c.cost, baseline.cost);
  }

  /** The figures of a turn amount to its samples; they are its samples exactly when it
      reported every counter the session had reported before. Otherwise a counter the turn
      left unknown comes out as a reported zero. */
  lemma TheDeltaIsTheTurnExactlyWhen(baseline: Counters, total: Counters)
    requires AllNonNegative(baseline) && AllNonNegative(total)
    ensures var delta := DiffCounters(AddCounters(baseline, total), baseline);
      && (forall f: Field :: Amount(delta.Get(f)) == Amount(total.Get(f)))
      && (forall f: Field :: total.Get(f).None? && baseline.Get(f).Some? ==> delta.Get(f) == Some(0.0))
      && (delta == total <==> forall f: Field :: total.Get(f).None? ==> baseline.Get(f).None?)
  {
    var delta := DiffCounters(AddCounters(baseline, total), baseline);
    forall f: Field ensures delta.Get(f) == Figure(baseline.Get(f), total.Get(f)) {
      FigureIs(baseline, total, f);
    }
    hide AddCounters, DiffCounters, AllNonNegative;
    if forall f: Field :: delta.Get(f) == total.Get(f) { SameFields(delta, total); }
  }

  /** What a turn publishes for a counter it reported as `total`. */
  function Figure(baseline: Counter, total: Counter): Counter {
    if total.None? && baseline.Some? then Some(0.0) else total
  }

  lemma FigureIs(baseline: Counters, total: Counters, f: Field)
    requires AllNonNegative(baseline) && AllNonNegative(total)
    ensures DiffCounters(AddCounters(baseline, total), baseline).Get(f) == Figure(baseline.Get(f), total.Get(f))
  {
    AddsFieldwise(baseline, total, f);
    AddsFieldwise(AddCounters(baseline, total), baseline, f);
    AddsFieldwise(total, total, f);
    hide AddCounters, DiffCounters, AllNonNegative;
  }

  // ----------------------------------------------------------------- the series

  /** A session's metrics, in the order they were returned. */
  function Mine(metrics: seq<Metric>, sessionId: string): seq<Metric> {
    if metrics == [] then [] else
    Mine(metrics[..|metrics| - 1], sessionId)
    + if metrics[|metrics| - 1].sessionId == sessionId then [metrics[|metrics| - 1]] else []
  }

  function CumulativeBefore(ms: seq<Metric>, k: nat): Counters
    requires k <= |ms|
  {
    if k == 0 then NONE else ms[k - 1].cumulative
  }

  /** A reliable metric with this number, whose figures move the cumulative ones by as much. */
  ghost predicate Links(before: Counters, m: Metric, number: nat) {
    && m.turnSeq == number && m.reliable && m.turn.Some? && AllNonNegative(m.cumulative)
    && forall f: Field ::
         && Amount(m.turn.value.Get(f)) >= 0.0
         && Amount(m.cumulative.Get(f)) == Amount(before.Get(f)) + Amount(m.turn.value.Get(f))
  }

  ghost predicate Series(ms: seq<Metric>) {
    forall k :: 0 <= k < |ms| ==> Links(CumulativeBefore(ms, k), ms[k], k + 1)
  }

  /** Memory and the durable baseline continue the session's series. */
  ghost predicate Continues(t: Tracker, sessionId: string) {
    var ms := Mine(t.metrics, sessionId);
    && Series(ms)
    && (if ms == [] then sessionId !in t.baselines && sessionId !in t.sessions else
        var last := ms[|ms| - 1].cumulative;
        && sessionId in t.baselines && t.baselines[sessionId] == Baseline(|ms|, Print(last))
        && (sessionId in t.sessions ==> t.sessions[sessionId] == Session(|ms|, last, true)))
  }

  ghost predicate Valid(t: Tracker) {
    && (forall k :: k in t.turnTotals ==> AllNonNegative(t.turnTotals[k]))
    && forall s :: Continues(t, s)
  }

  ghost predicate Possible(s: Step) {
    s.Observing? ==>
      var u := s.usage;
      NonNegative(u.input) && NonNegative(u.output) && NonNegative(u.total)
      && NonNegative(u.cost) && NonNegative(u.cacheRead) && NonNegative(u.cacheWrite)
  }

  /** What memory and the stored baseline say of a session is where its series stands. */
  lemma SessionStands(t: Tracker, sessionId: string)
    requires Continues(t, sessionId)
    ensures var ms := Mine(t.metrics, sessionId);
      SessionOf(t, sessionId) == Session(|ms|, CumulativeBefore(ms, |ms|), true)
  {
    var ms := Mine(t.metrics, sessionId);
    hide Print, Parse, Mine;
    if ms != [] { ParseUndoesPrintExactlyWhen(ms[|ms| - 1].cumulative); }
  }

  lemma NextLinks(before: Counters, number: nat, sessionId: string, turnId: string, total: Counters)
    requires AllNonNegative(before) && AllNonNegative(total)
    ensures Links(before, MetricFor(Session(number, before, true), sessionId, turnId, total), number + 1)
  {
    var m := MetricFor(Session(number, before, true), sessionId, turnId, total);
    AddKeepsNonNegative(before, total);
    TheDeltaIsReliableExactlyWhen(before, total);
    TheDeltaIsTheTurnExactlyWhen(before, total);
    forall f: Field ensures Amount(total.Get(f)) >= 0.0
      && Amount(AddCounters(before, total).Get(f)) == Amount(before.Get(f)) + Amount(total.Get(f))
    {
      AddsFieldwise(before, total, f);
      AddsFieldwise(total, total, f);
    }
    assert m.turn == Some(DiffCounters(AddCounters(before, total), before));
    hide DeriveTurnDelta, AddCounters, DiffCounters, AllNonNegative;
  }

  lemma NextMetric(ms: seq<Metric>, sessionId: string, turnId: string, total: Counters)
    requires Series(ms) && AllNonNegative(total)
    ensures Series(ms + [MetricFor(Session(|ms|, CumulativeBefore(ms, |ms|), true), sessionId, turnId, total)])
  {
    var before := CumulativeBefore(ms, |ms|);
    var m := MetricFor(Session(|ms|, before, true), sessionId, turnId, total);
    if ms != [] { assert Links(CumulativeBefore(ms, |ms| - 1), ms[|ms| - 1], |ms|); }
    assert AllNonNegative(before);
    NextLinks(before, |ms|, sessionId, turnId, total);
    hide Links, MetricFor, AllNonNegative;
    OneMoreLink(ms, m);
  }

  lemma OneMoreLink(ms: seq<Metric>, m: Metric)
    requires Series(ms) && Links(CumulativeBefore(ms, |ms|), m, |ms| + 1)
    ensures Series(ms + [m])
  {
    hide Links;
    assert forall k :: 0 <= k <= |ms| ==> CumulativeBefore(ms + [m], k) == CumulativeBefore(ms, k);
    hide CumulativeBefore;
  }

  lemma SettleKeeps(t: Tracker, sessionId: string, turnId: string)
    requires Valid(t)
    ensures Valid(Settle(t, sessionId, turnId).0)
  {
    var key := (sessionId, turnId);
    var to := Settle(t, sessionId, turnId).0;
    if key in t.turnTotals && t.turnTotals[key] != NONE {
      var total := t.turnTotals[key];
      assert Continues(t, sessionId);
      SessionStands(t, sessionId);
      NextMetric(Mine(t.metrics, sessionId), sessionId, turnId, total);
      hide Series, MetricFor, AllNonNegative, Print, SessionOf;
      forall s ensures Continues(to, s) { SettleContinues(t, to, sessionId, turnId, total, s); }
    } else {
      hide Series, MetricFor, AllNonNegative, Print, SessionOf;
      forall s ensures Continues(to, s) { assert Continues(t, s); }
    }
  }

  lemma SettleContinues(t: Tracker, to: Tracker, sessionId: string, turnId: string, total: Counters, s: string)
    requires Continues(t, s) && Continues(t, sessionId)
    requires var ms := Mine(t.metrics, sessionId);
      var m := MetricFor(Session(|ms|, CumulativeBefore(ms, |ms|), true), sessionId, turnId, total);
      && Series(ms + [m])
      && to.metrics == t.metrics + [m]
      && to.sessions == t.sessions[sessionId := Session(m.turnSeq, m.cumulative, true)]
      && to.baselines == t.baselines[sessionId := Baseline(m.turnSeq, Print(m.cumulative))]
    ensures Continues(to, s)
  {
    hide Series, Print, DeriveTurnDelta, AddCounters;
    var m := to.metrics[|to.metrics| - 1];
    assert to.metrics[..|to.metrics| - 1] == t.metrics;
    assert Mine(to.metrics, s) == Mine(t.metrics, s) + if s == sessionId then [m] else [];
    hide Mine, CumulativeBefore;
    if s != sessionId { assert Mine(to.metrics, s) == Mine(t.metrics, s); }
  }

  lemma StepKeeps(t: Tracker, s: Step)
    requires Valid(t) && Possible(s)
    ensures Valid(Next(t, s))
  {
    hide Valid, Settle, Observe, NonNegative;
    match s
    case Settling(sessionId, turnId) => SettleKeeps(t, sessionId, turnId);
    case Observing(sessionId, turnId, u) => ObserveKeeps(t, sessionId, turnId, u);
    case Discarding(sessionId, turnId) => ForgetKeeps(t, t.sessions, t.turnTotals - {(sessionId, turnId)});
    case Restarting => ForgetKeeps(t, map[], map[]);
  }

  /** Losing samples or session memory breaks nothing. */
  lemma ForgetKeeps(t: Tracker, sessions: map<string, Session>, totals: map<(string, string), Counters>)
    requires Valid(t) && totals.Keys <= t.turnTotals.Keys && (forall k :: k in totals ==> totals[k] == t.turnTotals[k])
    requires sessions == t.sessions || sessions == map[]
    ensures Valid(t.(sessions := sessions, turnTotals := totals))
  {
    hide AllNonNegative, Series, Mine, Print;
    forall x ensures Continues(t.(sessions := sessions, turnTotals := totals), x) { assert Continues(t, x); }
  }

  lemma ObserveKeeps(t: Tracker, sessionId: string, turnId: string, u: PiUsage)
    requires Valid(t) && Possible(Observing(sessionId, turnId, u))
    ensures Valid(Observe(t, sessionId, turnId, u))
  {
    var key, to := (sessionId, turnId), Observe(t, sessionId, turnId, u);
    AddKeepsNonNegative(if key in t.turnTotals then t.turnTotals[key] else NONE, NormalisePiUsage(u));
    hide NormalisePiUsage, AddCounters, AllNonNegative, Series, Mine, Print;
    forall x ensures Continues(to, x) { assert Continues(t, x); }
  }

  lemma {:induction false} RunsAreValid(trace: seq<Tracker>, steps: seq<Step>, n: nat)
    requires Follows(trace, steps) && n < |trace| && trace[0] == NEW_TRACKER
    requires forall i :: 0 <= i < |steps| ==> Possible(steps[i])
    ensures Valid(trace[n])
  {
    if n > 0 {
      RunsAreValid(trace, steps, n - 1);
      StepKeeps(trace[n - 1], steps[n - 1]);
    }
  }

  function Sum(ms: seq<Metric>, f: Field): real {
    if ms == [] then 0.0 else
    Sum(ms[..|ms| - 1], f)
    + if ms[|ms| - 1].turn.Some? then Amount(ms[|ms| - 1].turn.value.Get(f)) else 0.0
  }

  lemma LinkAt(ms: seq<Metric>, k: nat, f: Field)
    requires Series(ms) && k < |ms|
    ensures ms[k].turn.Some? && Amount(ms[k].turn.value.Get(f)) >= 0.0
    ensures Amount(ms[k].cumulative.Get(f))
      == Amount(CumulativeBefore(ms, k).Get(f)) + Amount(ms[k].turn.value.Get(f))
    ensures ms[k].turnSeq == k + 1 && ms[k].reliable
  {
    assert Links(CumulativeBefore(ms, k), ms[k], k + 1);
  }

  lemma {:induction false} SeriesSums(ms: seq<Metric>, k: nat, f: Field)
    requires Series(ms) && k <= |ms|
    ensures Sum(ms[..k], f) == Amount(CumulativeBefore(ms, k).Get(f))
  {
    hide Series, AllNonNegative;
    if k > 0 {
      SeriesSums(ms, k - 1, f);
      LinkAt(ms, k - 1, f);
      assert ms[..k][..k - 1] == ms[..k - 1];
    }
  }

  lemma {:induction false} SeriesGrows(ms: seq<Metric>, i: nat, j: nat, f: Field)
    requires Series(ms) && i <= j < |ms|
    ensures Amount(ms[i].cumulative.Get(f)) <= Amount(ms[j].cumulative.Get(f))
  {
    hide Series, AllNonNegative;
    if i < j {
      SeriesGrows(ms, i, j - 1, f);
      LinkAt(ms, j, f);
    }
  }

  /** Over any run of non-negative usage, with restarts anywhere: the turn figures of a
      session's metrics add up to its cumulative figures at every metric, those never fall,
      the numbering has no gaps, and every metric is marked reliable. */
  lemma TheSeriesAddsUp(trace: seq<Tracker>, steps: seq<Step>, n: nat, sessionId: string, i: nat, k: nat, f: Field)
    requires Follows(trace, steps) && n < |trace| && trace[0] == NEW_TRACKER
    requires forall i :: 0 <= i < |steps| ==> Possible(steps[i])
    requires i <= k < |Mine(trace[n].metrics, sessionId)|
    ensures var ms := Mine(trace[n].metrics, sessionId);
      && Sum(ms[..k + 1], f) == Amount(ms[k].cumulative.Get(f))
      && Amount(ms[i].cumulative.Get(f)) <= Amount(ms[k].cumulative.Get(f))
      && ms[k].turnSeq == k + 1 && ms[k].reliable
  {
    RunsAreValid(trace, steps, n);
    assert Continues(trace[n], sessionId);
    var ms := Mine(trace[n].metrics, sessionId);
    LinkAt(ms, k, f);
    SeriesSums(ms, k + 1, f);
    SeriesGrows(ms, i, k, f);
  }

  // ------------------------------------------------------- an unreadable baseline

  /** Step `i` settles a metric of the session. */
  ghost predicate Metered(trace: seq<Tracker>, steps: seq<Step>, sessionId: string, i: nat)
    requires |trace| == |steps| + 1 && i < |steps|
  {
    steps[i].Settling? && steps[i].sessionId == sessionId && trace[i + 1].metrics != trace[i].metrics
  }

  ghost predicate MeteredBefore(trace: seq<Tracker>, steps: seq<Step>, sessionId: string, n: nat)
    requires |trace| == |steps| + 1 && n <= |steps|
  {
    exists i: nat :: i < n && Metered(trace, steps, sessionId, i)
  }

  /** The process was restarted after the session's first metric and before step `n`. */
  ghost predicate RestartedSince(trace: seq<Tracker>, steps: seq<Step>, sessionId: string, n: nat)
    requires |trace| == |steps| + 1 && n <= |steps|
  {
    exists r: nat :: r < n && steps[r].Restarting? && MeteredBefore(trace, steps, sessionId, r)
  }

  ghost predicate Readable(t: Tracker, sessionId: string, c: Counters) {
    sessionId in t.baselines && t.baselines[sessionId].counters == Print(c) && AllNonNegative(c)
  }

  /** What memory and store hold of a session whose baseline could not be read at first. */
  ghost predicate Marked(t: Tracker, sessionId: string, metered: bool, restarted: bool) {
    && (forall k :: k in t.turnTotals ==> AllNonNegative(t.turnTotals[k]))
    && sessionId in t.baselines
    && (if !metered then sessionId !in t.sessions && Parse(t.baselines[sessionId].counters).None?
        else if !restarted then
          && sessionId in t.sessions && !t.sessions[sessionId].baselineKnown
          && Readable(t, sessionId, t.sessions[sessionId].cumulative)
        else
          && (sessionId in t.sessions ==>
                t.sessions[sessionId].baselineKnown && Readable(t, sessionId, t.sessions[sessionId].cumulative))
          && (exists c :: Readable(t, sessionId, c)))
  }

  /** What `settle` works from: readable figures, and known exactly when restarted on them. */
  lemma MarkedSession(t: Tracker, sessionId: string, metered: bool, restarted: bool)
    requires Marked(t, sessionId, metered, restarted) && (restarted ==> metered)
    ensures var s := SessionOf(t, sessionId); AllNonNegative(s.cumulative) && (s.baselineKnown <==> restarted)
  {
    if restarted && sessionId !in t.sessions {
      var c :| Readable(t, sessionId, c);
      ParseUndoesPrintExactlyWhen(c);
    }
    hide Parse, Print;
  }

  /** A metric from readable figures is reliable exactly when they are known, and leaves
      readable ones. */
  lemma MarkedMetric(s: Session, sessionId: string, turnId: string, total: Counters)
    requires AllNonNegative(s.cumulative) && AllNonNegative(total)
    ensures var m := MetricFor(s, sessionId, turnId, total);
      (m.reliable <==> s.baselineKnown) && AllNonNegative(m.cumulative)
  {
    AddKeepsNonNegative(s.cumulative, total);
    TheDeltaIsReliableExactlyWhen(s.cumulative, total);
    forall f: Field ensures Amount(total.Get(f)) >= 0.0 { AddsFieldwise(total, total, f); }
    hide DeriveTurnDelta, AddCounters, AllNonNegative;
  }

  lemma SettleMarked(t: Tracker, id: string, turnId: string, sessionId: string, metered: bool, restarted: bool)
    requires Marked(t, sessionId, metered, restarted) && (restarted ==> metered)
    ensures var r := Settle(t, id, turnId);
      && Marked(r.0, sessionId, metered || (id == sessionId && r.1.Some?), restarted)
      && (r.1.Some? <==> r.0.metrics != t.metrics)
  {
    if id == sessionId {
      SettleOwn(t, turnId, sessionId, metered, restarted);
    } else {
      SettleOther(t, id, turnId, sessionId, metered, restarted);
    }
    hide Marked, Settle;
  }

  lemma SettleOwn(t: Tracker, turnId: string, sessionId: string, metered: bool, restarted: bool)
    requires Marked(t, sessionId, metered, restarted) && (restarted ==> metered)
    ensures var r := Settle(t, sessionId, turnId);
      && Marked(r.0, sessionId, metered || r.1.Some?, restarted)
      && (r.1.Some? <==> r.0.metrics != t.metrics)
      && (r.1.Some? ==> r.0.metrics == t.metrics + [r.1.value] && r.1.value.sessionId == sessionId)
      && (r.1.Some? ==> (r.1.value.reliable <==> restarted))
  {
    var key := (sessionId, turnId);
    if key in t.turnTotals && t.turnTotals[key] != NONE {
      var session, total := SessionOf(t, sessionId), t.turnTotals[key];
      MarkedSession(t, sessionId, metered, restarted);
      MarkedMetric(session, sessionId, turnId, total);
      hide MetricFor, SessionOf, Parse, Print, AllNonNegative;
      var to := Settle(t, sessionId, turnId).0;
      assert MetricFor(session, sessionId, turnId, total).sessionId == sessionId by { MetricsNameTheirSession(session, sessionId, turnId, total); }
      assert Readable(to, sessionId, to.sessions[sessionId].cumulative);
    } else {
      DroppingTotals(t, t.turnTotals - {key}, sessionId, metered, restarted);
    }
  }

  lemma MetricsNameTheirSession(s: Session, sessionId: string, turnId: string, total: Counters)
    ensures MetricFor(s, sessionId, turnId, total).sessionId == sessionId
  {
  }

  lemma SettleOther(t: Tracker, id: string, turnId: string, sessionId: string, metered: bool, restarted: bool)
    requires Marked(t, sessionId, metered, restarted) && id != sessionId
    ensures var r := Settle(t, id, turnId);
      && Marked(r.0, sessionId, metered, restarted)
      && (r.1.Some? <==> r.0.metrics != t.metrics)
  {
    var key, to := (id, turnId), Settle(t, id, turnId).0;
    hide MetricFor, SessionOf, Parse, Print, AllNonNegative;
    if exists c :: Readable(t, sessionId, c) {
      var c :| Readable(t, sessionId, c);
      assert Readable(to, sessionId, c);
    }
    if sessionId in t.sessions && Readable(t, sessionId, t.sessions[sessionId].cumulative) {
      assert Readable(to, sessionId, t.sessions[sessionId].cumulative);
    }
  }

  lemma DroppingTotals(
    t: Tracker, totals: map<(string, string), Counters>, sessionId: string, metered: bool, restarted: bool)
    requires Marked(t, sessionId, metered, restarted)
    requires totals.Keys <= t.turnTotals.Keys && forall k :: k in totals ==> totals[k] == t.turnTotals[k]
    ensures Marked(t.(turnTotals := totals), sessionId, metered, restarted)
  {
    hide AllNonNegative, Parse, Print;
    if exists c :: Readable(t, sessionId, c) {
      var c :| Readable(t, sessionId, c);
      assert Readable(t.(turnTotals := totals), sessionId, c);
    }
  }

  lemma ObserveMarked(t: Tracker, id: string, turnId: string, u: PiUsage, sessionId: string, metered: bool, restarted: bool)
    requires Marked(t, sessionId, metered, restarted) && Possible(Observing(id, turnId, u))
    ensures Marked(Observe(t, id, turnId, u), sessionId, metered, restarted)
  {
    var key := (id, turnId);
    AddKeepsNonNegative(if key in t.turnTotals then t.turnTotals[key] else NONE, NormalisePiUsage(u));
    hide NormalisePiUsage, AddCounters, AllNonNegative, Parse, Print;
    if exists c :: Readable(t, sessionId, c) {
      var c :| Readable(t, sessionId, c);
      assert Readable(Observe(t, id, turnId, u), sessionId, c);
    }
  }

  lemma StillReadable(t: Tracker, to: Tracker, sessionId: string, c: Counters)
    requires Readable(t, sessionId, c) && to.baselines == t.baselines
    ensures Readable(to, sessionId, c)
  {
  }

  lemma RestartMarked(t: Tracker, sessionId: string, metered: bool, restarted: bool)
    requires Marked(t, sessionId, metered, restarted) && (restarted ==> metered)
    ensures Marked(Restart(t), sessionId, metered, metered)
  {
    if metered {
      if !restarted { assert Readable(t, sessionId, t.sessions[sessionId].cumulative); }
      var c :| Readable(t, sessionId, c);
      StillReadable(t, Restart(t), sessionId, c);
    }
    hide Readable, AllNonNegative;
  }

  /** How the two histories grow with a step. */
  lemma HistoriesGrow(trace: seq<Tracker>, steps: seq<Step>, sessionId: string, n: nat)
    requires |trace| == |steps| + 1 && n < |steps|
    ensures MeteredBefore(trace, steps, sessionId, n + 1) <==>
      MeteredBefore(trace, steps, sessionId, n) || Metered(trace, steps, sessionId, n)
    ensures RestartedSince(trace, steps, sessionId, n + 1) <==>
      || RestartedSince(trace, steps, sessionId, n)
      || (steps[n].Restarting? && MeteredBefore(trace, steps, sessionId, n))
    ensures RestartedSince(trace, steps, sessionId, n) ==> MeteredBefore(trace, steps, sessionId, n)
  {
    hide Metered;
    if RestartedSince(trace, steps, sessionId, n) {
      var r: nat :| r < n && steps[r].Restarting? && MeteredBefore(trace, steps, sessionId, r);
      var i: nat :| i < r && Metered(trace, steps, sessionId, i);
      assert i < n;
    }
  }

  lemma {:induction false} MarkHolds(trace: seq<Tracker>, steps: seq<Step>, sessionId: string, n: nat)
    requires Follows(trace, steps) && n < |trace| && Marked(trace[0], sessionId, false, false)
    requires forall i :: 0 <= i < |steps| ==> Possible(steps[i])
    ensures Marked(trace[n], sessionId, MeteredBefore(trace, steps, sessionId, n), RestartedSince(trace, steps, sessionId, n))
    ensures RestartedSince(trace, steps, sessionId, n) ==> MeteredBefore(trace, steps, sessionId, n)
  {
    hide Marked, Possible, Settle, Observe, Restart, Discard, MeteredBefore, RestartedSince;
    if n == 0 {
      NoHistory(trace, steps, sessionId);
    } else {
      MarkHolds(trace, steps, sessionId, n - 1);
      HistoriesGrow(trace, steps, sessionId, n - 1);
      var t := trace[n - 1];
      var metered, restarted := MeteredBefore(trace, steps, sessionId, n - 1), RestartedSince(trace, steps, sessionId, n - 1);
      assert trace[n] == Next(t, steps[n - 1]) && Possible(steps[n - 1]);
      match steps[n - 1]
      case Settling(id, turnId) => SettleMarked(t, id, turnId, sessionId, metered, restarted);
      case Observing(id, turnId, u) => ObserveMarked(t, id, turnId, u, sessionId, metered, restarted);
      case Discarding(id, turnId) =>
        DroppingTotals(t, t.turnTotals - {(id, turnId)}, sessionId, metered, restarted);
        DiscardDrops(t, id, turnId);
      case Restarting => RestartMarked(t, sessionId, metered, restarted);
    }
  }

  lemma DiscardDrops(t: Tracker, id: string, turnId: string)
    ensures Discard(t, id, turnId) == t.(turnTotals := t.turnTotals - {(id, turnId)})
  {
  }

  lemma NoHistory(trace: seq<Tracker>, steps: seq<Step>, sessionId: string)
    requires |trace| == |steps| + 1
    ensures !MeteredBefore(trace, steps, sessionId, 0) && !RestartedSince(trace, steps, sessionId, 0)
  {
  }

  /** Over every run of non-negative usage from a store whose baseline for the session cannot be
      read: a metric of the session is marked reliable exactly when the process was restarted
      between the session's first metric and it. The first one stored a readable baseline, so
      the mark does not outlive the process, though the series began from nothing. */
  lemma AnUnreadableBaselineIsMarkedUntilARestart(trace: seq<Tracker>, steps: seq<Step>, sessionId: string, n: nat)
    requires Follows(trace, steps) && n < |steps|
    requires sessionId !in trace[0].sessions && sessionId in trace[0].baselines
    requires Parse(trace[0].baselines[sessionId].counters).None? && trace[0].turnTotals == map[]
    requires forall i :: 0 <= i < |steps| ==> Possible(steps[i])
    requires Metered(trace, steps, sessionId, n)
    ensures var metrics := trace[n + 1].metrics;
      && |metrics| > 0 && metrics[|metrics| - 1].sessionId == sessionId
      && (metrics[|metrics| - 1].reliable <==> RestartedSince(trace, steps, sessionId, n))
  {
    assert Marked(trace[0], sessionId, false, false);
    MarkHolds(trace, steps, sessionId, n);
    assert trace[n + 1] == Next(trace[n], steps[n]);
    hide Marked, Possible, MeteredBefore, RestartedSince, Settle;
    SettleOwn(trace[n], steps[n].turnId, sessionId, MeteredBefore(trace, steps, sessionId, n),
      RestartedSince(trace, steps, sessionId, n));
  }

  /** A stored baseline that cannot be read marks the metrics of this process unreliable and
      no later ones: the first settled turn stores a readable baseline, so after a restart the
      session's metrics are marked reliable again, though the series began from nothing. */
  lemma AnUnreadableBaselineIsForgottenByARestart(
    t: Tracker, sessionId: string, turnId: string, total: Counters, laterTurn: string, later: Counters)
    requires sessionId !in t.sessions && sessionId in t.baselines && Parse(t.baselines[sessionId].counters).None?
    requires AllNonNegative(total) && total != NONE && AllNonNegative(later) && later != NONE
    ensures var first := Settle(t.(turnTotals := map[(sessionId, turnId) := total]), sessionId, turnId);
      var second := Settle(Restart(first.0).(turnTotals := map[(sessionId, laterTurn) := later]), sessionId, laterTurn);
      && first.1.Some? && !first.1.value.reliable && first.1.value.cumulative == total
      && second.1.Some? && second.1.value.reliable
  {
    var first := Settle(t.(turnTotals := map[(sessionId, turnId) := total]), sessionId, turnId);
    assert AddCounters(NONE, total) == total;
    ParseUndoesPrintExactlyWhen(total);
    hide Parse, Print;
    assert first.0.baselines[sessionId].counters == Print(total);
    var again := Restart(first.0).(turnTotals := map[(sessionId, laterTurn) := later]);
    assert SessionOf(again, sessionId) == Session(t.baselines[sessionId].turnSeq + 1, total, true);
    TheDeltaIsReliableExactlyWhen(total, later);
    forall f: Field ensures Amount(later.Get(f)) >= 0.0 { AddsFieldwise(later, later, f); }
    hide DeriveTurnDelta, AddCounters, AllNonNegative;
  }
}
