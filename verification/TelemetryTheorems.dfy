/** What the telemetry buffer promises: lossless order, full accounts, bounded pace. */
module TelemetryTheorems {
  import opened Basics
  import opened MessageSplit
  import opened FrameSplit
  import opened TelemetryModel
  import opened TelemetryProofs

  // ------------------------------------------------------------ lossless order

  lemma {:induction false} FrameAtomsConcat(t: Option<string>, a: seq<Draft>, b: seq<Draft>)
    ensures FrameAtoms(t, a + b) == FrameAtoms(t, a) + FrameAtoms(t, b)
  {
    if b == [] {
      assert a + b == a;
    } else {
      FrameAtomsConcat(t, a, b[..|b| - 1]);
      assert (a + b)[..|a + b| - 1] == a + b[..|b| - 1];
    }
  }

  /** The frames of one draft amount to the payloads', whatever turn they are for. */
  function PayloadAtoms(payloads: seq<Payload>): seq<Atom> {
    if payloads == [] then [] else PayloadAtoms(payloads[..|payloads| - 1]) + FrameAtom(payloads[|payloads| - 1])
  }

  lemma {:induction false} OneDraft(t: Option<string>, d: Draft, payloads: seq<Payload>)
    ensures FrameAtoms(t, FramesOf(d, payloads)) == if d.turnId == t then PayloadAtoms(payloads) else []
  {
    if payloads != [] {
      OneDraft(t, d, payloads[..|payloads| - 1]);
      var frames := FramesOf(d, payloads);
      assert frames[..|frames| - 1] == FramesOf(d, payloads[..|payloads| - 1]);
    }
  }

  lemma {:induction false} WholeAtoms(payloads: seq<Payload>)
    requires forall i :: 0 <= i < |payloads| ==> !payloads[i].Chunk?
    ensures PayloadAtoms(payloads) == Wholes(payloads)
  {
    if payloads != [] {
      WholeAtoms(payloads[..|payloads| - 1]);
      assert Wholes(payloads) == Wholes(payloads[..|payloads| - 1]) + [Whole(payloads[|payloads| - 1])];
    }
  }

  lemma {:induction false} ChunkTextAppends(payloads: seq<Payload>, p: Payload)
    ensures ChunkText(payloads + [p]) == ChunkText(payloads) + if p.Chunk? then p.text else []
  {
    if payloads == [] {
      TailOfConcat([p], []);
      assert [p] + [] == payloads + [p];
    } else {
      TailOfConcat(payloads, [p]);
      ChunkTextAppends(payloads[1..], p);
    }
  }

  lemma {:induction false} ChunkAtoms(kind: ChunkKind, messageId: Text, payloads: seq<Payload>)
    requires forall i :: 0 <= i < |payloads| ==>
      payloads[i].Chunk? && payloads[i].kind == kind && payloads[i].messageId == messageId
    ensures PayloadAtoms(payloads) == Letters(kind, messageId, ChunkText(payloads))
  {
    if payloads != [] {
      var front, last := payloads[..|payloads| - 1], payloads[|payloads| - 1];
      ChunkAtoms(kind, messageId, front);
      assert payloads == front + [last];
      ChunkTextAppends(front, last);
      LettersConcat(kind, messageId, ChunkText(front), last.text);
    }
  }

  lemma SplitAtoms(cfg: Config, d: Draft)
    ensures PayloadAtoms(SplitPayload(d.payload, cfg.budget)) == DraftAtoms(cfg, d)
  {
    hide Encoded, PayloadAtoms;
    if d.payload.Chunk? {
      ChunkSplitsLosslessly(d.payload, cfg.budget);
      ChunkAtoms(d.payload.kind, d.payload.messageId, SplitPayload(d.payload, cfg.budget));
    } else {
      WholeAtoms(SplitPayload(d.payload, cfg.budget));
    }
  }

  lemma {:induction false} AllFramesAtoms(cfg: Config, t: Option<string>, drafts: seq<Draft>)
    ensures FrameAtoms(t, AllFrames(cfg, drafts)) == Atoms(cfg, t, drafts)
  {
    if drafts != [] {
      var front, last := drafts[..|drafts| - 1], drafts[|drafts| - 1];
      hide SplitPayload, DraftAtoms, FrameAtoms, PayloadAtoms;
      AllFramesAtoms(cfg, t, front);
      FrameAtomsConcat(t, AllFrames(cfg, front), FramesOf(last, SplitPayload(last.payload, cfg.budget)));
      OneDraft(t, last, SplitPayload(last.payload, cfg.budget));
      SplitAtoms(cfg, last);
    } else {
      assert AllFrames(cfg, drafts) == [];
    }
  }

  /** In any run that has shed nothing, whenever the timers fired: turn by turn, what is on
      the wire, in the queue and still open is exactly what was pushed, unit by unit and in
      push order, and at most one text per turn is open. */
  lemma NothingIsLostOrReordered(cfg: Config, trace: seq<Buffer>, steps: seq<Step>, i: nat, t: Option<string>, clock: int)
    requires Follows(cfg, trace, steps) && i < |trace| && trace[0] == Empty(clock)
    requires trace[i].shed == 0
    ensures var b := trace[i];
      && FrameAtoms(t, Drafts(b.emitted) + b.queue) + PendingAtoms(t, b.pending) == Atoms(cfg, t, b.pushed)
      && OneEach(b.pending)
  {
    EmptyIsValid(cfg, clock);
    RunsAreValid(cfg, trace, steps, i);
    var b := trace[i];
    assert Drafts(b.emitted) + b.queue == AllFrames(cfg, b.released) by {
      hide AllFrames, InOrder, Paced, Told, OverflowReports;
    }
    AllFramesAtoms(cfg, t, b.released);
    hide AllFrames, Steady, FrameAtoms, Atoms, PendingAtoms, OneEach;
  }

  // ------------------------------------------------------------------ accounts

  /** Every frame a released draft splits into went out, is queued or was shed; every shed
      frame was reported to the owner or is still to be, with a frame queued that will bring
      that about; the queue is bounded, and until the buffer is stopped a timer runs for it. */
  lemma EveryFrameIsAccountedFor(cfg: Config, trace: seq<Buffer>, steps: seq<Step>, i: nat, clock: int)
    requires Follows(cfg, trace, steps) && i < |trace| && trace[0] == Empty(clock)
    ensures var b := trace[i];
      && |AllFrames(cfg, b.released)| + OverflowReports(Drafts(b.emitted) + b.queue) == |b.emitted| + |b.queue| + b.shed
      && b.shed == Told(Drafts(b.emitted) + b.queue) + b.dropped
      && |b.queue| <= Ceiling(cfg)
      && (!b.stopped && (b.queue != [] || b.dropped > 0 || b.waiters > 0) ==> b.queue != [] && b.armed)
  {
    EmptyIsValid(cfg, clock);
    RunsAreValid(cfg, trace, steps, i);
    hide AllFrames, InOrder, Paced, Told, OverflowReports;
  }

  // ---------------------------------------------------------------------- pace

  /** One rate window never carries more than `rate` frames, and no second, wherever it
      starts, more than twice that many. */
  lemma ThePaceIsBounded(cfg: Config, trace: seq<Buffer>, steps: seq<Step>, n: nat, clock: int, i: nat, j: nat, from: int)
    requires Follows(cfg, trace, steps) && n < |trace| && trace[0] == Empty(clock)
    requires i <= j < |trace[n].emitted|
    ensures var log := trace[n].emitted;
      && (log[i].window == log[j].window ==> j - i < cfg.rate)
      && (from <= log[i].at && log[j].at < from + RATE_WINDOW_MS ==> j - i < 2 * cfg.rate)
  {
    EmptyIsValid(cfg, clock);
    RunsAreValid(cfg, trace, steps, n);
    PaceOf(cfg, trace[n], i, j, from);
  }

  lemma PaceOf(cfg: Config, b: Buffer, i: nat, j: nat, from: int)
    requires Valid(cfg, b) && i <= j < |b.emitted|
    ensures b.emitted[i].window == b.emitted[j].window ==> j - i < cfg.rate
    ensures from <= b.emitted[i].at && b.emitted[j].at < from + RATE_WINDOW_MS ==> j - i < 2 * cfg.rate
  {
    hide Accounts, InOrder;
    if j - i >= 2 * cfg.rate {
      var k := i + cfg.rate;
      assert b.emitted[i].window + RATE_WINDOW_MS <= b.emitted[k].window;
      assert b.emitted[k].window + RATE_WINDOW_MS <= b.emitted[j].window;
    }
  }

  // ------------------------------------------------------------- tool statuses

  predicate OnTool(d: Draft, key: (Option<string>, string)) {
    IsToolFrame(d.payload) && ToolKey(d) == key
  }

  predicate Ended(d: Draft, key: (Option<string>, string)) {
    OnTool(d, key) && IsTerminal(d.payload.status.value)
  }

  /** Once a call was shown as ended it is never shown as running again. */
  ghost predicate StaysEnded(b: Buffer, key: (Option<string>, string)) {
    && (forall i :: 0 <= i < |b.pushed| && Ended(b.pushed[i], key) ==>
          key in b.toolStatus && IsTerminal(b.toolStatus[key]))
    && (forall i, j ::
          0 <= i < j < |b.pushed| && Ended(b.pushed[i], key) && OnTool(b.pushed[j], key) ==> Ended(b.pushed[j], key))
  }

  lemma PushStaysEnded(b: Buffer, draft: Draft, key: (Option<string>, string), to: Buffer)
    requires StaysEnded(b, key)
    requires to.pushed == b.pushed + [Guarded(b.toolStatus, draft)] && to.toolStatus == Noted(b.toolStatus, draft)
    ensures StaysEnded(to, key)
  {
  }

  /** What a step writes to the record of pushes and to the statuses. */
  lemma StepHistory(cfg: Config, b: Buffer, s: Step)
    requires Valid(cfg, b) && Possible(b, s)
    ensures var to := Next(cfg, b, s);
      match s.action
      case Pushing(draft) =>
        to.pushed == b.pushed + [Guarded(b.toolStatus, draft)] && to.toolStatus == Noted(b.toolStatus, draft)
      case Forgetting(turnId) =>
        to.pushed == b.pushed && to.toolStatus == map k | k in b.toolStatus && k.0 != turnId :: b.toolStatus[k]
      case _ => to.pushed == b.pushed && to.toolStatus == b.toolStatus
  {
    hide Valid, Pump, ReleaseAll, ReleaseChunk, Enqueue, Steady, Find;
    match s.action
    case Pushing(draft) =>
      if draft.payload.Chunk? {
        OnlyOneLeft(cfg, b, draft.turnId, Some(ChunkKey(draft)), s.now);
      } else {
        PushHistory(cfg, b, draft, s.now);
      }
    case CoalesceTimer(key) => ReleaseKeeps(cfg, b, key, s.now);
    case PumpTimerFires => PumpingKeeps(cfg, b, b.(armed := false), s.now);
    case Flushing => ReleasingHistory(cfg, b, s.now);
    case Stopping => ReleasingHistory(cfg, b, s.now);
    case Forgetting(turnId) => OnlyOneLeft(cfg, b, turnId, None, s.now);
  }

  lemma ReleasingHistory(cfg: Config, b: Buffer, now: int)
    requires Valid(cfg, b) && now >= b.clock
    ensures var p := Pump(cfg, ReleaseAll(cfg, b, Keys(b.pending), now), now);
      p.pushed == b.pushed && p.toolStatus == b.toolStatus
  {
    hide Valid, Pump, ReleaseAll;
    ReleaseAllKeeps(cfg, b, Keys(b.pending), now);
    var e := ReleaseAll(cfg, b, Keys(b.pending), now);
    PumpingKeeps(cfg, e, e, now);
  }

  lemma PushHistory(cfg: Config, b: Buffer, draft: Draft, now: int)
    requires Valid(cfg, b) && now >= b.clock && !draft.payload.Chunk? && !draft.payload.Overflow?
    ensures var to := Push(cfg, b, draft, now);
      to.pushed == b.pushed + [Guarded(b.toolStatus, draft)] && to.toolStatus == Noted(b.toolStatus, draft)
  {
    OnlyOneLeft(cfg, b, draft.turnId, None, now);
    var f := FlushTurn(cfg, b, draft.turnId, now);
    var guarded := Guarded(f.toolStatus, draft);
    NotingKeepsSteady(cfg, f, Noted(f.toolStatus, draft), f.pushed + [guarded]);
    EnqueueKeeps(cfg, f.(toolStatus := Noted(f.toolStatus, draft), pushed := f.pushed + [guarded]), guarded, now);
    hide InOrder, Steady, Enqueue, ReleaseAll;
  }

  lemma StepStaysEnded(cfg: Config, b: Buffer, s: Step, key: (Option<string>, string))
    requires Valid(cfg, b) && Possible(b, s) && StaysEnded(b, key)
    requires s.action != Forgetting(key.0)
    ensures StaysEnded(Next(cfg, b, s), key)
  {
    StepHistory(cfg, b, s);
    var to := Next(cfg, b, s);
    hide Next, Valid, Possible;
    match s.action
    case Pushing(draft) => PushStaysEnded(b, draft, key, to);
    case _ =>
  }

  /** As long as a turn is not forgotten, a tool call of it that was pushed as completed or
      failed is pushed as completed or failed ever after, whatever its later frames said. */
  lemma {:induction false} ATerminalToolStaysTerminal(
    cfg: Config, trace: seq<Buffer>, steps: seq<Step>, n: nat, clock: int, key: (Option<string>, string))
    requires Follows(cfg, trace, steps) && n < |trace| && trace[0] == Empty(clock)
    requires forall k :: 0 <= k < n ==> steps[k].action != Forgetting(key.0)
    ensures StaysEnded(trace[n], key)
  {
    if n > 0 {
      ATerminalToolStaysTerminal(cfg, trace, steps, n - 1, clock, key);
      EmptyIsValid(cfg, clock);
      RunsAreValid(cfg, trace, steps, n - 1);
      StepStaysEnded(cfg, trace[n - 1], steps[n - 1], key);
    }
  }
}
