/** The telemetry buffer as the object the runtime pushes frames into. */
module TelemetryBuffers {
  import opened Basics
  import opened FrameSplit
  import M = TelemetryModel

  class TelemetryBuffer {
    const cfg: M.Config
    var pending: seq<M.Open>
    var queue: seq<M.Draft>
    var toolStatus: map<(Option<string>, string), ToolStatus>
    var windowStart: Option<int>
    var windowCount: nat
    var armed: bool
    var dropped: nat
    var dropRoute: Option<M.Draft>
    var waiters: nat
    /** What the frame callback was given. */
    var emitted: seq<M.Emission>
    ghost var pushed: seq<M.Draft>
    ghost var released: seq<M.Draft>
    ghost var taken: seq<M.Draft>
    ghost var shed: nat
    ghost var reported: nat
    ghost var reports: nat
    ghost var clock: int
    ghost var stopped: bool

    ghost function Model(): M.Buffer reads this {
      M.Buffer(pending, queue, toolStatus, windowStart, windowCount, armed, dropped, dropRoute, waiters, emitted,
               pushed, released, taken, shed, reported, reports, clock, stopped)
    }

    constructor (cfg: M.Config, ghost clock: int)
      ensures this.cfg == cfg && Model() == M.Empty(clock)
    {
      this.cfg := cfg;
      pending, queue, toolStatus, windowStart, windowCount := [], [], map[], None, 0;
      armed, dropped, dropRoute, waiters, emitted := false, 0, None, 0, [];
      pushed, released, taken, shed, reported, reports := [], [], [], 0, 0, 0;
      this.clock, stopped := clock, false;
    }

    // ------------------------------------------------------------------- pacing

    method OpenWindow(now: int)
      modifies this
      ensures Model() == M.Refreshed(old(Model()), now)
    {
      clock := now;
      if windowStart.None? || now - windowStart.value >= M.RATE_WINDOW_MS {
        windowStart := Some(now);
        windowCount := 0;
      }
    }

    method Drain(now: int)
      requires windowStart.Some?
      modifies this
      ensures Model() == M.Drained(cfg, old(Model()), now)
    {
      ghost var target := M.Drained(cfg, Model(), now);
      while queue != [] && windowCount < cfg.rate
        invariant windowStart.Some? && M.Drained(cfg, Model(), now) == target
        decreases |queue|
      {
        SendHead(now);
      }
    }

    /** Gives the head of the queue to the frame callback. */
    method SendHead(now: int)
      requires queue != [] && windowStart.Some?
      modifies this
      ensures Model() == M.Sent(old(Model()), now)
    {
      var draft := queue[0];
      queue := queue[1..];
      windowCount := windowCount + 1;
      emitted := emitted + [M.Emission(draft, now, windowStart.value)];
    }

    method Pump(now: int)
      modifies this
      ensures Model() == M.Pump(cfg, old(Model()), now)
      decreases dropped, 1
    {
      OpenWindow(now);
      Drain(now);
      hide M.Drained, M.Refreshed;
      if queue == [] && dropped > 0 {
        ReportOverflow(now);
        return;
      }
      if queue != [] {
        armed := true;
        return;
      }
      waiters := 0;
    }

    method ReportOverflow(now: int)
      requires dropped > 0
      modifies this
      ensures Model() == M.Pump(cfg, M.Reported(cfg, old(Model())), now)
      decreases dropped, 0
    {
      hide M.Pump;
      Report();
      Pump(now);
    }

    method Report()
      modifies this
      ensures Model() == M.Reported(cfg, old(Model()))
    {
      if dropRoute.Some? { QueueReport(M.OverflowFrame(cfg, dropRoute.value, dropped)); }
      dropRoute := None;
      reported := reported + dropped;
      dropped := 0;
    }

    method QueueReport(frame: M.Draft)
      modifies this
      ensures var b := old(Model());
        Model() == b.(queue := b.queue + [frame], taken := b.taken + [frame], reports := b.reports + 1)
    {
      queue := queue + [frame];
      taken := taken + [frame];
      reports := reports + 1;
    }

    // -------------------------------------------------------------------- queue

    method Offer(draft: M.Draft, payload: Payload)
      modifies this
      ensures Model() == M.OfferedOne(cfg, old(Model()), draft, payload)
    {
      if |queue| >= cfg.limit {
        dropped := dropped + 1;
        dropRoute := Some(draft);
        shed := shed + 1;
        return;
      }
      queue := queue + [draft.(payload := payload)];
      taken := taken + [draft.(payload := payload)];
    }

    method Enqueue(draft: M.Draft, now: int)
      modifies this
      ensures Model() == M.Enqueue(cfg, old(Model()), draft, now)
    {
      var payloads := SplitPayload(draft.payload, cfg.budget);
      hide SplitPayload, M.OfferedOne, M.Pump, M.Offered;
      released := released + [draft];
      ghost var noted := Model();
      NothingOffered(cfg, noted, draft, payloads);
      for i := 0 to |payloads|
        invariant Model() == M.Offered(cfg, noted, draft, payloads[..i])
      {
        OfferedNext(cfg, noted, draft, payloads, i);
        Offer(draft, payloads[i]);
      }
      Pump(now);
    }

    // --------------------------------------------------------------- coalescing

    method ReleaseChunk(key: M.Key, now: int)
      modifies this
      ensures Model() == M.ReleaseChunk(cfg, old(Model()), key, now)
    {
      var i := M.Find(pending, key);
      hide M.Enqueue, M.Find;
      if i == |pending| { return; }
      var open := pending[i];
      pending := pending[..i] + pending[i + 1..];
      Enqueue(M.OpenFrame(open), now);
    }

    method ReleaseAll(keys: seq<M.Key>, now: int)
      modifies this
      ensures Model() == M.ReleaseAll(cfg, old(Model()), keys, now)
    {
      hide M.ReleaseChunk;
      ghost var target := M.ReleaseAll(cfg, Model(), keys, now);
      assert keys[0..] == keys;
      for i := 0 to |keys|
        invariant M.ReleaseAll(cfg, Model(), keys[i..], now) == target
      {
        assert keys[i..][1..] == keys[i + 1..];
        ReleaseChunk(keys[i], now);
      }
    }

    method FlushTurn(turnId: Option<string>, now: int)
      modifies this
      ensures Model() == M.FlushTurn(cfg, old(Model()), turnId, now)
    {
      ReleaseAll(M.KeysOf(pending, turnId, None), now);
    }

    method PushChunk(draft: M.Draft, now: int)
      requires draft.payload.Chunk?
      modifies this
      ensures Model() == M.PushChunk(cfg, old(Model()), draft, now)
    {
      hide M.ReleaseAll, M.KeysOf, M.Find;
      var key := M.ChunkKey(draft);
      ReleaseAll(M.KeysOf(pending, draft.turnId, Some(key)), now);
      var i := M.Find(pending, key);
      if i < |pending| {
        pending := pending[i := pending[i].(text := pending[i].text + draft.payload.text)];
      } else {
        pending := pending + [M.Open(key, draft, draft.payload.text)];
      }
      pushed, clock := pushed + [draft], now;
    }

    method GuardToolStatus(draft: M.Draft) returns (guarded: M.Draft)
      modifies this
      ensures guarded == M.Guarded(old(toolStatus), draft)
      ensures Model() == old(Model()).(toolStatus := M.Noted(old(toolStatus), draft))
    {
      if !M.IsToolFrame(draft.payload) { return draft; }
      var key, status := M.ToolKey(draft), draft.payload.status.value;
      var merged := if key in toolStatus then M.MergeToolStatus(toolStatus[key], status) else status;
      toolStatus := toolStatus[key := merged];
      if merged == status { return draft; }
      guarded := draft.(payload := draft.payload.(status := Some(merged)));
    }

    // ------------------------------------------------------------ public methods

    method Push(draft: M.Draft, now: int)
      modifies this
      ensures Model() == M.Push(cfg, old(Model()), draft, now)
    {
      hide M.PushChunk, M.FlushTurn, M.Enqueue, M.Noted, M.Guarded;
      if draft.payload.Chunk? {
        PushChunk(draft, now);
        return;
      }
      FlushTurn(draft.turnId, now);
      var guarded := GuardToolStatus(draft);
      pushed := pushed + [guarded];
      Enqueue(guarded, now);
    }

    /** Answers whether the caller has to wait for the queue to drain. */
    method Flush(now: int) returns (waits: bool)
      modifies this
      ensures Model() == M.Flush(cfg, old(Model()), now)
      ensures waits <==> queue != []
    {
      hide M.ReleaseAll, M.Pump;
      ReleaseAll(M.Keys(pending), now);
      Pump(now);
      waits := queue != [];
      if waits { waiters := waiters + 1; }
    }

    method Stop(now: int)
      modifies this
      ensures Model() == M.Stop(cfg, old(Model()), now)
    {
      hide M.ReleaseAll, M.Pump;
      ReleaseAll(M.Keys(pending), now);
      Pump(now);
      armed, stopped := false, true;
    }

    method ForgetTurn(turnId: Option<string>, now: int)
      modifies this
      ensures Model() == M.ForgetTurn(cfg, old(Model()), turnId, now)
    {
      FlushTurn(turnId, now);
      hide M.FlushTurn;
      toolStatus := map k | k in toolStatus && k.0 != turnId :: toolStatus[k];
    }

    method PumpTimer(now: int)
      modifies this
      ensures Model() == M.PumpTimer(cfg, old(Model()), now)
    {
      hide M.Pump;
      armed := false;
      Pump(now);
    }
  }

  lemma NothingOffered(cfg: M.Config, b: M.Buffer, draft: M.Draft, payloads: seq<Payload>)
    ensures M.Offered(cfg, b, draft, payloads[..0]) == b
    ensures payloads[..|payloads|] == payloads
  {
  }

  lemma OfferedNext(cfg: M.Config, b: M.Buffer, draft: M.Draft, payloads: seq<Payload>, i: nat)
    requires i < |payloads|
    ensures M.Offered(cfg, b, draft, payloads[..i + 1])
      == M.OfferedOne(cfg, M.Offered(cfg, b, draft, payloads[..i]), draft, payloads[i])
  {
    assert payloads[..i + 1][..i] == payloads[..i];
  }
}
