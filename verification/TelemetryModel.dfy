/** The telemetry buffer: coalescing, splitting, shedding and pacing, as functions on its state. */
module TelemetryModel {
  import opened Basics
  import opened MessageSplit
  import opened FrameSplit

  const RATE_WINDOW_MS := 1_000

  /** `route` is everything else a frame says about where it came from. */
  datatype Draft = Draft(kind: string, turnId: Option<string>, route: string, payload: Payload)

  datatype Key = Key(turnId: Option<string>, kind: ChunkKind, messageId: Text)

  /** Text being coalesced; its timer runs for as long as it is open. */
  datatype Open = Open(key: Key, first: Draft, text: Text)

  /** A frame that went out, when, and in which rate window. */
  datatype Emission = Emission(draft: Draft, at: int, window: int)

  datatype Config = Config(rate: nat, budget: nat, limit: nat)

  /** `pending` is in insertion order. From `pushed` on, histories: the drafts pushed (as
      guarded), the drafts handed to the queue, the frames the queue took, those it shed,
      those it reported shed, the reports, the clock, and whether it was stopped. */
  datatype Buffer = Buffer(
    pending: seq<Open>, queue: seq<Draft>, toolStatus: map<(Option<string>, string), ToolStatus>,
    windowStart: Option<int>, windowCount: nat, armed: bool,
    dropped: nat, dropRoute: Option<Draft>, waiters: nat, emitted: seq<Emission>,
    pushed: seq<Draft>, released: seq<Draft>, taken: seq<Draft>,
    shed: nat, reported: nat, reports: nat, clock: int, stopped: bool)

  function Empty(clock: int): Buffer {
    Buffer([], [], map[], None, 0, false, 0, None, 0, [], [], [], [], 0, 0, 0, clock, false)
  }

  // ------------------------------------------------------------------ the pump

  function Refreshed(b: Buffer, now: int): Buffer {
    if b.windowStart.None? || now - b.windowStart.value >= RATE_WINDOW_MS
    then b.(windowStart := Some(now), windowCount := 0, clock := now) else b.(clock := now)
  }

  /** Sends the head of the queue. */
  function Sent(b: Buffer, now: int): Buffer
    requires b.queue != [] && b.windowStart.Some?
  {
    b.(queue := b.queue[1..], windowCount := b.windowCount + 1,
       emitted := b.emitted + [Emission(b.queue[0], now, b.windowStart.value)])
  }

  function Drained(cfg: Config, b: Buffer, now: int): (d: Buffer)
    requires b.windowStart.Some?
    ensures d == b.(queue := d.queue, windowCount := d.windowCount, emitted := d.emitted)
    decreases |b.queue|
  {
    if b.queue == [] || b.windowCount >= cfg.rate then b else Drained(cfg, Sent(b, now), now)
  }

  function OverflowFrame(cfg: Config, route: Draft, dropped: nat): Draft {
    Draft("acp_read", route.turnId, route.route, Overflow(dropped, cfg.limit))
  }

  /** Turns the count of shed frames into one diagnostic at the back of the queue. */
  function Reported(cfg: Config, b: Buffer): Buffer {
    var cleared := b.(dropped := 0, dropRoute := None, reported := b.reported + b.dropped);
    if b.dropRoute.None? then cleared else
    var frame := OverflowFrame(cfg, b.dropRoute.value, b.dropped);
    cleared.(queue := b.queue + [frame], taken := b.taken + [frame], reports := b.reports + 1)
  }

  function Pump(cfg: Config, b: Buffer, now: int): Buffer
    decreases b.dropped
  {
    var d := Drained(cfg, Refreshed(b, now), now);
    if d.queue == [] && d.dropped > 0 then Pump(cfg, Reported(cfg, d), now)
    else if d.queue != [] then d.(armed := true)
    else d.(waiters := 0)
  }

  // ----------------------------------------------------------------- the queue

  /** Queues one frame if it still fits, or counts it as shed. */
  function OfferedOne(cfg: Config, b: Buffer, draft: Draft, payload: Payload): Buffer {
    if |b.queue| >= cfg.limit then b.(dropped := b.dropped + 1, dropRoute := Some(draft), shed := b.shed + 1)
    else
      var frame := draft.(payload := payload);
      b.(queue := b.queue + [frame], taken := b.taken + [frame])
  }

  function Offered(cfg: Config, b: Buffer, draft: Draft, payloads: seq<Payload>): Buffer {
    if payloads == [] then b else
    OfferedOne(cfg, Offered(cfg, b, draft, payloads[..|payloads| - 1]), draft, payloads[|payloads| - 1])
  }

  function Enqueue(cfg: Config, b: Buffer, draft: Draft, now: int): Buffer {
    Pump(cfg, Offered(cfg, b.(released := b.released + [draft]), draft, SplitPayload(draft.payload, cfg.budget)), now)
  }

  // ---------------------------------------------------------------- coalescing

  /** The position of the open text with this key, or the number of open texts. */
  function Find(pending: seq<Open>, key: Key): (i: nat)
    ensures i <= |pending|
    ensures i < |pending| ==> pending[i].key == key
    ensures forall j :: 0 <= j < i ==> pending[j].key != key
  {
    if pending == [] || pending[0].key == key then 0 else 1 + Find(pending[1..], key)
  }

  function OpenFrame(o: Open): Draft {
    o.first.(payload := Chunk(o.key.kind, o.key.messageId, o.text, 0))
  }

  function ReleaseChunk(cfg: Config, b: Buffer, key: Key, now: int): Buffer {
    var i := Find(b.pending, key);
    if i == |b.pending| then b else
    Enqueue(cfg, b.(pending := b.pending[..i] + b.pending[i + 1..]), OpenFrame(b.pending[i]), now)
  }

  function ReleaseAll(cfg: Config, b: Buffer, keys: seq<Key>, now: int): Buffer
    decreases |keys|
  {
    if keys == [] then b else ReleaseAll(cfg, ReleaseChunk(cfg, b, keys[0], now), keys[1..], now)
  }

  function Keys(pending: seq<Open>): seq<Key> {
    if pending == [] then [] else [pending[0].key] + Keys(pending[1..])
  }

  /** The open texts of a turn, apart from `but`. */
  function KeysOf(pending: seq<Open>, turnId: Option<string>, but: Option<Key>): seq<Key> {
    if pending == [] then [] else
    (if pending[0].first.turnId == turnId && Some(pending[0].key) != but then [pending[0].key] else [])
    + KeysOf(pending[1..], turnId, but)
  }

  function FlushTurn(cfg: Config, b: Buffer, turnId: Option<string>, now: int): Buffer {
    ReleaseAll(cfg, b, KeysOf(b.pending, turnId, None), now)
  }

  function ChunkKey(draft: Draft): Key
    requires draft.payload.Chunk?
  {
    Key(draft.turnId, draft.payload.kind, draft.payload.messageId)
  }

  /** Adds to the open text of the message, or opens it. */
  function Extended(pending: seq<Open>, draft: Draft): seq<Open>
    requires draft.payload.Chunk?
  {
    var i := Find(pending, ChunkKey(draft));
    if i < |pending| then pending[i := pending[i].(text := pending[i].text + draft.payload.text)]
    else pending + [Open(ChunkKey(draft), draft, draft.payload.text)]
  }

  function PushChunk(cfg: Config, b: Buffer, draft: Draft, now: int): Buffer
    requires draft.payload.Chunk?
  {
    var others := ReleaseAll(cfg, b, KeysOf(b.pending, draft.turnId, Some(ChunkKey(draft))), now);
    others.(pending := Extended(others.pending, draft), pushed := others.pushed + [draft], clock := now)
  }

  // -------------------------------------------------------------- tool statuses

  predicate IsTerminal(s: ToolStatus) { s == Completed || s == Failed }

  /** Terminal wins over anything transient. */
  function MergeToolStatus(existing: ToolStatus, next: ToolStatus): ToolStatus {
    if IsTerminal(existing) && !IsTerminal(next) then existing else next
  }

  /** The call a frame reports on; a frame without an id or a known status reports on none. */
  predicate IsToolFrame(p: Payload) { p.Tool? && p.id != "" && p.status.Some? }

  function ToolKey(draft: Draft): (Option<string>, string)
    requires draft.payload.Tool?
  {
    (draft.turnId, draft.payload.id)
  }

  function MergedStatus(statuses: map<(Option<string>, string), ToolStatus>, draft: Draft): ToolStatus
    requires IsToolFrame(draft.payload)
  {
    var key, next := ToolKey(draft), draft.payload.status.value;
    if key in statuses then MergeToolStatus(statuses[key], next) else next
  }

  function Guarded(statuses: map<(Option<string>, string), ToolStatus>, draft: Draft): Draft {
    if !IsToolFrame(draft.payload) then draft else
    draft.(payload := draft.payload.(status := Some(MergedStatus(statuses, draft))))
  }

  function Noted(statuses: map<(Option<string>, string), ToolStatus>, draft: Draft)
    : map<(Option<string>, string), ToolStatus>
  {
    if !IsToolFrame(draft.payload) then statuses else statuses[ToolKey(draft) := MergedStatus(statuses, draft)]
  }

  // ------------------------------------------------------------ public methods

  function Push(cfg: Config, b: Buffer, draft: Draft, now: int): Buffer {
    if draft.payload.Chunk? then PushChunk(cfg, b, draft, now) else
    var flushed := FlushTurn(cfg, b, draft.turnId, now);
    var guarded := Guarded(flushed.toolStatus, draft);
    Enqueue(cfg, flushed.(toolStatus := Noted(flushed.toolStatus, draft), pushed := flushed.pushed + [guarded]),
      guarded, now)
  }

  /** A caller of `flush` waits unless the queue is already empty. */
  function Flush(cfg: Config, b: Buffer, now: int): Buffer {
    var p := Pump(cfg, ReleaseAll(cfg, b, Keys(b.pending), now), now);
    if p.queue == [] then p else p.(waiters := p.waiters + 1)
  }

  function Stop(cfg: Config, b: Buffer, now: int): Buffer {
    Pump(cfg, ReleaseAll(cfg, b, Keys(b.pending), now), now).(armed := false, stopped := true)
  }

  function ForgetTurn(cfg: Config, b: Buffer, turnId: Option<string>, now: int): Buffer {
    var f := FlushTurn(cfg, b, turnId, now);
    f.(toolStatus := map k | k in f.toolStatus && k.0 != turnId :: f.toolStatus[k])
  }

  function PumpTimer(cfg: Config, b: Buffer, now: int): Buffer {
    Pump(cfg, b.(armed := false), now)
  }

  // --------------------------------------------------------------------- runs

  datatype Action =
    | Pushing(draft: Draft) | CoalesceTimer(key: Key) | PumpTimerFires
    | Flushing | Stopping | Forgetting(turnId: Option<string>)

  datatype Step = Step(action: Action, now: int)

  /** Timers fire only while they run, the clock never goes back, and overflow reports come
      from the buffer alone. */
  ghost predicate Possible(b: Buffer, s: Step) {
    && s.now >= b.clock
    && (s.action.Pushing? ==> !s.action.draft.payload.Overflow?)
    && (s.action.CoalesceTimer? ==> Find(b.pending, s.action.key) < |b.pending|)
    && (s.action.PumpTimerFires? ==> b.armed)
  }

  function Next(cfg: Config, b: Buffer, s: Step): Buffer {
    match s.action
    case Pushing(draft) => Push(cfg, b, draft, s.now)
    case CoalesceTimer(key) => ReleaseChunk(cfg, b, key, s.now)
    case PumpTimerFires => PumpTimer(cfg, b, s.now)
    case Flushing => Flush(cfg, b, s.now)
    case Stopping => Stop(cfg, b, s.now)
    case Forgetting(turnId) => ForgetTurn(cfg, b, turnId, s.now)
  }

  ghost predicate Follows(cfg: Config, trace: seq<Buffer>, steps: seq<Step>) {
    && |trace| == |steps| + 1
    && forall i :: 0 <= i < |steps| ==> Possible(trace[i], steps[i]) && trace[i + 1] == Next(cfg, trace[i], steps[i])
  }
}
