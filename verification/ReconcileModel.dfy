/** One deploy call converging on at most one live instance, against a world that may let the
    process die, come online or log a fatal error at any moment. */
module ReconcileModel {
  import opened Basics

  const POLL_INTERVAL_MS := 500
  const TERMINATION_GRACE_MS := 60_000

  /** The instance record; a claim that was never completed has no pid. */
  datatype InstanceRecord = InstanceRecord(generation: string, intent: string, pid: Option<nat>)

  /** What the world does while the call takes its next step: time passes, the process answers
      a probe or does not, the agent may log that it is online, a fatal line shows or not, and
      the step itself may fail. `token` and `pid` are fresh names. */
  datatype Tick = Tick(elapsed: nat, alive: bool, online: bool, fatal: bool, ok: bool, token: string, pid: nat)

  /** Every future of the world. */
  type Oracle = nat -> Tick

  datatype Act =
    | Looked(found: Option<InstanceRecord>)
    | Probed(alive: bool)
    | ReadLog(online: bool, fatal: bool)
    | Slept
    | Claimed(generation: string)
    | Provisioned
    | LogRotated
    | Spawned
    | Wrote(pid: nat)
    | Broke
    | Cleared
    | Signalled(kill: bool, generation: string, sentAt: int)

  /** `online` is whether the current log says so: it stays until the log is rotated. `log` is
      the history of what the call did and saw. */
  datatype World = World(step: nat, clock: int, record: Option<InstanceRecord>, online: bool, log: seq<Act>)

  // --------------------------------------------------------- single operations

  function Tock(o: Oracle, w: World): (r: World)
    ensures r.clock >= w.clock && r.record == w.record && (w.online ==> r.online) && r.log == w.log
  {
    w.(step := w.step + 1, clock := w.clock + o(w.step).elapsed, online := w.online || o(w.step).online)
  }

  function Noted(o: Oracle, w: World, act: Act): (r: World)
    ensures r.clock >= w.clock && r.record == w.record && (w.online ==> r.online) && r.log == w.log + [act]
  {
    Tock(o, w).(log := w.log + [act])
  }

  function Look(o: Oracle, w: World): World { Noted(o, w, Looked(w.record)) }

  /** A record without a pid has no process. */
  function IsAlive(o: Oracle, w: World, r: InstanceRecord): bool { r.pid.Some? && o(w.step).alive }

  function Probe(o: Oracle, w: World, r: InstanceRecord): World { Noted(o, w, Probed(IsAlive(o, w, r))) }

  function SaysOnline(o: Oracle, w: World): bool { Tock(o, w).online }

  function SaysFatal(o: Oracle, w: World): bool { o(w.step).fatal }

  function Read(o: Oracle, w: World): World { Noted(o, w, ReadLog(SaysOnline(o, w), SaysFatal(o, w))) }

  function Sleep(o: Oracle, w: World): (r: World)
    ensures r.clock >= w.clock + POLL_INTERVAL_MS && r.record == w.record && (w.online ==> r.online)
    ensures r.log == w.log + [Slept]
  {
    var n := Noted(o, w, Slept);
    n.(clock := n.clock + POLL_INTERVAL_MS)
  }

  /** The record goes and the log is rotated. */
  function Clear(o: Oracle, w: World): World { Noted(o, w, Cleared).(record := None, online := false) }

  function Signal(o: Oracle, w: World, kill: bool, generation: string): World {
    Noted(o, w, Signalled(kill, generation, w.clock))
  }

  // ---------------------------------------------------------------- terminate

  /** Asks until the process is gone or the time is up; answers whether it is gone. */
  function Poll(o: Oracle, w: World, r: InstanceRecord, until: int): (World, bool)
    decreases if until > w.clock then until - w.clock else 0
  {
    var now := Tock(o, w);
    if now.clock >= until then (now, false)
    else if !IsAlive(o, now, r) then (Probe(o, now, r), true)
    else Poll(o, Sleep(o, Probe(o, now, r)), r, until)
  }

  lemma {:induction false} PollKeeps(o: Oracle, w: World, r: InstanceRecord, until: int)
    ensures var p := Poll(o, w, r, until).0;
      p.record == w.record && (w.online ==> p.online) && p.clock >= w.clock && w.log <= p.log
    decreases if until > w.clock then until - w.clock else 0
  {
    var now := Tock(o, w);
    if now.clock < until && IsAlive(o, now, r) { PollKeeps(o, Sleep(o, Probe(o, now, r)), r, until); }
  }

  datatype Verdict = Declined | Gone | Stuck

  function Earlier(a: int, b: int): int { if a < b then a else b }

  /** From the first signal on. */
  function Killing(o: Oracle, w: World, r: InstanceRecord, deadline: int): (World, Verdict) {
    var termed := Tock(o, Signal(o, w, false, r.generation));
    var (graced, gone) := Poll(o, termed, r, Earlier(termed.clock + TERMINATION_GRACE_MS, deadline));
    if gone then (graced, Gone) else
    var (end, dead) := Poll(o, Signal(o, graced, true, r.generation), r, deadline);
    (end, if dead then Gone else Stuck)
  }

  /** Declines when the instance came online or is no longer the one that was judged. */
  function Terminate(o: Oracle, w: World, r: InstanceRecord, deadline: int): (World, Verdict) {
    if r.pid.None? then (w, Gone) else
    var read := Read(o, w);
    if SaysOnline(o, w) then (read, Declined) else
    var looked := Look(o, read);
    if read.record.None? || read.record.value.generation != r.generation then (looked, Declined)
    else Killing(o, looked, r, deadline)
  }

  // ------------------------------------------------------------------- create

  datatype Creation = Created | Lost | Failed

  /** Claims the name, provisions, spawns and records the pid. A half-made attempt is cleared. */
  function Create(o: Oracle, w: World, intent: string): (World, Creation) {
    if w.record.Some? then (Tock(o, w), Lost) else
    var claim := InstanceRecord(o(w.step).token, intent, None);
    var claimed := Noted(o, w, Claimed(claim.generation)).(record := Some(claim));
    if !o(claimed.step).ok then (Clear(o, Noted(o, claimed, Broke)), Failed) else
    Launched(o, Noted(o, Noted(o, claimed, Provisioned), LogRotated).(online := false), claim)
  }

  /** From the spawn on. */
  function Launched(o: Oracle, w: World, claim: InstanceRecord): (World, Creation) {
    if !o(w.step).ok then (Clear(o, Noted(o, w, Broke)), Failed) else
    var spawned := Noted(o, w, Spawned);
    if !o(spawned.step).ok then (Clear(o, Noted(o, spawned, Broke)), Failed) else
    var pid := o(spawned.step).pid;
    (Noted(o, spawned, Wrote(pid)).(record := Some(claim.(pid := Some(pid)))), Created)
  }

  // ----------------------------------------------------------------- converge

  datatype Outcome = Running(noop: bool) | Vanished | Exited | FailedToStart | Refused | Unconfirmed | CreateFailed

  lemma TerminateKeeps(o: Oracle, w: World, r: InstanceRecord, deadline: int)
    requires w.record == Some(r)
    ensures var (t, v) := Terminate(o, w, r, deadline);
      && t.record == w.record && t.clock >= w.clock && (w.online ==> t.online) && w.log <= t.log
      && (v == Declined ==> t.online)
  {
    if r.pid.Some? && !SaysOnline(o, w) {
      var termed := Tock(o, Signal(o, Look(o, Read(o, w)), false, r.generation));
      var until := Earlier(termed.clock + TERMINATION_GRACE_MS, deadline);
      PollKeeps(o, termed, r, until);
      PollKeeps(o, Signal(o, Poll(o, termed, r, until).0, true, r.generation), r, deadline);
    }
  }

  /** The call's loop. Every turn of it ends the call, uses up the one attempt, removes the
      record, finds the agent newly online, or lets half a second of the deadline pass. */
  function Converge(o: Oracle, w: World, attempted: bool, intent: string, deadline: int): (World, Outcome)
    decreases !attempted, w.record.Some?, !w.online, if deadline > w.clock then deadline - w.clock else 0, 1
  {
    var looked := Look(o, w);
    if looked.record.Some? then Judge(o, looked, looked.record.value, attempted, intent, deadline)
    else if attempted then (looked, Vanished)
    else
      var (c, made) := Create(o, looked, intent);
      if made == Failed then (c, CreateFailed) else Converge(o, c, true, intent, deadline)
  }

  /** One turn of the loop with a record at hand. */
  function Judge(o: Oracle, w: World, r: InstanceRecord, attempted: bool, intent: string, deadline: int)
    : (World, Outcome)
    requires w.record == Some(r)
    decreases !attempted, true, !w.online, if deadline > w.clock then deadline - w.clock else 0, 0
  {
    var probed := Probe(o, w, r);
    var read := Read(o, probed);
    if IsAlive(o, w, r) && SaysOnline(o, probed) then (read, Running(!attempted))
    else if !IsAlive(o, w, r) then
      if attempted then (read, Exited) else Converge(o, Clear(o, read), attempted, intent, deadline)
    else if SaysFatal(o, probed) && attempted then (read, FailedToStart)
    else if SaysFatal(o, probed) || (r.intent != intent && !attempted) then
      TerminateKeeps(o, read, r, deadline);
      var (t, v) := Terminate(o, read, r, deadline);
      match v
      case Declined => Converge(o, t, attempted, intent, deadline)
      case Gone => Converge(o, Clear(o, t), attempted, intent, deadline)
      case Stuck => (t, Refused)
    else
      var now := Tock(o, read);
      if now.clock >= deadline then (now, Unconfirmed)
      else Converge(o, Sleep(o, now), attempted, intent, deadline)
  }

  function StartInstance(o: Oracle, w: World, intent: string, timeoutMs: nat): (World, Outcome) {
    var now := Tock(o, w);
    Converge(o, now, false, intent, now.clock + timeoutMs)
  }
}
