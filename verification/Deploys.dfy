/** The deploy loop as it runs against one host. */
module Deploys {
  import opened Basics
  import M = ReconcileModel

  /** The machine: files, processes and the clock. `future` decides everything the call does
      not, one entry per operation. */
  class Host {
    const future: M.Oracle
    var step: nat
    var clock: int
    var record: Option<M.InstanceRecord>
    var online: bool
    ghost var log: seq<M.Act>

    ghost function Model(): M.World reads this { M.World(step, clock, record, online, log) }

    constructor (future: M.Oracle, clock: int, record: Option<M.InstanceRecord>, online: bool)
      ensures this.future == future && Model() == M.World(0, clock, record, online, [])
    {
      this.future, this.clock, this.record, this.online := future, clock, record, online;
      step, log := 0, [];
    }

    /** The clock, after whatever happened meanwhile. */
    method Now() returns (now: int)
      modifies this
      ensures Model() == M.Tock(future, old(Model())) && now == clock
    {
      clock := clock + future(step).elapsed;
      online := online || future(step).online;
      step := step + 1;
      now := clock;
    }

    method Did(ghost act: M.Act)
      modifies this
      ensures Model() == M.Noted(future, old(Model()), act)
    {
      var now := Now();
      log := log + [act];
    }

    method ReadInstance() returns (found: Option<M.InstanceRecord>)
      modifies this
      ensures Model() == M.Look(future, old(Model())) && found == record
    {
      found := record;
      Did(M.Looked(record));
    }

    method InstanceAlive(r: M.InstanceRecord) returns (alive: bool)
      modifies this
      ensures Model() == M.Probe(future, old(Model()), r) && alive == M.IsAlive(future, old(Model()), r)
    {
      alive := r.pid.Some? && future(step).alive;
      Did(M.Probed(alive));
    }

    method ReadLogSignals() returns (isOnline: bool, fatal: bool)
      modifies this
      ensures Model() == M.Read(future, old(Model()))
      ensures isOnline == M.SaysOnline(future, old(Model())) && fatal == M.SaysFatal(future, old(Model()))
    {
      isOnline, fatal := online || future(step).online, future(step).fatal;
      Did(M.ReadLog(isOnline, fatal));
    }

    method Sleep()
      modifies this
      ensures Model() == M.Sleep(future, old(Model()))
    {
      Did(M.Slept);
      clock := clock + M.POLL_INTERVAL_MS;
    }

    method RemoveInstance()
      modifies this
      ensures Model() == M.Clear(future, old(Model()))
    {
      Did(M.Cleared);
      record, online := None, false;
    }

    method Signal(kill: bool, generation: string)
      modifies this
      ensures Model() == M.Signal(future, old(Model()), kill, generation)
    {
      Did(M.Signalled(kill, generation, clock));
    }

    /** Refused when the name is taken. */
    method ClaimInstance(intent: string) returns (claim: Option<M.InstanceRecord>)
      modifies this
      ensures old(record).Some? ==> claim.None? && Model() == M.Tock(future, old(Model()))
      ensures old(record).None? ==>
        && claim == Some(M.InstanceRecord(future(old(step)).token, intent, None))
        && Model() == M.Noted(future, old(Model()), M.Claimed(claim.value.generation)).(record := claim)
    {
      if record.Some? {
        var now := Now();
        return None;
      }
      claim := Some(M.InstanceRecord(future(step).token, intent, None));
      Did(M.Claimed(claim.value.generation));
      record := claim;
    }

    method RotateLog()
      modifies this
      ensures Model() == M.Noted(future, old(Model()), M.LogRotated).(online := false)
    {
      Did(M.LogRotated);
      online := false;
    }

    method WriteInstance(r: M.InstanceRecord, pid: nat)
      modifies this
      ensures Model() == M.Noted(future, old(Model()), M.Wrote(pid)).(record := Some(r.(pid := Some(pid))))
    {
      Did(M.Wrote(pid));
      record := Some(r.(pid := Some(pid)));
    }
  }

  method Poll(host: Host, r: M.InstanceRecord, until: int) returns (gone: bool)
    modifies host
    ensures (host.Model(), gone) == M.Poll(host.future, old(host.Model()), r, until)
  {
    ghost var target := M.Poll(host.future, host.Model(), r, until);
    while true
      invariant M.Poll(host.future, host.Model(), r, until) == target
      decreases if until > host.clock then until - host.clock else 0
    {
      var now := host.Now();
      if now >= until { return false; }
      var alive := host.InstanceAlive(r);
      if !alive { return true; }
      host.Sleep();
    }
  }

  method Terminate(host: Host, r: M.InstanceRecord, deadline: int) returns (verdict: M.Verdict)
    modifies host
    ensures (host.Model(), verdict) == M.Terminate(host.future, old(host.Model()), r, deadline)
  {
    if r.pid.None? { return M.Gone; }
    var isOnline, _ := host.ReadLogSignals();
    if isOnline { return M.Declined; }
    var current := host.ReadInstance();
    if current.None? || current.value.generation != r.generation { return M.Declined; }
    verdict := Kill(host, r, deadline);
  }

  method Kill(host: Host, r: M.InstanceRecord, deadline: int) returns (verdict: M.Verdict)
    modifies host
    ensures (host.Model(), verdict) == M.Killing(host.future, old(host.Model()), r, deadline)
  {
    hide M.Poll;
    host.Signal(false, r.generation);
    var now := host.Now();
    var gone := Poll(host, r, M.Earlier(now + M.TERMINATION_GRACE_MS, deadline));
    if gone { return M.Gone; }
    host.Signal(true, r.generation);
    gone := Poll(host, r, deadline);
    verdict := if gone then M.Gone else M.Stuck;
  }

  method Create(host: Host, intent: string) returns (made: M.Creation)
    modifies host
    ensures (host.Model(), made) == M.Create(host.future, old(host.Model()), intent)
  {
    hide M.Noted, M.Clear;
    var claim := host.ClaimInstance(intent);
    if claim.None? { return M.Lost; }
    if !host.future(host.step).ok {
      GiveUp(host);
      return M.Failed;
    }
    host.Did(M.Provisioned);
    host.RotateLog();
    made := Launch(host, claim.value);
  }

  method GiveUp(host: Host)
    modifies host
    ensures host.Model() == M.Clear(host.future, M.Noted(host.future, old(host.Model()), M.Broke))
  {
    host.Did(M.Broke);
    host.RemoveInstance();
  }

  /** Spawns the process and records its pid. */
  method Launch(host: Host, claim: M.InstanceRecord) returns (made: M.Creation)
    modifies host
    ensures (host.Model(), made) == M.Launched(host.future, old(host.Model()), claim)
  {
    hide M.Noted, M.Clear;
    if !host.future(host.step).ok {
      GiveUp(host);
      return M.Failed;
    }
    host.Did(M.Spawned);
    if !host.future(host.step).ok {
      GiveUp(host);
      return M.Failed;
    }
    host.WriteInstance(claim, host.future(host.step).pid);
    made := M.Created;
  }

  /** One turn of the loop with a record at hand: an outcome, or nothing for another turn. */
  method Judge(host: Host, r: M.InstanceRecord, attempted: bool, intent: string, deadline: int)
    returns (outcome: Option<M.Outcome>)
    requires host.record == Some(r)
    modifies host
    ensures var before := M.Judge(host.future, old(host.Model()), r, attempted, intent, deadline);
      if outcome.Some? then before == (host.Model(), outcome.value)
      else before == M.Converge(host.future, host.Model(), attempted, intent, deadline)
    ensures outcome.None? ==>
      || host.record.None?
      || (host.record == old(host.record) && !old(host.online) && host.online)
      || (host.record == old(host.record) && (old(host.online) ==> host.online)
            && old(host.clock) < host.clock && old(host.clock) < deadline)
  {
    hide M.Converge, M.Terminate;
    var alive := host.InstanceAlive(r);
    var isOnline, fatal := host.ReadLogSignals();
    if alive && isOnline { return Some(M.Running(!attempted)); }
    if !alive {
      if attempted { return Some(M.Exited); }
      host.RemoveInstance();
      return None;
    }
    if fatal && attempted { return Some(M.FailedToStart); }
    if fatal || (r.intent != intent && !attempted) {
      outcome := Replace(host, r, deadline);
      return;
    }
    var now := host.Now();
    if now >= deadline { return Some(M.Unconfirmed); }
    host.Sleep();
    outcome := None;
  }

  /** Terminates what was found and clears it away, unless it turns out to be coming up. */
  method Replace(host: Host, r: M.InstanceRecord, deadline: int) returns (outcome: Option<M.Outcome>)
    requires host.record == Some(r)
    modifies host
    ensures var (t, v) := M.Terminate(host.future, old(host.Model()), r, deadline);
      && (v == M.Stuck ==> outcome == Some(M.Refused) && host.Model() == t)
      && (v == M.Declined ==> outcome.None? && host.Model() == t && host.record == Some(r) && host.online)
      && (v == M.Gone ==> outcome.None? && host.Model() == M.Clear(host.future, t))
  {
    M.TerminateKeeps(host.future, host.Model(), r, deadline);
    hide M.Terminate;
    var verdict := Terminate(host, r, deadline);
    if verdict == M.Stuck { return Some(M.Refused); }
    if verdict == M.Gone { host.RemoveInstance(); }
    outcome := None;
  }

  /** One turn of the loop: an outcome, or the world and the attempt for another turn. */
  method Turn(host: Host, attempted: bool, intent: string, deadline: int)
    returns (outcome: Option<M.Outcome>, tried: bool)
    modifies host
    ensures var before := M.Converge(host.future, old(host.Model()), attempted, intent, deadline);
      if outcome.Some? then before == (host.Model(), outcome.value)
      else before == M.Converge(host.future, host.Model(), tried, intent, deadline)
    ensures outcome.None? ==>
      || (!attempted && tried)
      || (attempted == tried && old(host.record).Some? && host.record.None?)
      || (attempted == tried && old(host.record).Some? && host.record.Some? && !old(host.online) && host.online)
      || (attempted == tried && old(host.record).Some? && host.record.Some? && (old(host.online) ==> host.online)
            && old(host.clock) < host.clock && old(host.clock) < deadline)
  {
    hide M.Judge, M.Create;
    var record := host.ReadInstance();
    if record.Some? {
      outcome := Judge(host, record.value, attempted, intent, deadline);
      tried := attempted;
      return;
    }
    if attempted { return Some(M.Vanished), attempted; }
    var made := Create(host, intent);
    outcome, tried := if made == M.Failed then Some(M.CreateFailed) else None, true;
  }

  method StartInstance(host: Host, intent: string, timeoutMs: nat) returns (outcome: M.Outcome)
    modifies host
    ensures (host.Model(), outcome) == M.StartInstance(host.future, old(host.Model()), intent, timeoutMs)
  {
    var now := host.Now();
    var deadline := now + timeoutMs;
    var attempted := false;
    ghost var target := M.Converge(host.future, host.Model(), false, intent, deadline);
    hide M.Converge;
    while true
      invariant M.Converge(host.future, host.Model(), attempted, intent, deadline) == target
      decreases !attempted, host.record.Some?, !host.online, if deadline > host.clock then deadline - host.clock else 0
    {
      var end: Option<M.Outcome>;
      end, attempted := Turn(host, attempted, intent, deadline);
      if end.Some? { return end.value; }
    }
  }
}
