/** What one deploy call can do to the world, whatever the world does to it. */
module ReconcileProofs {
  import opened Basics
  import opened ReconcileModel

  predicate Mutates(a: Act) {
    a.Claimed? || a.Provisioned? || a.LogRotated? || a.Spawned? || a.Wrote? || a.Cleared? || a.Signalled?
  }

  ghost predicate Quiet(log: seq<Act>) { forall i :: 0 <= i < |log| ==> !Mutates(log[i]) }

  ghost predicate NoCreate(log: seq<Act>) {
    forall i :: 0 <= i < |log| ==> !log[i].Spawned? && !log[i].Wrote?
  }

  ghost predicate HasCreated(log: seq<Act>) { exists i :: 0 <= i < |log| && log[i].Wrote? }

  /** At most one process is started. */
  ghost predicate OneSpawn(log: seq<Act>) {
    forall i, j :: 0 <= i < j < |log| ==> !(log[i].Spawned? && log[j].Spawned?)
  }

  /** A termination signal comes straight after reading a log that is not online and a record
      of the generation it is sent to. */
  ghost predicate Fenced(log: seq<Act>) {
    forall i :: 0 <= i < |log| && log[i].Signalled? && !log[i].kill ==> FencedAt(log, i)
  }

  ghost predicate FencedAt(log: seq<Act>, i: nat)
    requires i < |log| && log[i].Signalled?
  {
    && i >= 2 && log[i - 2].ReadLog? && !log[i - 2].online
    && log[i - 1].Looked? && log[i - 1].found.Some? && log[i - 1].found.value.generation == log[i].generation
  }

  /** A kill signal follows a termination signal to the same generation, a full grace period
      later or at the deadline. */
  ghost predicate KillsWait(log: seq<Act>, deadline: int) {
    forall i :: 0 <= i < |log| && log[i].Signalled? && log[i].kill ==> WaitedFor(log, i, deadline)
  }

  ghost predicate WaitedFor(log: seq<Act>, i: nat, deadline: int)
    requires i < |log| && log[i].Signalled?
  {
    exists j :: 0 <= j < i && log[j].Signalled? && !log[j].kill && log[j].generation == log[i].generation
      && Earlier(log[j].sentAt + TERMINATION_GRACE_MS, deadline) <= log[i].sentAt
  }

  /** Once this call has created its instance it changes nothing any more. */
  ghost predicate HandsOff(log: seq<Act>) {
    forall i, j :: 0 <= i < j < |log| && log[i].Wrote? ==> !Mutates(log[j])
  }

  ghost predicate Good(log: seq<Act>, deadline: int) {
    OneSpawn(log) && Fenced(log) && KillsWait(log, deadline) && HandsOff(log)
  }

  // ------------------------------------------------------------ one act at a time

  lemma ObserveKeeps(log: seq<Act>, act: Act, deadline: int)
    requires Good(log, deadline) && !Mutates(act)
    ensures Good(log + [act], deadline)
    ensures Quiet(log) ==> Quiet(log + [act])
    ensures NoCreate(log) ==> NoCreate(log + [act])
    ensures HasCreated(log) ==> HasCreated(log + [act])
  {
    var to := log + [act];
    FencesStay(log, act);
    WaitsStay(log, act, deadline);
    if HasCreated(log) {
      var i :| 0 <= i < |log| && log[i].Wrote?;
      assert to[i].Wrote?;
    }
    hide Fenced, KillsWait;
  }

  lemma FencesStay(log: seq<Act>, act: Act)
    requires Fenced(log) && (act.Signalled? ==> act.kill || FencedAt(log + [act], |log|))
    ensures Fenced(log + [act])
  {
    var to := log + [act];
    forall i | 0 <= i < |to| && to[i].Signalled? && !to[i].kill ensures FencedAt(to, i) {
      if i < |log| { assert FencedAt(log, i); }
    }
  }

  lemma WaitsStay(log: seq<Act>, act: Act, deadline: int)
    requires KillsWait(log, deadline) && (act.Signalled? ==> !act.kill || WaitedFor(log + [act], |log|, deadline))
    ensures KillsWait(log + [act], deadline)
  {
    var to := log + [act];
    forall i | 0 <= i < |to| && to[i].Signalled? && to[i].kill ensures WaitedFor(to, i, deadline) {
      if i < |log| {
        assert WaitedFor(log, i, deadline);
        var j :| 0 <= j < i && log[j].Signalled? && !log[j].kill && log[j].generation == log[i].generation
          && Earlier(log[j].sentAt + TERMINATION_GRACE_MS, deadline) <= log[i].sentAt;
        assert to[j] == log[j] && to[i] == log[i];
      }
    }
  }

  /** Before anything was created, any act that is fenced or has waited keeps the log good. */
  lemma MutateKeeps(log: seq<Act>, act: Act, deadline: int)
    requires Good(log, deadline) && NoCreate(log)
    requires act.Signalled? ==> if act.kill then WaitedFor(log + [act], |log|, deadline) else FencedAt(log + [act], |log|)
    ensures Good(log + [act], deadline)
    ensures !act.Spawned? && !act.Wrote? ==> NoCreate(log + [act])
  {
    FencesStay(log, act);
    WaitsStay(log, act, deadline);
    hide Fenced, KillsWait;
  }

  // ---------------------------------------------------------------- terminate

  /** `to` is `from` with observations behind it. */
  ghost predicate OnlyWatched(from: seq<Act>, to: seq<Act>) {
    from <= to && forall i :: |from| <= i < |to| ==> !Mutates(to[i])
  }

  lemma {:induction false} PollOnlyWatches(o: Oracle, w: World, r: InstanceRecord, until: int, deadline: int)
    requires Good(w.log, deadline) && NoCreate(w.log)
    ensures var (p, gone) := Poll(o, w, r, until);
      && OnlyWatched(w.log, p.log) && Good(p.log, deadline) && NoCreate(p.log)
      && (!gone ==> p.clock >= until)
    decreases if until > w.clock then until - w.clock else 0
  {
    var now := Tock(o, w);
    if now.clock < until {
      hide Good, NoCreate;
      var probed := Probe(o, now, r);
      ObserveKeeps(w.log, Probed(IsAlive(o, now, r)), deadline);
      if IsAlive(o, now, r) {
        ObserveKeeps(probed.log, Slept, deadline);
        PollOnlyWatches(o, Sleep(o, probed), r, until, deadline);
      }
    }
  }

  /** Both signals are as they have to be. */
  lemma KillingIsGood(o: Oracle, w: World, r: InstanceRecord, deadline: int)
    requires Good(w.log, deadline) && NoCreate(w.log)
    requires var n := |w.log|;
      && n >= 2 && w.log[n - 2].ReadLog? && !w.log[n - 2].online
      && w.log[n - 1].Looked? && w.log[n - 1].found.Some? && w.log[n - 1].found.value.generation == r.generation
    ensures var t := Killing(o, w, r, deadline).0; Good(t.log, deadline) && NoCreate(t.log)
  {
    var signalled := Signal(o, w, false, r.generation);
    assert FencedAt(signalled.log, |w.log|);
    MutateKeeps(w.log, Signalled(false, r.generation, w.clock), deadline);
    var termed := Tock(o, signalled);
    var until := Earlier(termed.clock + TERMINATION_GRACE_MS, deadline);
    PollOnlyWatches(o, termed, r, until, deadline);
    hide Good, NoCreate, Poll, WaitedFor, FencedAt;
    assert signalled.log <= Poll(o, termed, r, until).0.log;
    hide OnlyWatched;
    var (graced, gone) := Poll(o, termed, r, until);
    if !gone {
      var killed := Signal(o, graced, true, r.generation);
      KillHasWaited(w.log, signalled.log, graced.log, r.generation, w.clock, graced.clock, deadline);
      MutateKeeps(graced.log, Signalled(true, r.generation, graced.clock), deadline);
      PollOnlyWatches(o, killed, r, deadline, deadline);
    }
  }

  lemma KillHasWaited(
    from: seq<Act>, termed: seq<Act>, graced: seq<Act>, generation: string, sentAt: int, killAt: int, deadline: int)
    requires termed == from + [Signalled(false, generation, sentAt)] && termed <= graced
    requires Earlier(sentAt + TERMINATION_GRACE_MS, deadline) <= killAt
    ensures WaitedFor(graced + [Signalled(true, generation, killAt)], |graced|, deadline)
  {
    var log := graced + [Signalled(true, generation, killAt)];
    assert log[|from|] == graced[|from|] == termed[|from|];
  }

  lemma TerminateIsGood(o: Oracle, w: World, r: InstanceRecord, deadline: int)
    requires Good(w.log, deadline) && NoCreate(w.log) && w.record == Some(r)
    ensures var (t, v) := Terminate(o, w, r, deadline);
      && Good(t.log, deadline) && NoCreate(t.log)
      && (v == Declined && Quiet(w.log) ==> Quiet(t.log))
  {
    if r.pid.Some? {
      hide Good, NoCreate, Quiet, Killing;
      var read := Read(o, w);
      ObserveKeeps(w.log, ReadLog(SaysOnline(o, w), SaysFatal(o, w)), deadline);
      if !SaysOnline(o, w) {
        ObserveKeeps(read.log, Looked(read.record), deadline);
        KillingIsGood(o, Look(o, read), r, deadline);
        NeverDeclines(o, Look(o, read), r, deadline);
      }
    }
  }

  lemma NeverDeclines(o: Oracle, w: World, r: InstanceRecord, deadline: int)
    ensures Killing(o, w, r, deadline).1 != Declined
  {
  }

  // ------------------------------------------------------------------- create

  lemma FailingIsGood(o: Oracle, w: World, deadline: int)
    requires Good(w.log, deadline) && !HasCreated(w.log)
    ensures var c := Clear(o, Noted(o, w, Broke)); Good(c.log, deadline) && !HasCreated(c.log)
  {
    var b := w.log + [Broke];
    ObserveKeeps(w.log, Broke, deadline);
    FencesStay(b, Cleared);
    WaitsStay(b, Cleared, deadline);
    hide Fenced, KillsWait;
    assert forall i :: 0 <= i < |b| ==> !b[i].Wrote?;
  }

  /** Before the spawn. */
  lemma ClaimingIsGood(o: Oracle, w: World, deadline: int, token: string)
    requires Good(w.log, deadline) && NoCreate(w.log)
    ensures Good(w.log + [Claimed(token)], deadline) && NoCreate(w.log + [Claimed(token)])
    ensures Good(w.log + [Claimed(token)] + [Provisioned] + [LogRotated], deadline)
    ensures NoCreate(w.log + [Claimed(token)] + [Provisioned] + [LogRotated])
  {
    MutateKeeps(w.log, Claimed(token), deadline);
    hide Good, NoCreate;
    MutateKeeps(w.log + [Claimed(token)], Provisioned, deadline);
    MutateKeeps(w.log + [Claimed(token)] + [Provisioned], LogRotated, deadline);
  }

  lemma SpawningIsGood(log: seq<Act>, pid: nat, deadline: int)
    requires Good(log, deadline) && NoCreate(log)
    ensures Good(log + [Spawned], deadline) && !HasCreated(log + [Spawned])
    ensures Good(log + [Spawned] + [Wrote(pid)], deadline) && HasCreated(log + [Spawned] + [Wrote(pid)])
  {
    MutateKeeps(log, Spawned, deadline);
    var s := log + [Spawned];
    FencesStay(s, Wrote(pid));
    WaitsStay(s, Wrote(pid), deadline);
    hide Fenced, KillsWait;
    assert (s + [Wrote(pid)])[|s|].Wrote?;
  }

  lemma NoneCreated(log: seq<Act>)
    requires NoCreate(log)
    ensures !HasCreated(log)
  {
  }

  lemma CreateIsGood(o: Oracle, w: World, intent: string, deadline: int)
    requires Good(w.log, deadline) && NoCreate(w.log) && w.record.None?
    ensures var (c, made) := Create(o, w, intent);
      && Good(c.log, deadline) && made != Lost
      && (made == Created ==> HasCreated(c.log) && c.record.Some?)
  {
    hide Good, NoCreate, HasCreated;
    var token := o(w.step).token;
    ClaimingIsGood(o, w, deadline, token);
    var claimed := Noted(o, w, Claimed(token)).(record := Some(InstanceRecord(token, intent, None)));
    NoneCreated(claimed.log);
    if !o(claimed.step).ok {
      FailingIsGood(o, claimed, deadline);
    } else {
      var rotated := Noted(o, Noted(o, claimed, Provisioned), LogRotated).(online := false);
      NoneCreated(rotated.log);
      if !o(rotated.step).ok {
        FailingIsGood(o, rotated, deadline);
      } else {
        var spawned := Noted(o, rotated, Spawned);
        SpawningIsGood(rotated.log, o(spawned.step).pid, deadline);
        if !o(spawned.step).ok { FailingIsGood(o, spawned, deadline); }
      }
    }
  }

  /** A failed create leaves no record behind; it leaves a running process without one exactly
      when it was the write of the pid that failed. */
  lemma AFailedCreateOrphansExactlyWhen(o: Oracle, w: World, intent: string)
    requires w.record.None? && Create(o, w, intent).1 == Failed
    ensures var (c, _) := Create(o, w, intent);
      && c.record.None? && w.log < c.log
      && ((exists i :: |w.log| <= i < |c.log| && c.log[i].Spawned?)
            <==> o(w.step + 1).ok && o(w.step + 3).ok && !o(w.step + 4).ok)
  {
    var (c, _) := Create(o, w, intent);
    if o(w.step + 1).ok && o(w.step + 3).ok { assert c.log[|w.log| + 3].Spawned?; }
  }

  // ----------------------------------------------------------------- converge

  /** At the top of the loop: before the attempt nothing was created, and while the record
      found at first is still there nothing was changed at all. */
  ghost predicate Head(w: World, attempted: bool, deadline: int) {
    && Good(w.log, deadline)
    && (attempted ==> HasCreated(w.log))
    && (!attempted ==> NoCreate(w.log) && (w.record.Some? ==> Quiet(w.log)))
  }

  /** How the call may end: as running only on an answered probe and an online log just read,
      without the call's doing only when it changed nothing; unconfirmed with the instance
      still recorded, either untouched or as this call made it. */
  ghost predicate EndsWell(e: World, out: Outcome, deadline: int) {
    && Good(e.log, deadline)
    && (out.Running? ==> SawItRunning(e.log))
    && (out == Running(true) ==> Quiet(e.log))
    && (out == Unconfirmed ==> e.record.Some? && e.clock >= deadline && (Quiet(e.log) || HasCreated(e.log)))
  }

  ghost predicate SawItRunning(log: seq<Act>) {
    |log| >= 2 && log[|log| - 2] == Probed(true) && log[|log| - 1].ReadLog? && log[|log| - 1].online
  }

  lemma WatchKeepsHead(o: Oracle, w: World, attempted: bool, act: Act, to: World, deadline: int)
    requires Head(w, attempted, deadline) && !Mutates(act)
    requires to.log == w.log + [act] && to.record == w.record
    ensures Head(to, attempted, deadline)
  {
    hide Good, HasCreated, NoCreate, Quiet;
    ObserveKeeps(w.log, act, deadline);
  }

  lemma ClearKeepsHead(o: Oracle, w: World, deadline: int)
    requires Good(w.log, deadline) && NoCreate(w.log)
    ensures Head(Clear(o, w), false, deadline)
  {
    hide Good, NoCreate;
    MutateKeeps(w.log, Cleared, deadline);
  }

  lemma ReadingKeepsHead(o: Oracle, w: World, attempted: bool, r: InstanceRecord, deadline: int)
    requires Head(w, attempted, deadline) && w.record == Some(r)
    ensures var read := Read(o, Probe(o, w, r));
      && Head(read, attempted, deadline)
      && (IsAlive(o, w, r) && SaysOnline(o, Probe(o, w, r)) ==> SawItRunning(read.log))
  {
    hide Head;
    var probed := Probe(o, w, r);
    WatchKeepsHead(o, w, attempted, Probed(IsAlive(o, w, r)), probed, deadline);
    WatchKeepsHead(o, probed, attempted, ReadLog(SaysOnline(o, probed), SaysFatal(o, probed)), Read(o, probed), deadline);
  }

  lemma {:induction false} ConvergeIsGood(o: Oracle, w: World, attempted: bool, intent: string, deadline: int)
    requires Head(w, attempted, deadline)
    ensures var (e, out) := Converge(o, w, attempted, intent, deadline); EndsWell(e, out, deadline)
    decreases !attempted, w.record.Some?, !w.online, if deadline > w.clock then deadline - w.clock else 0, 1
  {
    hide Good, HasCreated, NoCreate, Quiet, SawItRunning, Judge, Create;
    var looked := Look(o, w);
    WatchKeepsHead(o, w, attempted, Looked(w.record), looked, deadline);
    if looked.record.Some? {
      JudgeIsGood(o, looked, looked.record.value, attempted, intent, deadline);
    } else if !attempted {
      CreateIsGood(o, looked, intent, deadline);
      var (c, made) := Create(o, looked, intent);
      if made != Failed { ConvergeIsGood(o, c, true, intent, deadline); }
    }
  }

  lemma {:induction false} JudgeIsGood(
    o: Oracle, w: World, r: InstanceRecord, attempted: bool, intent: string, deadline: int)
    requires Head(w, attempted, deadline) && w.record == Some(r)
    ensures var (e, out) := Judge(o, w, r, attempted, intent, deadline); EndsWell(e, out, deadline)
    decreases !attempted, true, !w.online, if deadline > w.clock then deadline - w.clock else 0, 0
  {
    hide Good, HasCreated, NoCreate, Quiet, SawItRunning, Terminate, Converge;
    var probed := Probe(o, w, r);
    var read := Read(o, probed);
    ReadingKeepsHead(o, w, attempted, r, deadline);
    if !IsAlive(o, w, r) {
      if !attempted {
        ClearKeepsHead(o, read, deadline);
        ConvergeIsGood(o, Clear(o, read), attempted, intent, deadline);
      }
    } else if !SaysOnline(o, probed) && !attempted && (SaysFatal(o, probed) || r.intent != intent) {
      TerminateKeeps(o, read, r, deadline);
      TerminateIsGood(o, read, r, deadline);
      var (t, v) := Terminate(o, read, r, deadline);
      if v == Declined { ConvergeIsGood(o, t, attempted, intent, deadline); }
      if v == Gone {
        ClearKeepsHead(o, t, deadline);
        ConvergeIsGood(o, Clear(o, t), attempted, intent, deadline);
      }
    } else if !SaysOnline(o, probed) && !SaysFatal(o, probed) {
      var now := Tock(o, read);
      if now.clock < deadline {
        WatchKeepsHead(o, now, attempted, Slept, Sleep(o, now), deadline);
        ConvergeIsGood(o, Sleep(o, now), attempted, intent, deadline);
      }
    }
  }

  // ------------------------------------------------------------- main results

  /** One deploy call, in every world it may find itself in. It starts at most one process; it
      asks a process to terminate only straight after reading a log that is not online and a
      record of that generation; it kills only after the grace period or at the deadline; after
      its own create it changes nothing; it reports success only for an instance it just saw
      alive and online, and reports it as found only when it changed nothing; when it ends without
      an answer, the deadline has come and the instance is still recorded, either untouched or as
      this call made it. */
  lemma OneCallIsSafe(o: Oracle, w: World, intent: string, timeoutMs: nat)
    requires w.log == []
    ensures var (e, out) := StartInstance(o, w, intent, timeoutMs);
      EndsWell(e, out, Tock(o, w).clock + timeoutMs)
  {
    var now := Tock(o, w);
    assert Head(now, false, now.clock + timeoutMs);
    ConvergeIsGood(o, now, false, intent, now.clock + timeoutMs);
  }

  /** Every reading of the world was of a live process that logged no fatal error. */
  ghost predicate NeverAccused(o: Oracle) {
    forall k: nat :: o(k).alive && !o(k).fatal
  }

  /** However slow, an instance with this call's intent that stays alive and logs nothing fatal
      is left alone: the call either sees it come online or gives up at the deadline. */
  lemma {:induction false} ASlowStartIsOnlyWatched(o: Oracle, w: World, attempted: bool, intent: string, deadline: int)
    requires NeverAccused(o) && Quiet(w.log)
    requires w.record.Some? && w.record.value.intent == intent && w.record.value.pid.Some?
    ensures var (e, out) := Converge(o, w, attempted, intent, deadline);
      && Quiet(e.log) && e.record == w.record
      && (out == Running(!attempted) || (out == Unconfirmed && e.clock >= deadline))
    decreases if deadline > w.clock then deadline - w.clock else 0
  {
    var r := w.record.value;
    var looked := Look(o, w);
    var probed := Probe(o, looked, r);
    var read := Read(o, probed);
    assert Quiet(read.log);
    hide Create, Terminate, Quiet;
    if !SaysOnline(o, probed) {
      var now := Tock(o, read);
      if now.clock < deadline {
        StillQuiet(now.log, Slept);
        ASlowStartIsOnlyWatched(o, Sleep(o, now), attempted, intent, deadline);
      }
    }
  }

  lemma StillQuiet(log: seq<Act>, act: Act)
    requires Quiet(log) && !Mutates(act)
    ensures Quiet(log + [act])
  {
  }

  // ------------------------------------------- the deadline cuts the grace short

  lemma {:induction false} PollWatches(o: Oracle, w: World, r: InstanceRecord, until: int)
    ensures var (p, gone) := Poll(o, w, r, until);
      OnlyWatched(w.log, p.log) && (!gone ==> p.clock >= until) && p.clock >= w.clock
    decreases if until > w.clock then until - w.clock else 0
  {
    var now := Tock(o, w);
    if now.clock < until {
      var probed := Probe(o, now, r);
      if IsAlive(o, now, r) { PollWatches(o, Sleep(o, probed), r, until); }
    }
  }

  /** A kill signal among the acts from `from` on, sent before `time`. */
  ghost predicate KillBefore(log: seq<Act>, from: nat, time: int) {
    exists i :: from <= i < |log| && log[i].Signalled? && log[i].kill && log[i].sentAt < time
  }

  /** After the termination signal at `since`, the kill signal goes out before the full grace is
      over exactly when the process answered every probe up to the deadline and the deadline
      came first; never when the deadline leaves the whole grace. */
  lemma AKillComesEarlyExactlyWhen(o: Oracle, w: World, r: InstanceRecord, deadline: int)
    ensures var termed := Tock(o, Signal(o, w, false, r.generation));
      var since := termed.clock;
      var (graced, gone) := Poll(o, termed, r, Earlier(since + TERMINATION_GRACE_MS, deadline));
      var early := KillBefore(Killing(o, w, r, deadline).0.log, |w.log|, since + TERMINATION_GRACE_MS);
      && (early <==> !gone && graced.clock < since + TERMINATION_GRACE_MS)
      && (early ==> deadline < since + TERMINATION_GRACE_MS)
  {
    var termed := Tock(o, Signal(o, w, false, r.generation));
    var until := Earlier(termed.clock + TERMINATION_GRACE_MS, deadline);
    PollWatches(o, termed, r, until);
    var (graced, gone) := Poll(o, termed, r, until);
    var killed := Signal(o, graced, true, r.generation);
    PollWatches(o, killed, r, deadline);
    var end := Killing(o, w, r, deadline).0;
    hide Poll;
    if gone {
      assert end == graced;
      NoKillAmong(w.log, termed.log, graced.log, termed.clock + TERMINATION_GRACE_MS);
    } else {
      TheOneKill(w.log, termed.log, graced.log, graced.clock, r.generation, end.log, termed.clock + TERMINATION_GRACE_MS);
    }
  }

  /** Two futures that agree on the first `n` steps. */
  ghost predicate Agree(o: Oracle, p: Oracle, n: nat) { forall k: nat :: k < n ==> o(k) == p(k) }

  /** What was signalled at `since` is killed before the grace is over. */
  ghost predicate KillsEarly(o: Oracle, w: World, r: InstanceRecord, deadline: int, since: int) {
    KillBefore(Killing(o, w, r, deadline).0.log, |w.log|, since + TERMINATION_GRACE_MS)
  }

  /** Once the termination signal is out, the rest of the world can still make the kill come
      before the grace is over exactly when the deadline falls inside it. */
  lemma AKillCanComeEarlyExactlyWhen(o: Oracle, w: World, r: InstanceRecord, deadline: int)
    ensures var termed := Tock(o, Signal(o, w, false, r.generation));
      (exists p: Oracle :: Agree(o, p, termed.step) && KillsEarly(p, w, r, deadline, termed.clock))
      <==> deadline < termed.clock + TERMINATION_GRACE_MS
  {
    var termed := Tock(o, Signal(o, w, false, r.generation));
    hide Killing, KillBefore, Poll;
    if deadline < termed.clock + TERMINATION_GRACE_MS {
      var p := SlowAt(o, termed.step, if termed.clock < deadline then deadline - termed.clock else 0);
      assert Tock(p, Signal(p, w, false, r.generation)) == termed;
      AKillComesEarlyExactlyWhen(p, w, r, deadline);
      ItIsLate(p, termed, r, Earlier(termed.clock + TERMINATION_GRACE_MS, deadline));
      assert Agree(o, p, termed.step);
    }
    if p: Oracle :| Agree(o, p, termed.step) && KillsEarly(p, w, r, deadline, termed.clock) {
      assert Tock(p, Signal(p, w, false, r.generation)) == termed;
      AKillComesEarlyExactlyWhen(p, w, r, deadline);
    }
  }

  /** The future `o`, but for step `n`, which takes `elapsed`. */
  function SlowAt(o: Oracle, n: nat, elapsed: nat): Oracle {
    (k: nat) => if k == n then o(k).(elapsed := elapsed) else o(k)
  }

  /** A poll that finds its time over ends at once. */
  lemma ItIsLate(o: Oracle, w: World, r: InstanceRecord, until: int)
    requires w.clock + o(w.step).elapsed >= until
    ensures Poll(o, w, r, until) == (Tock(o, w), false)
  {
  }

  lemma NoKillAmong(from: seq<Act>, termed: seq<Act>, graced: seq<Act>, time: int)
    requires |termed| == |from| + 1 && termed[..|from|] == from && OnlyWatched(termed, graced)
    requires termed[|from|].Signalled? && !termed[|from|].kill
    ensures !KillBefore(graced, |from|, time)
  {
    assert forall i :: |from| < i < |graced| ==> !Mutates(graced[i]);
    assert graced[|from|] == termed[|from|];
  }

  lemma TheOneKill(
    from: seq<Act>, termed: seq<Act>, graced: seq<Act>, sentAt: int, generation: string, end: seq<Act>, time: int)
    requires |termed| == |from| + 1 && termed[..|from|] == from && OnlyWatched(termed, graced)
    requires termed[|from|].Signalled? && !termed[|from|].kill
    requires OnlyWatched(graced + [Signalled(true, generation, sentAt)], end)
    ensures KillBefore(end, |from|, time) <==> sentAt < time
  {
    var killed := graced + [Signalled(true, generation, sentAt)];
    var k := |graced|;
    assert end[k] == killed[k];
    forall i | |from| <= i < |end| && i != k ensures !(end[i].Signalled? && end[i].kill) {
      if i < k { assert end[i] == killed[i] == graced[i]; }
      if i == |from| { assert graced[i] == termed[i]; }
    }
  }

  /** A world in which only sleeping takes time and the process neither dies nor comes up. */
  ghost predicate Stubborn(o: Oracle) {
    forall k: nat :: o(k).elapsed == 0 && o(k).alive && !o(k).online && !o(k).fatal
  }

  lemma {:induction false} StubbornPoll(o: Oracle, w: World, r: InstanceRecord, until: int)
    requires Stubborn(o) && r.pid.Some? && w.clock <= until
    ensures var (p, gone) := Poll(o, w, r, until); !gone && until <= p.clock < until + POLL_INTERVAL_MS
    decreases until - w.clock
  {
    var now := Tock(o, w);
    if now.clock < until && w.clock + POLL_INTERVAL_MS <= until {
      StubbornPoll(o, Sleep(o, Probe(o, now, r)), r, until);
    }
  }

  /** The world after the call's looks at a live instance it means to replace. */
  function BeforeTheSignal(o: Oracle, w: World, r: InstanceRecord): World {
    Look(o, Read(o, Read(o, Probe(o, Look(o, Tock(o, w)), r))))
  }

  /** A call goes on to terminate a live instance of another configuration that logs nothing,
      and refuses when that fails. */
  lemma AnotherIsTerminated(o: Oracle, w: World, intent: string, timeoutMs: nat)
    requires forall k: nat :: o(k).alive && !o(k).online && !o(k).fatal
    requires !w.online && w.record.Some? && w.record.value.pid.Some? && w.record.value.intent != intent
    ensures var r, deadline := w.record.value, Tock(o, w).clock + timeoutMs;
      var (e, v) := Killing(o, BeforeTheSignal(o, w, r), r, deadline);
      v == Stuck ==> StartInstance(o, w, intent, timeoutMs) == (e, Refused)
  {
    hide Killing, Converge;
    var now := Tock(o, w);
    var r, deadline := w.record.value, now.clock + timeoutMs;
    var looked := Look(o, now);
    var read := Read(o, Probe(o, looked, r));
    assert !SaysOnline(o, read) && !SaysOnline(o, Probe(o, looked, r)) && !SaysFatal(o, Probe(o, looked, r));
    assert Terminate(o, read, r, deadline) == Killing(o, BeforeTheSignal(o, w, r), r, deadline);
    ConvergeJudges(o, now, false, intent, deadline, r);
  }

  /** There a call that finds an instance of another configuration, with a startup timeout under
      59.5 seconds, sends its kill signal before the grace period is over, and then refuses. */
  lemma AShortTimeoutKillsEarly(o: Oracle, w: World, intent: string, timeoutMs: nat)
    requires Stubborn(o) && w.log == [] && !w.online
    requires w.record.Some? && w.record.value.pid.Some? && w.record.value.intent != intent
    requires timeoutMs <= TERMINATION_GRACE_MS - POLL_INTERVAL_MS
    ensures var (e, out) := StartInstance(o, w, intent, timeoutMs);
      && out == Refused
      && exists i, j :: 0 <= i < j < |e.log| && e.log[i].Signalled? && !e.log[i].kill
           && e.log[j].Signalled? && e.log[j].kill && e.log[j].sentAt < e.log[i].sentAt + TERMINATION_GRACE_MS
  {
    var r, deadline := w.record.value, Tock(o, w).clock + timeoutMs;
    var again := BeforeTheSignal(o, w, r);
    assert again.clock == w.clock && deadline == w.clock + timeoutMs;
    AnotherIsTerminated(o, w, intent, timeoutMs);
    StubbornKilling(o, again, r, deadline);
    hide Killing, Stubborn, StartInstance, BeforeTheSignal;
  }

  /** Some world lets any call, whatever its timeout, find such an instance so late that the kill
      signal follows the termination signal at once. */
  lemma AnyTimeoutCanKillEarly(w: World, intent: string, timeoutMs: nat) returns (o: Oracle)
    requires w.log == [] && !w.online
    requires w.record.Some? && w.record.value.pid.Some? && w.record.value.intent != intent
    ensures var (e, out) := StartInstance(o, w, intent, timeoutMs);
      && out == Refused
      && exists i, j :: 0 <= i < j < |e.log| && e.log[i].Signalled? && !e.log[i].kill
           && e.log[j].Signalled? && e.log[j].kill && e.log[j].sentAt == e.log[i].sentAt
  {
    o := SlowAt((k: nat) => Tick(0, true, false, false, true, "", 0), w.step + 1, timeoutMs);
    assert Late(o, w.step + 1, timeoutMs);
    hide *;
    ALateLookKillsAtOnce(o, w, intent, timeoutMs);
  }

  /** A future like a stubborn one, but for step `n`. */
  ghost predicate Late(o: Oracle, n: nat, elapsed: nat) {
    forall k: nat :: o(k).elapsed == (if k == n then elapsed else 0) && o(k).alive && !o(k).online && !o(k).fatal
  }

  lemma ALateLookKillsAtOnce(o: Oracle, w: World, intent: string, timeoutMs: nat)
    requires Late(o, w.step + 1, timeoutMs) && w.log == [] && !w.online
    requires w.record.Some? && w.record.value.pid.Some? && w.record.value.intent != intent
    ensures var (e, out) := StartInstance(o, w, intent, timeoutMs);
      && out == Refused
      && exists i, j :: 0 <= i < j < |e.log| && e.log[i].Signalled? && !e.log[i].kill
           && e.log[j].Signalled? && e.log[j].kill && e.log[j].sentAt == e.log[i].sentAt
  {
    var r, deadline := w.record.value, Tock(o, w).clock + timeoutMs;
    var again := BeforeTheSignal(o, w, r);
    assert again.clock == deadline;
    AnotherIsTerminated(o, w, intent, timeoutMs);
    KilledAtOnce(o, again, r, deadline);
    hide Killing, Late, StartInstance, BeforeTheSignal;
  }

  lemma KilledAtOnce(o: Oracle, w: World, r: InstanceRecord, deadline: int)
    requires w.clock == deadline && forall k: nat :: k >= w.step ==> o(k).elapsed == 0
    ensures var (e, v) := Killing(o, w, r, deadline);
      && v == Stuck
      && exists i, j :: 0 <= i < j < |e.log| && e.log[i].Signalled? && !e.log[i].kill
           && e.log[j].Signalled? && e.log[j].kill && e.log[j].sentAt == e.log[i].sentAt
  {
    var termed := Tock(o, Signal(o, w, false, r.generation));
    ItIsLate(o, termed, r, deadline);
    var graced := Tock(o, termed);
    var killed := Signal(o, graced, true, r.generation);
    ItIsLate(o, killed, r, deadline);
    var log := Killing(o, w, r, deadline).0.log;
    var n := |w.log|;
    assert log == w.log + [Signalled(false, r.generation, deadline)] + [Signalled(true, r.generation, deadline)];
    assert log[n].Signalled? && !log[n].kill && log[n + 1].kill && log[n].sentAt == log[n + 1].sentAt;
  }

  lemma ConvergeJudges(o: Oracle, w: World, attempted: bool, intent: string, deadline: int, r: InstanceRecord)
    requires w.record == Some(r)
    ensures Converge(o, w, attempted, intent, deadline) == Judge(o, Look(o, w), r, attempted, intent, deadline)
  {
    hide Judge;
  }

  lemma StubbornKilling(o: Oracle, w: World, r: InstanceRecord, deadline: int)
    requires Stubborn(o) && r.pid.Some? && w.clock <= deadline <= w.clock + TERMINATION_GRACE_MS - POLL_INTERVAL_MS
    ensures var (e, v) := Killing(o, w, r, deadline);
      && v == Stuck
      && exists i, j :: 0 <= i < j < |e.log| && e.log[i].Signalled? && !e.log[i].kill
           && e.log[j].Signalled? && e.log[j].kill && e.log[j].sentAt < e.log[i].sentAt + TERMINATION_GRACE_MS
  {
    var signalled := Signal(o, w, false, r.generation);
    var termed := Tock(o, signalled);
    assert termed.clock == w.clock;
    StubbornPoll(o, termed, r, deadline);
    PollWatches(o, termed, r, deadline);
    var graced := Poll(o, termed, r, deadline).0;
    var killed := Signal(o, graced, true, r.generation);
    PollWatches(o, killed, r, deadline);
    var end := Killing(o, w, r, deadline).0;
    assert killed.clock >= deadline;
    var i, j := |w.log|, |graced.log|;
    assert end.log[i] == killed.log[i] == graced.log[i] == termed.log[i] == Signalled(false, r.generation, w.clock);
    assert end.log[j] == killed.log[j] == Signalled(true, r.generation, graced.clock);
  }
}
