/** Replay floors and event dedup behind the relay subscriptions. */
module Subscriptions {
  import opened Basics

  const REPLAY_SKEW_SEC := 5

  // --------------------------------------------------------------------- dedup

  /** Two generations of ids; `admitted` is the history of every id let through. */
  datatype Seen = Seen(current: set<string>, previous: set<string>, admitted: seq<string>)

  predicate Known(s: Seen, id: string) { id in s.current || id in s.previous }

  function Admit(s: Seen, rotateAt: nat, id: string): Seen {
    if Known(s, id) then s else
    var current := s.current + {id};
    if |current| >= rotateAt then Seen({}, current, s.admitted + [id]) else Seen(current, s.previous, s.admitted + [id])
  }

  /** A generation holds one id even when it is told to hold none. */
  function Generation(rotateAt: nat): nat { if rotateAt == 0 then 1 else rotateAt }

  function Size(s: Seen): nat { |s.current| + |s.previous| }

  /** The last `k` ids admitted. */
  function Latest(s: Seen, k: nat): seq<string>
    requires k <= |s.admitted|
  {
    s.admitted[|s.admitted| - k..]
  }

  ghost predicate Lists(ids: seq<string>, members: set<string>) {
    |ids| == |members| && forall x :: x in ids <==> x in members
  }

  /** The generations are the newest ids and those just before them. */
  ghost predicate Window(s: Seen, rotateAt: nat) {
    && |s.current| < Generation(rotateAt) && Size(s) <= |s.admitted|
    && s.current !! s.previous
    && Lists(Latest(s, |s.current|), s.current)
    && Lists(Latest(s, Size(s)), s.current + s.previous)
    && (if s.previous == {} then Size(s) == |s.admitted| else |s.previous| == Generation(rotateAt))
  }

  lemma ListsAppend(ids: seq<string>, members: set<string>, id: string)
    requires Lists(ids, members) && id !in members
    ensures Lists(ids + [id], members + {id})
  {
  }

  lemma AdmitKeepsWindow(s: Seen, rotateAt: nat, id: string)
    requires Window(s, rotateAt)
    ensures Window(Admit(s, rotateAt, id), rotateAt)
  {
    if !Known(s, id) {
      hide Lists;
      NewestAppended(s, rotateAt, id);
      if |s.current + {id}| >= rotateAt { Rotates(s, rotateAt, id); } else { Grows(s, rotateAt, id); }
    }
  }

  /** The two suffixes of the history, with the new id behind them. */
  lemma NewestAppended(s: Seen, rotateAt: nat, id: string)
    requires Window(s, rotateAt) && !Known(s, id)
    ensures Size(s) <= |s.admitted| && |s.current + {id}| == |s.current| + 1
    ensures Lists((s.admitted + [id])[|s.admitted| - |s.current|..], s.current + {id})
    ensures Lists((s.admitted + [id])[|s.admitted| - Size(s)..], s.current + s.previous + {id})
  {
    hide Lists, Latest;
    SuffixAppended(s, id, |s.current|, s.current);
    SuffixAppended(s, id, Size(s), s.current + s.previous);
  }

  lemma SuffixAppended(s: Seen, id: string, k: nat, members: set<string>)
    requires k <= |s.admitted| && Lists(Latest(s, k), members) && id !in members
    ensures Lists((s.admitted + [id])[|s.admitted| - k..], members + {id})
  {
    ListsAppend(Latest(s, k), members, id);
    assert (s.admitted + [id])[|s.admitted| - k..] == Latest(s, k) + [id];
  }

  lemma Rotates(s: Seen, rotateAt: nat, id: string)
    requires Window(s, rotateAt) && !Known(s, id) && |s.current| + 1 == |s.current + {id}| >= rotateAt
    requires Lists((s.admitted + [id])[|s.admitted| - |s.current|..], s.current + {id})
    ensures Window(Admit(s, rotateAt, id), rotateAt)
  {
    hide Lists;
    var to := Admit(s, rotateAt, id);
    assert to == Seen({}, s.current + {id}, s.admitted + [id]);
    assert to.current + to.previous == s.current + {id};
    assert Latest(to, 0) == [];
    NoneListed();
  }

  lemma Grows(s: Seen, rotateAt: nat, id: string)
    requires Window(s, rotateAt) && !Known(s, id) && |s.current| + 1 == |s.current + {id}| < rotateAt
    requires Lists((s.admitted + [id])[|s.admitted| - |s.current|..], s.current + {id})
    requires Lists((s.admitted + [id])[|s.admitted| - Size(s)..], s.current + s.previous + {id})
    ensures Window(Admit(s, rotateAt, id), rotateAt)
  {
    hide Lists;
    var to := Admit(s, rotateAt, id);
    assert to == Seen(s.current + {id}, s.previous, s.admitted + [id]);
    assert to.current + to.previous == s.current + s.previous + {id};
  }

  lemma NoneListed()
    ensures Lists([], {})
  {
  }

  /** What is remembered is exactly the newest `Size` ids admitted, one generation of them at
      least once there are that many, and less than two. */
  lemma RememberedIsTheNewest(s: Seen, rotateAt: nat, id: string)
    requires Window(s, rotateAt)
    ensures Size(s) <= |s.admitted| && s.current !! s.previous
    ensures Known(s, id) <==> id in Latest(s, Size(s))
    ensures Size(s) <= 2 * Generation(rotateAt) - 1
    ensures Size(s) >= if |s.admitted| < Generation(rotateAt) then |s.admitted| else Generation(rotateAt)
  {
  }

  /** No id comes through again until a whole generation of others came after it. */
  ghost predicate Spaced(admitted: seq<string>, gap: nat) {
    forall i, j :: 0 <= i < j < |admitted| && admitted[i] == admitted[j] ==> j - i > gap
  }

  lemma AdmitKeepsSpaced(s: Seen, rotateAt: nat, id: string)
    requires Window(s, rotateAt) && Spaced(s.admitted, Generation(rotateAt))
    ensures Spaced(Admit(s, rotateAt, id).admitted, Generation(rotateAt))
  {
    if !Known(s, id) {
      UnknownIsOld(s, rotateAt, id);
      hide Window;
      SpacedAppend(s.admitted, id, Generation(rotateAt));
      assert Admit(s, rotateAt, id).admitted == s.admitted + [id];
    }
  }

  lemma UnknownIsOld(s: Seen, rotateAt: nat, id: string)
    requires Window(s, rotateAt) && !Known(s, id)
    ensures forall i :: 0 <= i < |s.admitted| && s.admitted[i] == id ==> |s.admitted| - i > Generation(rotateAt)
  {
    RememberedIsTheNewest(s, rotateAt, id);
    hide Window;
    var n := |s.admitted|;
    forall i | n - Size(s) <= i < n ensures s.admitted[i] != id {
      assert Latest(s, Size(s))[i - (n - Size(s))] in Latest(s, Size(s));
    }
  }

  lemma SpacedAppend(ids: seq<string>, id: string, gap: nat)
    requires Spaced(ids, gap)
    requires forall i :: 0 <= i < |ids| && ids[i] == id ==> |ids| - i > gap
    ensures Spaced(ids + [id], gap)
  {
  }

  // -------------------------------------------------------------------- floors

  datatype Event = Event(id: string, createdAt: int)

  /** `delivered` and `drops` are histories: every timestamp handed to the consumer, and those
      it failed on since the relay last completed a replay. */
  datatype Record = Record(lastSeen: Option<int>, droppedSince: Option<int>, delivered: seq<int>, drops: seq<int>)

  const NEW_RECORD := Record(None, None, [], [])

  function Min(a: int, b: int): int { if a < b then a else b }

  function Since(r: Record, watermark: int): int {
    var base := if r.lastSeen.None? then watermark else r.lastSeen.value - REPLAY_SKEW_SEC;
    if r.droppedSince.None? then base else Min(base, r.droppedSince.value)
  }

  function NoteDelivered(r: Record, at: int): Record {
    r.(lastSeen := if r.lastSeen.None? || at > r.lastSeen.value then Some(at) else r.lastSeen,
       delivered := r.delivered + [at])
  }

  function NoteDropped(r: Record, at: int): Record {
    r.(droppedSince := if r.droppedSince.None? || at < r.droppedSince.value then Some(at) else r.droppedSince,
       drops := r.drops + [at])
  }

  function NoteReplayComplete(r: Record): Record { r.(droppedSince := None, drops := []) }

  /** The two marks are the maximum and the minimum of the two histories. */
  ghost predicate Marks(r: Record) {
    && (r.lastSeen.None? <==> r.delivered == [])
    && (r.lastSeen.Some? ==> r.lastSeen.value in r.delivered && forall t :: t in r.delivered ==> t <= r.lastSeen.value)
    && (r.droppedSince.None? <==> r.drops == [])
    && (r.droppedSince.Some? ==> r.droppedSince.value in r.drops && forall t :: t in r.drops ==> r.droppedSince.value <= t)
  }

  /** The next request asks for every drop of the open replay again, and for the last five
      seconds before the newest delivery; and for no more than that takes. */
  lemma TheFloorIsExact(r: Record, watermark: int, floor: int)
    requires Marks(r)
    ensures floor <= Since(r, watermark) <==>
      && (if r.delivered == [] then floor <= watermark
          else exists t :: t in r.delivered && floor <= t - REPLAY_SKEW_SEC)
      && (forall t :: t in r.drops ==> floor <= t)
  {
    if r.drops != [] { assert r.droppedSince.value in r.drops; }
    if r.delivered != [] && floor <= Since(r, watermark) {
      assert r.lastSeen.value in r.delivered && floor <= r.lastSeen.value - REPLAY_SKEW_SEC;
    }
  }

  // ------------------------------------------------------------------ registry

  /** `calls` is the history of handler calls: which subscription, which event. */
  datatype Registry = Registry(seen: Seen, records: map<string, Record>, calls: seq<(string, Event)>)

  const NEW_REGISTRY := Registry(Seen({}, {}, []), map[], [])

  /** `throws` is what the handler does with the event, if it is called. */
  function Deliver(r: Registry, rotateAt: nat, subscriptionId: string, event: Event, throws: bool): Registry {
    if subscriptionId !in r.records || Known(r.seen, event.id) then r else
    var noted := NoteDelivered(r.records[subscriptionId], event.createdAt);
    var after := if throws then NoteDropped(noted, event.createdAt) else noted;
    Registry(Admit(r.seen, rotateAt, event.id), r.records[subscriptionId := after],
             r.calls + [(subscriptionId, event)])
  }

  datatype Step =
    | Adding(id: string) | Removing(id: string) | ReplayDone(id: string)
    | Delivering(id: string, event: Event, throws: bool)

  function Next(r: Registry, rotateAt: nat, s: Step): Registry {
    match s
    case Adding(id) => r.(records := r.records[id := NEW_RECORD])
    case Removing(id) => r.(records := r.records - {id})
    case ReplayDone(id) =>
      if id !in r.records then r else r.(records := r.records[id := NoteReplayComplete(r.records[id])])
    case Delivering(id, event, throws) => Deliver(r, rotateAt, id, event, throws)
  }

  ghost predicate Follows(rotateAt: nat, trace: seq<Registry>, steps: seq<Step>) {
    && |trace| == |steps| + 1
    && forall i :: 0 <= i < |steps| ==> trace[i + 1] == Next(trace[i], rotateAt, steps[i])
  }

  /** Handlers saw exactly the ids that were admitted, in that order. */
  ghost predicate Valid(r: Registry, rotateAt: nat) {
    && Window(r.seen, rotateAt) && Spaced(r.seen.admitted, Generation(rotateAt))
    && |r.calls| == |r.seen.admitted|
    && (forall i :: 0 <= i < |r.calls| ==> r.calls[i].1.id == r.seen.admitted[i])
    && (forall id :: id in r.records ==> Marks(r.records[id]))
  }

  lemma StepKeeps(r: Registry, rotateAt: nat, s: Step)
    requires Valid(r, rotateAt)
    ensures Valid(Next(r, rotateAt, s), rotateAt)
  {
    hide Window, Spaced, Marks;
    match s
    case Delivering(id, event, throws) =>
      if id in r.records && !Known(r.seen, event.id) { DeliveryKeeps(r, rotateAt, id, event, throws); }
    case ReplayDone(id) => if id in r.records { ReplayDoneKeepsMarks(r.records[id]); }
    case Adding(id) => NewKeepsMarks();
    case Removing(id) =>
  }

  lemma NewKeepsMarks()
    ensures Marks(NEW_RECORD)
  {
  }

  lemma ReplayDoneKeepsMarks(r: Record)
    requires Marks(r)
    ensures Marks(NoteReplayComplete(r))
  {
  }

  lemma DeliveryKeeps(r: Registry, rotateAt: nat, id: string, event: Event, throws: bool)
    requires Valid(r, rotateAt) && id in r.records && !Known(r.seen, event.id)
    ensures Valid(Deliver(r, rotateAt, id, event, throws), rotateAt)
  {
    hide Window, Spaced, Marks, NoteDelivered, NoteDropped;
    AdmitKeepsWindow(r.seen, rotateAt, event.id);
    AdmitKeepsSpaced(r.seen, rotateAt, event.id);
    DeliveryKeepsMarks(r.records[id], event.createdAt, throws);
    var to := Deliver(r, rotateAt, id, event, throws);
    assert to.seen.admitted == r.seen.admitted + [event.id] && to.calls == r.calls + [(id, event)];
    assert forall k :: k in to.records && k != id ==> k in r.records && to.records[k] == r.records[k];
    hide Admit, Deliver;
  }

  lemma DeliveryKeepsMarks(r: Record, at: int, throws: bool)
    requires Marks(r)
    ensures var noted := NoteDelivered(r, at); Marks(if throws then NoteDropped(noted, at) else noted)
  {
    var noted := NoteDelivered(r, at);
    assert forall t :: t in noted.delivered <==> t in r.delivered || t == at;
    assert forall t :: t in NoteDropped(noted, at).drops <==> t in r.drops || t == at;
  }

  lemma {:induction false} RunsAreValid(rotateAt: nat, trace: seq<Registry>, steps: seq<Step>, n: nat)
    requires Follows(rotateAt, trace, steps) && n < |trace| && trace[0] == NEW_REGISTRY
    ensures Valid(trace[n], rotateAt)
  {
    if n > 0 {
      RunsAreValid(rotateAt, trace, steps, n - 1);
      StepKeeps(trace[n - 1], rotateAt, steps[n - 1]);
    }
  }

  /** Across all subscriptions and reconnects, between two handler calls with the same event
      id there are at least a generation of calls with other ids. */
  lemma NoHandlerSeesARememberedId(rotateAt: nat, trace: seq<Registry>, steps: seq<Step>, n: nat, i: nat, j: nat)
    requires Follows(rotateAt, trace, steps) && n < |trace| && trace[0] == NEW_REGISTRY
    requires i < j < |trace[n].calls| && trace[n].calls[i].1.id == trace[n].calls[j].1.id
    ensures j - i > Generation(rotateAt)
  {
    RunsAreValid(rotateAt, trace, steps, n);
  }

  /** At every point of a run, the next request of every subscription reaches back to each
      event its handler failed on since the last completed replay. */
  lemma EveryDropIsAskedForAgain(
    rotateAt: nat, trace: seq<Registry>, steps: seq<Step>, n: nat, id: string, watermark: int, t: int)
    requires Follows(rotateAt, trace, steps) && n < |trace| && trace[0] == NEW_REGISTRY
    requires id in trace[n].records && t in trace[n].records[id].drops
    ensures Since(trace[n].records[id], watermark) <= t
  {
    RunsAreValid(rotateAt, trace, steps, n);
  }

  /** Asking again is not enough: an event whose handler threw is delivered again exactly when
      a later delivery of it finds it forgotten. Until a generation of other ids has come
      through it is not. */
  lemma ADroppedEventComesBackExactlyWhen(
    rotateAt: nat, trace: seq<Registry>, steps: seq<Step>, k: nat, n: nat, throws: bool)
    requires Follows(rotateAt, trace, steps) && k < n < |trace| && trace[0] == NEW_REGISTRY
    requires steps[k].Delivering? && steps[k].throws && trace[k + 1] != trace[k]
    requires steps[k].id in trace[n].records
    ensures var again := Next(trace[n], rotateAt, Delivering(steps[k].id, steps[k].event, throws));
      && (again.calls != trace[n].calls <==> !Known(trace[n].seen, steps[k].event.id))
      && (|trace[n].calls| - |trace[k].calls| <= Generation(rotateAt) ==> again.calls == trace[n].calls)
  {
    RunsAreValid(rotateAt, trace, steps, n);
    CallsOnlyGrow(rotateAt, trace, steps, k + 1, n);
    assert trace[k + 1] == Next(trace[k], rotateAt, steps[k]);
    assert trace[k + 1].calls == trace[k].calls + [(steps[k].id, steps[k].event)];
    var r, i := trace[n], |trace[k].calls|;
    assert r.calls[i] == (steps[k].id, steps[k].event);
    CallIsAdmitted(r, rotateAt, i);
    hide Valid, Follows;
    if !Known(r.seen, steps[k].event.id) { UnknownIsOld(r.seen, rotateAt, steps[k].event.id); }
    hide Window, Known, Admit;
  }

  lemma CallIsAdmitted(r: Registry, rotateAt: nat, i: nat)
    requires Valid(r, rotateAt) && i < |r.calls|
    ensures |r.calls| == |r.seen.admitted| && r.seen.admitted[i] == r.calls[i].1.id && Window(r.seen, rotateAt)
  {
  }

  lemma {:induction false} CallsOnlyGrow(rotateAt: nat, trace: seq<Registry>, steps: seq<Step>, m: nat, n: nat)
    requires Follows(rotateAt, trace, steps) && m <= n < |trace|
    ensures trace[m].calls <= trace[n].calls
  {
    if m < n { CallsOnlyGrow(rotateAt, trace, steps, m, n - 1); }
  }
}
