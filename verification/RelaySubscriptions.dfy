/** The subscription objects the relay connection delivers through. */
module RelaySubscriptions {
  import opened Basics
  import S = Subscriptions

  class SeenEventIds {
    const rotateAt: nat
    var current: set<string>
    var previous: set<string>
    ghost var admitted: seq<string>

    ghost function Model(): S.Seen reads this { S.Seen(current, previous, admitted) }

    constructor (rotateAt: nat)
      ensures this.rotateAt == rotateAt && Model() == S.Seen({}, {}, [])
    {
      this.rotateAt := rotateAt;
      current, previous, admitted := {}, {}, [];
    }

    method Admit(id: string) returns (isNew: bool)
      modifies this
      ensures Model() == S.Admit(old(Model()), rotateAt, id)
      ensures isNew <==> !S.Known(old(Model()), id)
    {
      if id in current || id in previous { return false; }
      current := current + {id};
      admitted := admitted + [id];
      if |current| >= rotateAt {
        previous := current;
        current := {};
      }
      isNew := true;
    }
  }

  class SubscriptionRecord {
    const id: string
    var lastSeen: Option<int>
    var droppedSince: Option<int>
    ghost var delivered: seq<int>
    ghost var drops: seq<int>

    ghost function Model(): S.Record reads this { S.Record(lastSeen, droppedSince, delivered, drops) }

    constructor (id: string)
      ensures this.id == id && Model() == S.NEW_RECORD
    {
      this.id := id;
      lastSeen, droppedSince, delivered, drops := None, None, [], [];
    }

    function Since(watermark: int): (since: int)
      reads this
      ensures since == S.Since(Model(), watermark)
    {
      var base := if lastSeen.None? then watermark else lastSeen.value - S.REPLAY_SKEW_SEC;
      if droppedSince.None? then base else S.Min(base, droppedSince.value)
    }

    method NoteDelivered(at: int)
      modifies this
      ensures Model() == S.NoteDelivered(old(Model()), at)
    {
      if lastSeen.None? || at > lastSeen.value { lastSeen := Some(at); }
      delivered := delivered + [at];
    }

    method NoteDropped(at: int)
      modifies this
      ensures Model() == S.NoteDropped(old(Model()), at)
    {
      if droppedSince.None? || at < droppedSince.value { droppedSince := Some(at); }
      drops := drops + [at];
    }

    method NoteReplayComplete()
      modifies this
      ensures Model() == S.NoteReplayComplete(old(Model()))
    {
      droppedSince, drops := None, [];
    }
  }

  class SubscriptionRegistry {
    const startupWatermark: int
    const seen: SeenEventIds
    var records: map<string, SubscriptionRecord>
    ghost var calls: seq<(string, S.Event)>

    /** No two subscriptions share a record. */
    ghost predicate Valid() reads this {
      forall i, j :: i in records && j in records && records[i] == records[j] ==> i == j
    }

    ghost function Model(): S.Registry reads this, seen, records.Values {
      S.Registry(seen.Model(), map id | id in records :: records[id].Model(), calls)
    }

    constructor (startupWatermark: int, seen: SeenEventIds)
      ensures this.startupWatermark == startupWatermark && this.seen == seen
      ensures Valid() && records == map[] && calls == []
    {
      this.startupWatermark, this.seen := startupWatermark, seen;
      records, calls := map[], [];
    }

    method Add(id: string) returns (record: SubscriptionRecord)
      requires Valid()
      modifies this
      ensures Valid() && fresh(record)
      ensures records == old(records)[id := record] && calls == old(calls)
      ensures Model() == S.Next(old(Model()), seen.rotateAt, S.Adding(id))
    {
      record := new SubscriptionRecord(id);
      records := records[id := record];
    }

    method Remove(id: string) returns (removed: bool)
      requires Valid()
      modifies this
      ensures Valid() && (removed <==> id in old(records))
      ensures Model() == S.Next(old(Model()), seen.rotateAt, S.Removing(id))
    {
      removed := id in records;
      records := records - {id};
    }

    /** `throws` is what the handler would do. Answers whether a handler took the event. */
    method Deliver(subscriptionId: string, event: S.Event, throws: bool) returns (delivered: bool)
      requires Valid()
      modifies this, seen, records.Values
      ensures Valid() && records == old(records)
      ensures Model() == S.Deliver(old(Model()), seen.rotateAt, subscriptionId, event, throws)
      ensures delivered <==> subscriptionId in records && !S.Known(old(seen.Model()), event.id) && !throws
    {
      hide S.NoteDelivered, S.NoteDropped;
      if subscriptionId !in records { return false; }
      var isNew := seen.Admit(event.id);
      if !isNew { return false; }
      hide S.Admit, S.Known;
      Hand(subscriptionId, event, throws);
      delivered := !throws;
    }

    /** Calls the handler and notes the delivery, and the drop when it throws. */
    method Hand(subscriptionId: string, event: S.Event, throws: bool)
      requires Valid() && subscriptionId in records
      modifies this, records.Values
      ensures Valid() && records == old(records) && calls == old(calls) + [(subscriptionId, event)]
      ensures seen.Model() == old(seen.Model())
      ensures var noted := S.NoteDelivered(old(Model()).records[subscriptionId], event.createdAt);
        Model().records == old(Model()).records[
          subscriptionId := if throws then S.NoteDropped(noted, event.createdAt) else noted]
    {
      hide S.NoteDelivered, S.NoteDropped;
      calls := calls + [(subscriptionId, event)];
      var record := records[subscriptionId];
      record.NoteDelivered(event.createdAt);
      if throws { record.NoteDropped(event.createdAt); }
    }
  }
}
