/** Grouping due rows by turn: the map the publisher fills, and the one order it stands for. */
module PublishOrder {
  import opened Ordering
  import opened LogicalIds
  import opened OutboxModel

  datatype Entry = Entry(turnId: string, ordinal: nat, index: nat, record: Record)

  function EntryOf(r: Record, index: nat): Entry {
    var parts := SplitLogicalId(r.logicalId);
    Entry(parts.turnId, parts.ordinal, index, r)
  }

  function Entries(records: seq<Record>): seq<Entry> {
    seq(|records|, i requires 0 <= i < |records| => EntryOf(records[i], i))
  }

  function OfTurn(entries: seq<Entry>, t: string): seq<Entry> {
    if entries == [] then [] else
    var rest := OfTurn(entries[..|entries| - 1], t);
    var e := entries[|entries| - 1];
    if e.turnId == t then rest + [e] else rest
  }

  /** The turns of `entries` in the order a JavaScript Map first sees them. */
  function Turns(entries: seq<Entry>): seq<string> {
    if entries == [] then [] else
    var rest := Turns(entries[..|entries| - 1]);
    var e := entries[|entries| - 1];
    if e.turnId in rest then rest else rest + [e.turnId]
  }

  function FirstSeen(turns: seq<string>, t: string): nat {
    if turns == [] || turns[0] == t then 0 else 1 + FirstSeen(turns[1..], t)
  }

  function Within(e: Entry): SortKey { SortKey(0, "", e.ordinal, e.index, "") }

  /** First-seen turn, then suffix, then position. */
  function Rank(turns: seq<string>, e: Entry): SortKey {
    SortKey(FirstSeen(turns, e.turnId), "", e.ordinal, e.index, "")
  }

  function Grouped(entries: seq<Entry>, turns: seq<string>): seq<Entry> {
    if turns == [] then [] else
    Grouped(entries, turns[..|turns| - 1]) + SortBy(By(Within), OfTurn(entries, turns[|turns| - 1]))
  }

  /** The publish order: the stable sort by first-seen turn, then suffix. */
  function InPublishOrder(records: seq<Record>): seq<Record> {
    RecordsOf(Ranked(Entries(records)))
  }

  function Ranked(entries: seq<Entry>): seq<Entry> {
    var turns := Turns(entries);
    SortBy(By(e => Rank(turns, e)), entries)
  }

  function RecordsOf(entries: seq<Entry>): seq<Record> {
    seq(|entries|, i requires 0 <= i < |entries| => entries[i].record)
  }

  // ----------------------------------------------------------- the one order

  lemma {:induction false} TurnsAreDistinct(entries: seq<Entry>)
    ensures forall i, j :: 0 <= i < j < |Turns(entries)| ==> Turns(entries)[i] != Turns(entries)[j]
    ensures forall i :: 0 <= i < |entries| ==> entries[i].turnId in Turns(entries)
  {
    if entries != [] {
      TurnsAreDistinct(entries[..|entries| - 1]);
      forall i | 0 <= i < |entries| ensures entries[i].turnId in Turns(entries) {
        if i < |entries| - 1 { assert entries[i] == entries[..|entries| - 1][i]; }
      }
    }
  }

  lemma {:induction false} FirstSeenAt(turns: seq<string>, k: nat)
    requires k < |turns| && forall i, j :: 0 <= i < j < |turns| ==> turns[i] != turns[j]
    ensures FirstSeen(turns, turns[k]) == k
  {
    if k > 0 { FirstSeenAt(turns[1..], k - 1); }
  }

  lemma {:induction false} OfTurnCounts(entries: seq<Entry>, t: string, e: Entry)
    ensures multiset(OfTurn(entries, t))[e] == if e.turnId == t then multiset(entries)[e] else 0
  {
    if entries != [] {
      OfTurnCounts(entries[..|entries| - 1], t, e);
      assert entries == entries[..|entries| - 1] + [entries[|entries| - 1]];
    }
  }

  lemma {:induction false} GroupedCounts(entries: seq<Entry>, turns: seq<string>, e: Entry)
    requires forall i, j :: 0 <= i < j < |turns| ==> turns[i] != turns[j]
    ensures multiset(Grouped(entries, turns))[e] == if e.turnId in turns then multiset(entries)[e] else 0
  {
    if turns != [] {
      var front, t := turns[..|turns| - 1], turns[|turns| - 1];
      GroupedCounts(entries, front, e);
      OfTurnCounts(entries, t, e);
      SortByPermutes(By(Within), OfTurn(entries, t));
      assert turns == front + [t];
    }
  }

  lemma GroupedPermutes(entries: seq<Entry>)
    ensures multiset(Grouped(entries, Turns(entries))) == multiset(entries)
  {
    TurnsAreDistinct(entries);
    forall e: Entry ensures multiset(Grouped(entries, Turns(entries)))[e] == multiset(entries)[e] {
      GroupedCounts(entries, Turns(entries), e);
      if e in entries { assert e.turnId in Turns(entries); }
    }
  }

  lemma {:induction false} GroupedSorted(entries: seq<Entry>, turns: seq<string>, k: nat)
    requires k <= |turns| && forall i, j :: 0 <= i < j < |turns| ==> turns[i] != turns[j]
    ensures Sorted(By(e => Rank(turns, e)), Grouped(entries, turns[..k]))
    ensures forall e :: e in Grouped(entries, turns[..k]) ==> e.turnId in turns[..k]
  {
    if k > 0 {
      var t, front := turns[k - 1], Grouped(entries, turns[..k - 1]);
      GroupedSorted(entries, turns, k - 1);
      assert turns[..k][..k - 1] == turns[..k - 1];
      var group := OfTurn(entries, t);
      var last := SortBy(By(Within), group);
      SortByPermutes(By(Within), group);
      ByIsTotal(Within);
      SortBySorts(By(Within), group);
      forall e | e in last ensures e.turnId == t { OfTurnOnly(entries, t, e); }
      forall e | e in front ensures FirstSeen(turns, e.turnId) < k - 1 {
        var i :| 0 <= i < k - 1 && turns[..k - 1][i] == e.turnId;
        FirstSeenAt(turns, i);
      }
      FirstSeenAt(turns, k - 1);
      var all := Grouped(entries, turns[..k]);
      assert all == front + last;
      forall i, j | 0 <= i < j < |all| ensures KeyLe(Rank(turns, all[i]), Rank(turns, all[j])) {
        if j < |front| {
          assert By(e => Rank(turns, e))(front[i], front[j]);
        } else {
          assert last[j - |front|] in last;
          assert all[j].turnId == t;
          if i < |front| {
            assert front[i] in front;
          } else {
            assert last[i - |front|] in last;
            assert all[i].turnId == t;
            assert By(Within)(last[i - |front|], last[j - |front|]);
            assert KeyLe(Within(all[i]), Within(all[j]));
          }
        }
      }
      assert turns[..k] == turns[..k - 1] + [t];
    }
  }

  lemma {:induction false} OfTurnOnly(entries: seq<Entry>, t: string, e: Entry)
    requires e in OfTurn(entries, t)
    ensures e.turnId == t && e in entries
  {
    if e != entries[|entries| - 1] || entries[|entries| - 1].turnId != t {
      OfTurnOnly(entries[..|entries| - 1], t, e);
      assert entries == entries[..|entries| - 1] + [entries[|entries| - 1]];
    }
  }

  /** What the groups amount to: the stable order by first-seen turn, then suffix. */
  lemma GroupingIsSorting(records: seq<Record>)
    ensures var entries := Entries(records);
      RecordsOf(Grouped(entries, Turns(entries))) == InPublishOrder(records)
  {
    GroupedIsRanked(Entries(records));
  }

  lemma GroupedIsRanked(entries: seq<Entry>)
    requires forall x, y :: x in entries && y in entries && x.index == y.index ==> x == y
    ensures Grouped(entries, Turns(entries)) == Ranked(entries)
  {
    var turns := Turns(entries);
    var rank := (e: Entry) => Rank(turns, e);
    TurnsAreDistinct(entries);
    GroupedPermutes(entries);
    GroupedSorted(entries, turns, |turns|);
    assert turns[..|turns|] == turns;
    ByIsTotal(rank);
    SortBySorts(By(rank), entries);
    SortByPermutes(By(rank), entries);
    assert Ranked(entries) == SortBy(By(rank), entries);
    hide Grouped, SortBy, Turns, Sorted, By, Ranked;
    SamePopulation(Grouped(entries, turns), entries);
    NoTies(turns, Grouped(entries, turns));
    SortedIsUnique(By(rank), Grouped(entries, turns), SortBy(By(rank), entries));
  }

  lemma NoTies(turns: seq<string>, s: seq<Entry>)
    requires forall x, y :: x in s && y in s && x.index == y.index ==> x == y
    ensures var le := By((e: Entry) => Rank(turns, e));
      forall x, y :: x in s && y in s && le(x, y) && le(y, x) ==> x == y
  {
    var rank := (e: Entry) => Rank(turns, e);
    forall x, y | x in s && y in s && By(rank)(x, y) && By(rank)(y, x) ensures x == y {
      KeyLeTotal(rank(x), rank(y));
    }
  }

  /** Between two rows of one turn come only rows of that turn, in the order of the suffix, and
      of the query where the suffixes tie. */
  lemma ATurnIsPublishedTogether(records: seq<Record>, i: nat, j: nat, k: nat)
    requires var order := Ranked(Entries(records));
      i <= j <= k < |order| && order[i].turnId == order[k].turnId
    ensures var order := Ranked(Entries(records));
      && order[j].turnId == order[i].turnId
      && (order[i].ordinal < order[j].ordinal || (order[i].ordinal == order[j].ordinal && order[i].index <= order[j].index))
      && InPublishOrder(records)[j] == order[j].record
  {
    var entries := Entries(records);
    var order := Ranked(entries);
    RankedIsSorted(entries, i, j);
    RankedIsSorted(entries, j, k);
    RankedIsSorted(entries, i, k);
    hide Ranked, Turns, Entries;
    var turns := Turns(entries);
    assert order[i].turnId == order[j].turnId by {
      assert FirstSeen(turns, order[i].turnId) == FirstSeen(turns, order[j].turnId);
      SeenFirst(turns, order[i].turnId);
      SeenFirst(turns, order[j].turnId);
    }
  }

  lemma RankedIsSorted(entries: seq<Entry>, i: nat, j: nat)
    requires i <= j < |Ranked(entries)|
    ensures var order, turns := Ranked(entries), Turns(entries);
      KeyLe(Rank(turns, order[i]), Rank(turns, order[j])) && order[i].turnId in turns && order[j].turnId in turns
  {
    var turns := Turns(entries);
    var rank := (e: Entry) => Rank(turns, e);
    TurnsAreDistinct(entries);
    ByIsTotal(rank);
    SortBySorts(By(rank), entries);
    SortByPermutes(By(rank), entries);
    var order := Ranked(entries);
    hide SortBy, Turns, Ranked;
    assert order[i] in order && order[j] in order;
    if i < j { assert By(rank)(order[i], order[j]); } else { KeyLeTotal(rank(order[i]), rank(order[j])); }
  }

  lemma {:induction false} SeenFirst(turns: seq<string>, t: string)
    requires t in turns
    ensures FirstSeen(turns, t) < |turns| && turns[FirstSeen(turns, t)] == t
  {
    if turns[0] != t { SeenFirst(turns[1..], t); }
  }

  /** The first loop: every row joins its turn's group, new turns at the end. */
  method GroupByTurn(records: seq<Record>) returns (groups: map<string, seq<Entry>>, keys: seq<string>)
    ensures keys == Turns(Entries(records))
    ensures forall t :: t in groups <==> t in keys
    ensures forall t :: t in groups ==> groups[t] == OfTurn(Entries(records), t)
  {
    ghost var entries := Entries(records);
    groups, keys := map[], [];
    hide Turns, OfTurn, EntryOf, AreGroups;
    NothingGrouped(entries);
    for i := 0 to |records|
      invariant keys == Turns(entries[..i]) && AreGroups(groups, keys, entries[..i])
    {
      var entry := EntryOf(records[i], i);
      OneMoreGrouped(groups, entries, i);
      if entry.turnId !in groups {
        groups := groups[entry.turnId := [entry]];
        keys := keys + [entry.turnId];
      } else {
        groups := groups[entry.turnId := groups[entry.turnId] + [entry]];
      }
    }
    GroupsThen(groups, keys, entries);
  }

  ghost predicate AreGroups(groups: map<string, seq<Entry>>, keys: seq<string>, entries: seq<Entry>) {
    && (forall t :: t in groups <==> t in keys)
    && (forall t :: t in groups ==> groups[t] == OfTurn(entries, t))
    && (forall t :: t !in groups ==> OfTurn(entries, t) == [])
  }

  lemma GroupsThen(groups: map<string, seq<Entry>>, keys: seq<string>, entries: seq<Entry>)
    requires AreGroups(groups, keys, entries)
    ensures forall t :: t in groups <==> t in keys
    ensures forall t :: t in groups ==> groups[t] == OfTurn(entries, t)
  {
  }

  lemma NothingGrouped(entries: seq<Entry>)
    ensures Turns(entries[..0]) == [] && entries[..|entries|] == entries
    ensures AreGroups(map[], [], entries[..0])
  {
  }

  lemma OneMoreGrouped(groups: map<string, seq<Entry>>, entries: seq<Entry>, i: nat)
    requires i < |entries| && AreGroups(groups, Turns(entries[..i]), entries[..i])
    ensures var keys, e := Turns(entries[..i]), entries[i];
      && (e.turnId in groups <==> e.turnId in keys)
      && Turns(entries[..i + 1]) == (if e.turnId in groups then keys else keys + [e.turnId])
      && AreGroups(groups[e.turnId := if e.turnId in groups then groups[e.turnId] + [e] else [e]],
                   Turns(entries[..i + 1]), entries[..i + 1])
  {
    var to := entries[..i + 1];
    assert to[..i] == entries[..i] && to[|to| - 1] == entries[i];
    forall t ensures OfTurn(to, t) == OfTurn(entries[..i], t) + if t == entries[i].turnId then [entries[i]] else [] {}
    hide OfTurn;
  }

  /** Groups rows by turn in a map that remembers insertion order, sorts every group by the
      id's suffix and lists the groups one after the other. */
  method OrderForPublish(records: seq<Record>) returns (ordered: seq<Record>)
    ensures ordered == InPublishOrder(records)
    ensures multiset(ordered) == multiset(records)
  {
    ghost var entries := Entries(records);
    var groups, keys := GroupByTurn(records);
    GroupedOrder(records);
    hide InPublishOrder, Grouped, RecordsOf, OfTurn, Turns, SortBy, By, Entries;
    ordered := [];
    NoGroups(entries, keys);
    for k := 0 to |keys|
      invariant ordered == RecordsOf(Grouped(entries, keys[..k]))
    {
      NextGroup(entries, keys, k);
      var group := SortBy(By(Within), groups[keys[k]]);
      ordered := ordered + RecordsOf(group);
    }
  }

  lemma NoGroups(entries: seq<Entry>, keys: seq<string>)
    ensures RecordsOf(Grouped(entries, keys[..0])) == []
    ensures keys[..|keys|] == keys
  {
  }

  lemma NextGroup(entries: seq<Entry>, keys: seq<string>, k: nat)
    requires k < |keys|
    ensures RecordsOf(Grouped(entries, keys[..k + 1]))
      == RecordsOf(Grouped(entries, keys[..k])) + RecordsOf(SortBy(By(Within), OfTurn(entries, keys[k])))
  {
    assert keys[..k + 1][..k] == keys[..k];
    hide SortBy, By, OfTurn;
  }

  lemma GroupedOrder(records: seq<Record>)
    ensures var entries := Entries(records);
      && RecordsOf(Grouped(entries, Turns(entries))) == InPublishOrder(records)
      && multiset(RecordsOf(Grouped(entries, Turns(entries)))) == multiset(records)
  {
    var entries := Entries(records);
    GroupingIsSorting(records);
    GroupedPermutes(entries);
    RecordsPermute(Grouped(entries, Turns(entries)), entries);
    assert RecordsOf(entries) == records;
  }

  lemma RecordsAppend(a: seq<Entry>, e: Entry)
    ensures RecordsOf(a + [e]) == RecordsOf(a) + [e.record]
  {
  }

  /** Moving one entry from place `j` to the front of the rest. */
  lemma TakeOut<T>(s: seq<T>, j: nat)
    requires j < |s|
    ensures multiset(s) == multiset(s[..j] + s[j + 1..]) + multiset{s[j]}
  {
    assert s == s[..j] + [s[j]] + s[j + 1..];
  }

  lemma RecordsTakeOut(s: seq<Entry>, j: nat)
    requires j < |s|
    ensures multiset(RecordsOf(s)) == multiset(RecordsOf(s[..j] + s[j + 1..])) + multiset{s[j].record}
  {
    var r := RecordsOf(s);
    TakeOut(r, j);
    assert r[..j] + r[j + 1..] == RecordsOf(s[..j] + s[j + 1..]);
  }

  lemma {:induction false} RecordsPermute(a: seq<Entry>, b: seq<Entry>)
    requires multiset(a) == multiset(b)
    ensures multiset(RecordsOf(a)) == multiset(RecordsOf(b))
    decreases |a|
  {
    hide RecordsOf;
    if a == [] {
      assert |multiset(b)| == |b| == 0;
      assert a == b;
    } else {
      var front, last := a[..|a| - 1], a[|a| - 1];
      assert a == front + [last];
      assert last in multiset(b);
      var j :| 0 <= j < |b| && b[j] == last;
      var rest := b[..j] + b[j + 1..];
      TakeOut(b, j);
      RecordsTakeOut(b, j);
      RecordsAppend(front, last);
      SameButOne(front, last, rest, a, b);
      RecordsPermute(front, rest);
    }
  }
}
