/** Text order, stable sorting and enumeration in key order: what the program takes
    from JavaScript's `<`, from `Array.prototype.sort` and from SQL's ORDER BY. */
module Ordering {

  /** `a <= b` as JavaScript compares strings: code by code, a prefix first. */
  predicate TextLe(a: string, b: string) {
    a == "" || (b != "" && (a[0] < b[0] || (a[0] == b[0] && TextLe(a[1..], b[1..]))))
  }

  lemma {:induction false} TextLeTotal(a: string, b: string)
    ensures TextLe(a, b) || TextLe(b, a)
    ensures TextLe(a, b) && TextLe(b, a) ==> a == b
  {
    if a != "" && b != "" && a[0] == b[0] {
      TextLeTotal(a[1..], b[1..]);
      assert a == [a[0]] + a[1..] && b == [b[0]] + b[1..];
    }
  }

  lemma {:induction false} TextLeTransitive(a: string, b: string, c: string)
    requires TextLe(a, b) && TextLe(b, c)
    ensures TextLe(a, c)
  {
    if a != "" && a[0] == b[0] == c[0] {
      TextLeTransitive(a[1..], b[1..], c[1..]);
    }
  }

  // ------------------------------------------------------------------ sorting

  ghost predicate TotalPreorder<T(!new)>(le: (T, T) -> bool) {
    && (forall x, y :: le(x, y) || le(y, x))
    && (forall x, y, z :: le(x, y) && le(y, z) ==> le(x, z))
  }

  predicate Sorted<T>(le: (T, T) -> bool, s: seq<T>) {
    forall i, j :: 0 <= i < j < |s| ==> le(s[i], s[j])
  }

  function Insert<T>(le: (T, T) -> bool, x: T, s: seq<T>): seq<T> {
    if s == [] || le(x, s[0]) then [x] + s else [s[0]] + Insert(le, x, s[1..])
  }

  /** The stable sort. */
  function SortBy<T>(le: (T, T) -> bool, s: seq<T>): seq<T> {
    if s == [] then [] else Insert(le, s[0], SortBy(le, s[1..]))
  }

  lemma {:induction false} InsertPermutes<T>(le: (T, T) -> bool, x: T, s: seq<T>)
    ensures multiset(Insert(le, x, s)) == multiset{x} + multiset(s)
  {
    if s != [] && !le(x, s[0]) {
      InsertPermutes(le, x, s[1..]);
      assert s == [s[0]] + s[1..];
    }
  }

  lemma {:induction false} SortByPermutes<T>(le: (T, T) -> bool, s: seq<T>)
    ensures multiset(SortBy(le, s)) == multiset(s)
    ensures |SortBy(le, s)| == |s|
    ensures forall x :: x in SortBy(le, s) <==> x in s
  {
    if s != [] {
      SortByPermutes(le, s[1..]);
      InsertPermutes(le, s[0], SortBy(le, s[1..]));
      assert s == [s[0]] + s[1..];
    }
    assert |SortBy(le, s)| == |multiset(SortBy(le, s))| == |multiset(s)|;
    forall x ensures x in SortBy(le, s) <==> x in s {
      assert x in SortBy(le, s) <==> x in multiset(SortBy(le, s));
      assert x in s <==> x in multiset(s);
    }
  }

  lemma {:induction false} InsertSorted<T(!new)>(le: (T, T) -> bool, x: T, s: seq<T>)
    requires TotalPreorder(le) && Sorted(le, s)
    ensures Sorted(le, Insert(le, x, s))
  {
    if s != [] && !le(x, s[0]) {
      InsertSorted(le, x, s[1..]);
      InsertPermutes(le, x, s[1..]);
      var t := Insert(le, x, s[1..]);
      forall j | 0 <= j < |t| ensures le(s[0], t[j]) {
        assert t[j] in multiset(t);
        assert t[j] == x || t[j] in s[1..];
      }
    } else if s != [] {
      forall j | 0 <= j < |s| ensures le(x, s[j]) {
        assert j > 0 ==> le(s[0], s[j]);
      }
    }
  }

  lemma {:induction false} SortBySorts<T(!new)>(le: (T, T) -> bool, s: seq<T>)
    requires TotalPreorder(le)
    ensures Sorted(le, SortBy(le, s))
  {
    if s != [] {
      SortBySorts(le, s[1..]);
      InsertSorted(le, s[0], SortBy(le, s[1..]));
    }
  }

  /** Distinct elements never tie, so a sorted arrangement is the only one. */
  lemma {:induction false} SortedIsUnique<T(!new)>(le: (T, T) -> bool, a: seq<T>, b: seq<T>)
    requires Sorted(le, a) && Sorted(le, b) && multiset(a) == multiset(b)
    requires forall x, y :: x in a && y in a && le(x, y) && le(y, x) ==> x == y
    ensures a == b
  {
    SamePopulation(a, b);
    if a != [] {
      assert b[0] in a && a[0] in b;
      assert a[0] == b[0];
      var x, p, q := a[0], a[1..], b[1..];
      assert a == [x] + p && b == [x] + q;
      SameButOne(p, x, q, a, b);
      SortedIsUnique(le, p, q);
    }
  }

  lemma SamePopulation<T>(a: seq<T>, b: seq<T>)
    requires multiset(a) == multiset(b)
    ensures |a| == |b| && forall x :: x in a <==> x in b
  {
    assert |multiset(a)| == |a| && |multiset(b)| == |b|;
    forall x ensures x in a <==> x in b {
      assert x in a <==> x in multiset(a);
      assert x in b <==> x in multiset(b);
    }
  }

  /** What is left of two arrangements of the same elements when the same one is taken out. */
  lemma SameButOne<T>(p: seq<T>, x: T, q: seq<T>, a: seq<T>, b: seq<T>)
    requires multiset(a) == multiset(b)
    requires a == [x] + p || a == p + [x]
    requires multiset(b) == multiset(q) + multiset{x}
    ensures multiset(p) == multiset(q)
  {
    assert multiset(a) == multiset(p) + multiset{x};
    assert multiset(p) == multiset(a) - multiset{x};
    assert multiset(q) == multiset(b) - multiset{x};
  }

  /** Sorting forgets the order its input came in. */
  lemma SortByForgetsOrder<T(!new)>(le: (T, T) -> bool, a: seq<T>, b: seq<T>)
    requires TotalPreorder(le) && multiset(a) == multiset(b)
    requires forall x, y :: x in a && y in a && le(x, y) && le(y, x) ==> x == y
    ensures SortBy(le, a) == SortBy(le, b)
  {
    SortByPermutes(le, a);
    SortByPermutes(le, b);
    SortBySorts(le, a);
    SortBySorts(le, b);
    SortedIsUnique(le, SortBy(le, a), SortBy(le, b));
  }

  // -------------------------------------------------------------- sort keys

  /** The five columns both the outbox query and crash replay order by. */
  datatype SortKey = SortKey(at: int, group: string, ordinal: int, next: int, id: string)

  predicate KeyLe(a: SortKey, b: SortKey) {
    if a.at != b.at then a.at < b.at
    else if a.group != b.group then TextLe(a.group, b.group)
    else if a.ordinal != b.ordinal then a.ordinal < b.ordinal
    else if a.next != b.next then a.next < b.next
    else TextLe(a.id, b.id)
  }

  lemma KeyLeTotal(a: SortKey, b: SortKey)
    ensures KeyLe(a, b) || KeyLe(b, a)
    ensures KeyLe(a, b) && KeyLe(b, a) ==> a == b
  {
    TextLeTotal(a.group, b.group);
    TextLeTotal(a.id, b.id);
  }

  lemma KeyLeTransitive(a: SortKey, b: SortKey, c: SortKey)
    requires KeyLe(a, b) && KeyLe(b, c)
    ensures KeyLe(a, c)
  {
    TextLeTotal(a.group, b.group);
    if TextLe(a.group, b.group) && TextLe(b.group, c.group) { TextLeTransitive(a.group, b.group, c.group); }
    if TextLe(a.id, b.id) && TextLe(b.id, c.id) { TextLeTransitive(a.id, b.id, c.id); }
  }

  function By<T(!new)>(key: T -> SortKey): (T, T) -> bool {
    (x, y) => KeyLe(key(x), key(y))
  }

  lemma ByIsTotal<T(!new)>(key: T -> SortKey)
    ensures TotalPreorder(By(key))
  {
    forall x, y ensures By(key)(x, y) || By(key)(y, x) { KeyLeTotal(key(x), key(y)); }
    forall x, y, z | By(key)(x, y) && By(key)(y, z) ensures By(key)(x, z) {
      KeyLeTransitive(key(x), key(y), key(z));
    }
  }

  // -------------------------------------------------------------- enumeration

  lemma {:induction false} LeastExists(keys: set<string>) returns (least: string)
    requires keys != {}
    ensures least in keys && forall k :: k in keys ==> TextLe(least, k)
    decreases |keys|
  {
    var pick :| pick in keys;
    if keys == {pick} {
      least := pick;
      TextLeTotal(pick, pick);
    } else {
      var rest := keys - {pick};
      assert pick !in rest && rest + {pick} == keys;
      assert rest != {};
      var r := LeastExists(rest);
      TextLeTotal(pick, r);
      TextLeTotal(pick, pick);
      least := if TextLe(pick, r) then pick else r;
      forall k | k in keys ensures TextLe(least, k) {
        if k != pick && TextLe(pick, r) { TextLeTransitive(pick, r, k); }
      }
    }
  }

  function Least(keys: set<string>): (least: string)
    requires keys != {}
    ensures least in keys
  {
    assert exists k :: k in keys && forall o :: o in keys ==> TextLe(k, o) by {
      var k := LeastExists(keys);
    }
    assert forall a, b :: TextLe(a, b) && TextLe(b, a) ==> a == b by {
      forall a, b | TextLe(a, b) && TextLe(b, a) ensures a == b { TextLeTotal(a, b); }
    }
    var k :| k in keys && forall o :: o in keys ==> TextLe(k, o);
    k
  }

  /** The primary keys of a table, in the order an unsorted scan visits them. */
  function KeysInOrder(keys: set<string>): (s: seq<string>)
    ensures |s| == |keys|
    ensures forall k :: k in s <==> k in keys
    ensures forall i, j :: 0 <= i < j < |s| ==> s[i] != s[j]
  {
    if keys == {} then [] else
      var k := Least(keys);
      var rest := KeysInOrder(keys - {k});
      [k] + rest
  }
}
