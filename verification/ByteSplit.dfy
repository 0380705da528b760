/** Cutting text into pieces of bounded UTF-8 size, character by character. */
module ByteSplit {
  import opened MessageSplit

  /** How many units the first character takes; a surrogate without its other half is one. */
  function CharLen(t: Text): (n: nat)
    requires t != []
    ensures 1 <= n <= 2 && n <= |t|
  {
    if |t| >= 2 && High(t[0]) && Low(t[1]) then 2 else 1
  }

  function Concat(parts: seq<Text>): Text {
    if parts == [] then [] else parts[0] + Concat(parts[1..])
  }

  // -------------------------------------------------------------- JSON escapes

  /** A unit outside any pair inside a JSON string; a lone surrogate is escaped. */
  function UnitJson(u: Unit): nat {
    if u == 0x22 || u == 0x5C || (8 <= u <= 13 && u != 11) then 2
    else if u < 0x20 then 6
    else if High(u) || Low(u) then 6
    else UnitBytes(u)
  }

  function CharJson(c: Text): nat
    requires c != []
  {
    if |c| == 2 then 4 else UnitJson(c[0])
  }

  /** The length of the JSON encoding of `t`, without its quotes. */
  function Json(t: Text): nat {
    if t == [] then 0 else CharJson(t[..CharLen(t)]) + Json(t[CharLen(t)..])
  }

  lemma CharSizes(t: Text)
    requires t != []
    ensures var c := t[..CharLen(t)];
      && 1 <= Bytes(c) <= 4 && Bytes(c) <= CharJson(c) <= 6 * Bytes(c)
      && !InsidePair(t, CharLen(t))
  {
    var c := t[..CharLen(t)];
    assert c[..0] == [] && c[..1] == [c[0]] && [c[0]][..0] == [];
    assert Bytes([c[0]]) == UnitBytes(c[0]);
  }

  lemma {:induction false} BytesAppend(a: Text, b: Text)
    requires !InsidePair(a + b, |a|)
    ensures Bytes(a + b) == Bytes(a) + Bytes(b)
  {
    if b == [] {
      assert a + b == a;
    } else {
      var front := b[..|b| - 1];
      assert (a + b)[..|a + b| - 1] == a + front;
      BytesAppend(a, front);
    }
  }

  lemma {:induction false} JsonAppend(a: Text, b: Text)
    requires !InsidePair(a + b, |a|)
    ensures Json(a + b) == Json(a) + Json(b)
  {
    if a == [] {
      assert a + b == b;
    } else {
      var n := CharLen(a);
      assert CharLen(a + b) == n by {
        if |a| == 1 && b != [] { assert (a + b)[1] == b[0]; }
      }
      assert (a + b)[..n] == a[..n] && (a + b)[n..] == a[n..] + b;
      JsonAppend(a[n..], b);
    }
  }

  lemma Unfold(t: Text)
    requires t != []
    ensures var n := CharLen(t);
      && t == t[..n] + t[n..]
      && Bytes(t) == Bytes(t[..n]) + Bytes(t[n..])
      && Json(t) == CharJson(t[..n]) + Json(t[n..])
  {
    CharSizes(t);
    assert t == t[..CharLen(t)] + t[CharLen(t)..];
    BytesAppend(t[..CharLen(t)], t[CharLen(t)..]);
  }

  /** Escaping never shrinks text and never grows it more than sixfold. */
  lemma {:induction false} JsonBounds(t: Text)
    ensures Bytes(t) <= Json(t) <= 6 * Bytes(t)
  {
    if t != [] {
      Unfold(t);
      CharSizes(t);
      JsonBounds(t[CharLen(t)..]);
    }
  }

  // ------------------------------------------------------------------- cutting

  /** The longest run of whole characters that fits. */
  function Take(t: Text, room: int): (k: nat)
    ensures k <= |t|
  {
    if t == [] then 0 else
    var n := CharLen(t);
    if Bytes(t[..n]) > room then 0 else n + Take(t[n..], room - Bytes(t[..n]))
  }

  lemma {:induction false} TakeFits(t: Text, room: int)
    requires room >= 0
    ensures Bytes(t[..Take(t, room)]) <= room && !InsidePair(t, Take(t, room))
    ensures room >= 4 && t != [] ==> Take(t, room) > 0
  {
    assert t[..0] == [];
    if t != [] {
      var n := CharLen(t);
      CharSizes(t);
      if Bytes(t[..n]) <= room {
        TakeFits(t[n..], room - Bytes(t[..n]));
        hide Take, Bytes, CharLen;
        PrefixOf(t, n, Take(t[n..], room - Bytes(t[..n])));
      }
    }
  }

  /** A prefix of the rest makes a longer prefix of the whole. */
  lemma PrefixOf(t: Text, n: nat, k: nat)
    requires n + k <= |t| && !InsidePair(t, n) && !InsidePair(t[n..], k)
    ensures Bytes(t[..n + k]) == Bytes(t[..n]) + Bytes(t[n..][..k]) && !InsidePair(t, n + k)
  {
    hide Bytes;
    assert t[..n + k] == t[..n] + t[n..][..k];
    AlignedPrefix(t, n, n + k);
    BytesAppend(t[..n], t[n..][..k]);
    if k > 0 { assert InsidePair(t, n + k) <==> InsidePair(t[n..], k); }
  }

  lemma AlignedPrefix(t: Text, n: nat, m: nat)
    requires n <= m <= |t| && !InsidePair(t, n)
    ensures t[..n] + t[n..][..m - n] == t[..m]
    ensures !InsidePair(t[..n] + t[n..][..m - n], n)
  {
    assert t[..n] + t[n..][..m - n] == t[..m];
  }

  lemma {:induction false} TakeIsLargest(t: Text, room: int, k: nat)
    requires k <= |t| && !InsidePair(t, k) && Bytes(t[..k]) <= room
    ensures k <= Take(t, room)
  {
    if k > 0 {
      var n := CharLen(t);
      CharSizes(t);
      assert n <= k;
      AlignedPrefix(t, n, k);
      BytesAppend(t[..n], t[n..][..k - n]);
      if k > n { assert InsidePair(t, k) <==> InsidePair(t[n..], k - n); }
      TakeIsLargest(t[n..], room - Bytes(t[..n]), k - n);
    }
  }

  /** The greedy pieces of `t`. */
  function Pieces(t: Text, max: nat): seq<Text>
    requires max >= 4
    decreases |t|
  {
    if t == [] then [] else
    TakeFits(t, max);
    [t[..Take(t, max)]] + Pieces(t[Take(t, max)..], max)
  }

  /** Text that fits stays whole, even when it is empty. */
  function SplitUtf8(t: Text, max: nat): seq<Text>
    requires max >= 4
  {
    if Bytes(t) <= max then [t] else Pieces(t, max)
  }

  /** Pieces of `t` that each fit and never part a surrogate pair. */
  ghost predicate Divides(parts: seq<Text>, t: Text, max: nat) {
    if parts == [] then t == [] else
    && parts[0] <= t && Bytes(parts[0]) <= max && !InsidePair(t, |parts[0]|)
    && Divides(parts[1..], t[|parts[0]|..], max)
  }

  lemma {:induction false} PiecesDivide(t: Text, max: nat)
    requires max >= 4
    ensures Divides(Pieces(t, max), t, max)
    ensures forall i :: 0 <= i < |Pieces(t, max)| ==> Pieces(t, max)[i] != []
    decreases |t|
  {
    if t != [] {
      TakeFits(t, max);
      PiecesDivide(t[Take(t, max)..], max);
      assert Pieces(t, max)[1..] == Pieces(t[Take(t, max)..], max);
    }
  }

  lemma PiecesUnfold(t: Text, max: nat)
    requires max >= 4 && t != []
    ensures var a := Take(t, max);
      0 < a <= |t| && !InsidePair(t, a) && Pieces(t, max) == [t[..a]] + Pieces(t[a..], max)
  {
    TakeFits(t, max);
  }

  lemma Shifted(t: Text, n: nat, m: nat)
    requires n <= m <= |t|
    ensures t[n..][m - n..] == t[m..]
    ensures !InsidePair(t, m) ==> !InsidePair(t[n..], m - n)
    ensures n < m && !InsidePair(t[n..], m - n) ==> !InsidePair(t, m)
  {
  }

  /** Starting later, a piece reaches at least as far. */
  lemma ReachesAsFar(t: Text, max: nat, k: nat)
    requires k <= Take(t, max) && !InsidePair(t, k)
    ensures Take(t, max) <= k + Take(t[k..], max) <= |t|
  {
    hide *;
    var a := Take(t, max);
    TakeFits(t, max);
    Shifted(t, k, a);
    CutTwice(t, k, a);
    BytesAppend(t[..k], t[k..a]);
    TakeIsLargest(t[k..], max, a - k);
  }

  lemma CutTwice(t: Text, k: nat, a: nat)
    requires k <= a <= |t| && !InsidePair(t, k)
    ensures t[k..][..a - k] == t[k..a] && t[..a] == t[..k] + t[k..a]
    ensures !InsidePair(t[..k] + t[k..a], k)
  {
  }

  /** A suffix never needs more pieces. */
  lemma {:induction false} SuffixNeedsNoMore(t: Text, max: nat, k: nat)
    requires max >= 4 && k <= |t| && !InsidePair(t, k)
    ensures |Pieces(t[k..], max)| <= |Pieces(t, max)|
    decreases |t|
  {
    hide Take, Pieces, InsidePair;
    if k == 0 {
      assert t[0..] == t;
    } else if k < |t| {
      var a := Take(t, max);
      PiecesUnfold(t, max);
      if k >= a {
        Shifted(t, a, k);
        SuffixNeedsNoMore(t[a..], max, k - a);
      } else {
        ReachesAsFar(t, max, k);
        PiecesUnfold(t[k..], max);
        var b := Take(t[k..], max);
        Shifted(t, k, k + b);
        Shifted(t, a, k + b);
        SuffixNeedsNoMore(t[a..], max, k + b - a);
      }
    } else {
      assert t[k..] == [];
      NoPieces(max);
    }
  }

  lemma NoPieces(max: nat)
    requires max >= 4
    ensures Pieces([], max) == []
  {
  }

  /** No other way of cutting between characters gives fewer pieces that fit. */
  lemma {:induction false} GreedyIsFewest(t: Text, max: nat, parts: seq<Text>)
    requires max >= 4 && Divides(parts, t, max)
    ensures |Pieces(t, max)| <= |parts|
    decreases |parts|
  {
    hide Take, Pieces, Bytes, InsidePair;
    if t == [] {
      NoPieces(max);
    } else if parts != [] {
      var j := |parts[0]|;
      assert t[..j] == parts[0];
      TakeIsLargest(t, max, j);
      PiecesUnfold(t, max);
      GreedyIsFewest(t[j..], max, parts[1..]);
      Shifted(t, j, Take(t, max));
      SuffixNeedsNoMore(t[j..], max, Take(t, max) - j);
    }
  }

  lemma {:induction false} DivisionIsLossless(parts: seq<Text>, t: Text, max: nat)
    requires Divides(parts, t, max)
    ensures Concat(parts) == t
    ensures forall i :: 0 <= i < |parts| ==> Bytes(parts[i]) <= max
    decreases |parts|
  {
    if parts != [] {
      DivisionIsLossless(parts[1..], t[|parts[0]|..], max);
      assert t == parts[0] + t[|parts[0]|..];
    }
  }

  lemma SplitDivides(t: Text, max: nat)
    requires max >= 4
    ensures SplitUtf8(t, max) != [] && Divides(SplitUtf8(t, max), t, max)
    ensures t != [] ==> forall i :: 0 <= i < |SplitUtf8(t, max)| ==> SplitUtf8(t, max)[i] != []
  {
    if Bytes(t) <= max {
      assert [t][1..] == [] && t[|t|..] == [];
    } else {
      assert t != [];
      PiecesDivide(t, max);
    }
  }

  /** Splitting loses nothing, every piece fits, none is empty unless the text is, no
      character is parted, and no such split is shorter. */
  lemma SplitIsExact(t: Text, max: nat, other: seq<Text>)
    requires max >= 4
    ensures var parts := SplitUtf8(t, max);
      && parts != [] && Concat(parts) == t
      && (forall i :: 0 <= i < |parts| ==> Bytes(parts[i]) <= max)
      && (t != [] ==> forall i :: 0 <= i < |parts| ==> parts[i] != [])
      && Divides(parts, t, max)
      && (t != [] && Divides(other, t, max) ==> |parts| <= |other|)
  {
    SplitDivides(t, max);
    DivisionIsLossless(SplitUtf8(t, max), t, max);
    if t != [] && Divides(other, t, max) { GreedyIsFewest(t, max, other); }
  }

  /** A piece's escapes cost no more than the whole text's. */
  lemma {:induction false} PieceEscapes(parts: seq<Text>, t: Text, max: nat, i: nat)
    requires Divides(parts, t, max) && i < |parts|
    ensures Json(parts[i]) - Bytes(parts[i]) <= Json(t) - Bytes(t)
    ensures Bytes(parts[i]) <= max
    decreases |parts|
  {
    var head, rest := parts[0], t[|parts[0]|..];
    assert t == head + rest;
    BytesAppend(head, rest);
    JsonAppend(head, rest);
    JsonBounds(head);
    JsonBounds(rest);
    if i > 0 { PieceEscapes(parts[1..], rest, max, i - 1); }
  }

  // ------------------------------------------------------------------ the loop

  /** The loop's answer from the middle: `current` begun, `rest` to read. */
  function Onwards(current: Text, rest: Text, max: nat): seq<Text>
    requires max >= 4
  {
    var k := Take(rest, max - Bytes(current));
    Begun(current + rest[..k]) + Pieces(rest[k..], max)
  }

  lemma OnwardsIs(current: Text, rest: Text, max: nat, k: nat)
    requires max >= 4 && k == Take(rest, max - Bytes(current))
    ensures Onwards(current, rest, max) == Begun(current + rest[..k]) + Pieces(rest[k..], max)
  {
    hide Take, Bytes, Begun, Pieces;
  }

  /** A piece that holds nothing is not a piece. */
  function Begun(piece: Text): seq<Text> { if piece == [] then [] else [piece] }

  lemma OnwardsGrows(current: Text, rest: Text, max: nat, c: Text, later: Text)
    requires max >= 4 && rest != [] && !InsidePair(current + rest, |current|)
    requires c == rest[..CharLen(rest)] && later == rest[CharLen(rest)..]
    requires Bytes(current) + Bytes(c) <= max
    ensures Onwards(current, rest, max) == Onwards(current + c, later, max)
    ensures Bytes(current + c) == Bytes(current) + Bytes(c)
    ensures !InsidePair(current + c + later, |current + c|)
  {
    hide *;
    var n := CharLen(rest);
    Between(current, rest);
    BytesAppend(current, c);
    TakeStep(rest, max - Bytes(current));
    var k := Take(later, max - Bytes(current + c));
    OnwardsIs(current, rest, max, n + k);
    OnwardsIs(current + c, later, max, k);
    Glue(current, rest, n, k);
  }

  lemma Glue(current: Text, rest: Text, n: nat, k: nat)
    requires n + k <= |rest|
    ensures current + rest[..n + k] == (current + rest[..n]) + rest[n..][..k]
    ensures rest[n + k..] == rest[n..][k..]
  {
  }

  lemma TakeStep(t: Text, room: int)
    requires t != []
    ensures var n := CharLen(t);
      Take(t, room) == if Bytes(t[..n]) > room then 0 else n + Take(t[n..], room - Bytes(t[..n]))
  {
    hide Bytes;
  }

  /** The end of the next character is a place to cut. */
  lemma Between(current: Text, rest: Text)
    requires rest != [] && !InsidePair(current + rest, |current|)
    ensures var n := CharLen(rest);
      && !InsidePair(current + rest[..n], |current|)
      && !InsidePair((current + rest[..n]) + rest[n..], |current| + n)
  {
    var n := CharLen(rest);
    CharSizes(rest);
    assert (current + rest[..n])[|current|] == (current + rest)[|current|];
    assert (current + rest[..n]) + rest[n..] == current + rest;
    assert (current + rest)[|current|..] == rest;
  }

  lemma OnwardsBreaks(current: Text, rest: Text, max: nat, c: Text, later: Text)
    requires max >= 4 && rest != [] && c == rest[..CharLen(rest)] && later == rest[CharLen(rest)..]
    requires Bytes(current) + Bytes(c) > max
    ensures current != []
    ensures Onwards(current, rest, max) == [current] + Onwards(c, later, max)
    ensures Bytes(c) <= max && !InsidePair(c + later, |c|)
  {
    hide *;
    CharSizes(rest);
    SomethingHeld(current);
    assert c + later == rest;
    TakeStep(rest, max - Bytes(current));
    OnwardsFull(current, rest, max);
    PiecesOnwards(rest, max, c, later);
  }

  lemma OnwardsFull(current: Text, rest: Text, max: nat)
    requires max >= 4 && Take(rest, max - Bytes(current)) == 0
    ensures Onwards(current, rest, max) == Begun(current) + Pieces(rest, max)
  {
    hide *;
    OnwardsIs(current, rest, max, 0);
    assert current + rest[..0] == current && rest[0..] == rest;
  }

  lemma SomethingHeld(current: Text)
    ensures Bytes(current) > 0 ==> current != [] && Begun(current) == [current]
  {
  }

  /** Begun with its first character, the loop cuts what the greedy pieces cut. */
  lemma PiecesOnwards(rest: Text, max: nat, c: Text, later: Text)
    requires max >= 4 && rest != [] && c == rest[..CharLen(rest)] && later == rest[CharLen(rest)..] && Bytes(c) <= max
    ensures Onwards(c, later, max) == Pieces(rest, max)
  {
    hide *;
    PiecesUnfold(rest, max);
    TakeStep(rest, max);
    var k := Take(later, max - Bytes(c));
    OnwardsIs(c, later, max, k);
    BegunAfter(rest, |c|, k);
  }

  lemma BegunAfter(t: Text, n: nat, k: nat)
    requires 0 < n + k <= |t|
    ensures Begun(t[..n] + t[n..][..k]) == [t[..n + k]] && t[n..][k..] == t[n + k..]
  {
    Glue([], t, n, k);
    assert [] + t[..n + k] == t[..n + k] && [] + t[..n] == t[..n];
  }

  lemma OnwardsBegins(t: Text, max: nat)
    requires max >= 4
    ensures Onwards([], t, max) == Pieces(t, max)
    ensures Bytes([]) == 0 && !InsidePair([] + t, 0)
  {
    assert Bytes([]) == 0;
    hide *;
    NotInsideAtStart(t);
    if t == [] {
      NoPieces(max);
      OnwardsEnds([], t, max);
    } else {
      var k := Take(t, max);
      PiecesUnfold(t, max);
      OnwardsIs([], t, max, k);
      BegunPrefix(t, k);
    }
  }

  lemma BegunPrefix(t: Text, k: nat)
    requires 0 < k <= |t|
    ensures Begun([] + t[..k]) == [t[..k]]
  {
    assert [] + t[..k] == t[..k];
  }

  lemma NotInsideAtStart(t: Text)
    ensures !InsidePair([] + t, 0)
  {
  }

  lemma OnwardsEnds(current: Text, rest: Text, max: nat)
    requires max >= 4 && rest == []
    ensures Onwards(current, rest, max) == if current == [] then [] else [current]
  {
    assert current + rest == current;
  }

  method SplitByUtf8Bytes(text: Text, maxBytes: nat) returns (ok: bool, parts: seq<Text>)
    ensures ok <==> maxBytes >= 4
    ensures ok ==> parts == SplitUtf8(text, maxBytes)
  {
    parts := [];
    if maxBytes < 4 { return false, []; }
    if Bytes(text) <= maxBytes { return true, [text]; }
    assert SplitUtf8(text, maxBytes) == Pieces(text, maxBytes);
    hide Onwards, Pieces, Bytes, InsidePair, CharLen, SplitUtf8;
    var current: Text, currentBytes, rest := [], 0, text;
    OnwardsBegins(text, maxBytes);
    while rest != []
      invariant currentBytes == Bytes(current) && !InsidePair(current + rest, |current|)
      invariant parts + Onwards(current, rest, maxBytes) == Pieces(text, maxBytes)
      decreases |rest|
    {
      var c, later := rest[..CharLen(rest)], rest[CharLen(rest)..];
      var size := Bytes(c);
      if currentBytes + size > maxBytes {
        OnwardsBreaks(current, rest, maxBytes, c, later);
        parts := parts + [current];
        current, currentBytes := c, size;
      } else {
        OnwardsGrows(current, rest, maxBytes, c, later);
        current, currentBytes := current + c, currentBytes + size;
      }
      rest := later;
    }
    OnwardsEnds(current, rest, maxBytes);
    if current != [] { parts := parts + [current]; }
    ok := true;
  }
}
