/** Splitting an oversize message for chat: UTF-16 text, sized in UTF-8 bytes. */
module MessageSplit {
  import opened Basics

  /** One UTF-16 code unit. */
  type Unit = u: nat | u < 0x10000

  type Text = seq<Unit>

  predicate High(u: Unit) { 0xD800 <= u < 0xDC00 }

  predicate Low(u: Unit) { 0xDC00 <= u < 0xE000 }

  /** A unit encoded on its own; a lone surrogate becomes the three-byte U+FFFD. */
  function UnitBytes(u: Unit): nat { if u < 0x80 then 1 else if u < 0x800 then 2 else 3 }

  /** Position `k` lies inside a surrogate pair. */
  predicate InsidePair(t: Text, k: nat) { 0 < k < |t| && High(t[k - 1]) && Low(t[k]) }

  /** The length of the UTF-8 encoding: the second half of a pair adds one byte to three. */
  function Bytes(t: Text): nat {
    if t == [] then 0 else
    Bytes(t[..|t| - 1]) + if InsidePair(t, |t| - 1) then 1 else UnitBytes(t[|t| - 1])
  }

  /** What JavaScript's trim functions remove. */
  predicate Space(u: Unit) {
    9 <= u <= 13 || u == 32 || u == 0xA0 || u == 0x1680 || 0x2000 <= u <= 0x200A
    || u == 0x2028 || u == 0x2029 || u == 0x202F || u == 0x205F || u == 0x3000 || u == 0xFEFF
  }

  function TrimEnd(t: Text): Text {
    if t != [] && Space(t[|t| - 1]) then TrimEnd(t[..|t| - 1]) else t
  }

  function TrimStart(t: Text): Text {
    if t != [] && Space(t[0]) then TrimStart(t[1..]) else t
  }

  const PARAGRAPH: Text := [10, 10]
  const LINE: Text := [10]
  const WORD: Text := [32]

  function LastIndexOf(t: Text, needle: Text): (i: int)
    requires needle != []
    ensures i == -1 || 0 <= i <= |t| - |needle|
    ensures i >= 0 ==> t[i..i + |needle|] == needle
  {
    if |t| < |needle| then -1
    else if t[|t| - |needle|..] == needle then |t| - |needle|
    else
      var i := LastIndexOf(t[..|t| - 1], needle);
      if i >= 0 then
        assert t[..|t| - 1][i..i + |needle|] == t[i..i + |needle|];
        i
      else i
  }

  /** Just behind the last occurrence, unless that is at the very start. */
  function LastIndexBefore(t: Text, needle: Text): (b: Option<nat>)
    requires needle != []
    ensures b.Some? ==> 0 < b.value <= |t| && t[b.value - 1] == needle[|needle| - 1]
  {
    var i := LastIndexOf(t, needle);
    if i <= 0 then None else
    assert t[i..i + |needle|][|needle| - 1] == t[i + |needle| - 1];
    Some(i + |needle|)
  }

  /** The largest prefix that fits, counting up from `k`. */
  function Cut(t: Text, max: nat, k: nat): (cut: nat)
    requires k <= |t|
    ensures k <= cut <= |t|
    decreases |t| - k
  {
    if k < |t| && Bytes(t[..k + 1]) <= max then Cut(t, max, k + 1) else k
  }

  /** A paragraph's end, else a line's, else a word's. */
  function Boundary(window: Text): (b: Option<nat>)
    ensures b.Some? ==> 0 < b.value <= |window| && window[b.value - 1] in {10, 32}
  {
    var paragraph := LastIndexBefore(window, PARAGRAPH);
    var line := LastIndexBefore(window, LINE);
    if paragraph.Some? then paragraph else if line.Some? then line else LastIndexBefore(window, WORD)
  }

  /** A boundary in the second half of the cut is preferred to the cut itself. */
  function Preferred(cut: nat, boundary: Option<nat>): nat {
    if boundary.Some? && 2 * boundary.value > cut then boundary.value else cut
  }

  /** Where the next chunk ends. */
  function End(t: Text, max: nat): (e: nat)
    ensures e <= Cut(t, max, 0)
  {
    var cut := Cut(t, max, 0);
    Preferred(cut, Boundary(t[..cut]))
  }

  // ------------------------------------------------------------- the largest cut

  lemma PrefixBytes(t: Text, k: nat)
    requires k < |t|
    ensures Bytes(t[..k]) < Bytes(t[..k + 1]) <= Bytes(t[..k]) + 3
  {
    assert t[..k + 1][..k] == t[..k];
  }

  lemma {:induction false} PrefixesGrow(t: Text, j: nat, k: nat)
    requires j <= k <= |t|
    ensures Bytes(t[..j]) <= Bytes(t[..k])
  {
    if j < k {
      PrefixesGrow(t, j, k - 1);
      PrefixBytes(t, k - 1);
    }
  }

  lemma {:induction false} CutFits(t: Text, max: nat, k: nat)
    requires k <= |t|
    ensures var cut := Cut(t, max, k);
      && (Bytes(t[..k]) <= max ==> Bytes(t[..cut]) <= max)
      && (cut < |t| ==> Bytes(t[..cut + 1]) > max)
    decreases |t| - k
  {
    if k < |t| && Bytes(t[..k + 1]) <= max { CutFits(t, max, k + 1); }
  }

  /** The cut is the only prefix length that fits and cannot grow. */
  lemma CutIsLargest(t: Text, max: nat, k: nat)
    requires k <= |t| && Bytes(t[..k]) <= max && (k < |t| ==> Bytes(t[..k + 1]) > max)
    ensures Cut(t, max, 0) == k
  {
    var cut := Cut(t, max, 0);
    CutFits(t, max, 0);
    assert t[..0] == [];
    if cut < k { PrefixesGrow(t, cut + 1, k); }
    if k < cut { PrefixesGrow(t, k + 1, cut); }
  }

  lemma EndFits(t: Text, max: nat)
    ensures Bytes(t[..End(t, max)]) <= max
  {
    var e := End(t, max);
    CutFits(t, max, 0);
    assert t[..0] == [];
    PrefixesGrow(t, e, Cut(t, max, 0));
  }

  /** The next chunk ends where it starts, so that the loop would spin, exactly when not even
      the first unit fits; three bytes are always enough. */
  lemma NoProgressExactlyWhen(t: Text, max: nat)
    requires t != []
    ensures End(t, max) == 0 <==> UnitBytes(t[0]) > max
    ensures max >= 3 ==> End(t, max) > 0
  {
    CutFits(t, max, 0);
    assert t[..1] == [t[0]];
    assert Bytes(t[..1]) == UnitBytes(t[0]) by { assert t[..1][..0] == []; }
    if UnitBytes(t[0]) <= max { CutFits(t, max, 1); }
  }

  // ----------------------------------------------------------- surrogate pairs

  /** A hard cut tears a surrogate pair apart exactly when the pair starts three bytes before
      the limit. */
  lemma ACutTearsAPairExactlyWhen(t: Text, max: nat)
    ensures InsidePair(t, Cut(t, max, 0)) <==>
      exists k: nat :: InsidePair(t, k + 1) && Bytes(t[..k]) + 3 == max
  {
    var cut := Cut(t, max, 0);
    CutFits(t, max, 0);
    assert t[..0] == [];
    if InsidePair(t, cut) {
      PairBytes(t, cut - 1);
      assert InsidePair(t, cut - 1 + 1);
    }
    if k: nat :| InsidePair(t, k + 1) && Bytes(t[..k]) + 3 == max {
      PairBytes(t, k);
      CutIsLargest(t, max, k + 1);
    }
  }

  lemma PairBytes(t: Text, k: nat)
    requires InsidePair(t, k + 1)
    ensures Bytes(t[..k + 1]) == Bytes(t[..k]) + 3 && Bytes(t[..k + 2]) == Bytes(t[..k]) + 4
  {
    assert t[..k + 1][..k] == t[..k] && t[..k + 2][..k + 1] == t[..k + 1];
  }

  /** Only a hard cut can tear a pair: a chunk that ends at a paragraph, line or word does not. */
  lemma ABoundaryTearsNothing(t: Text, max: nat)
    ensures InsidePair(t, End(t, max)) ==> End(t, max) == Cut(t, max, 0)
  {
    var cut := Cut(t, max, 0);
    var b := Boundary(t[..cut]);
    if b.Some? { assert t[..cut][b.value - 1] == t[b.value - 1]; }
  }

  // ------------------------------------------------------------------ splitting

  lemma {:induction false} TrimEndCuts(t: Text)
    ensures |TrimEnd(t)| <= |t| && TrimEnd(t) == t[..|TrimEnd(t)|]
    ensures forall p :: |TrimEnd(t)| <= p < |t| ==> Space(t[p])
  {
    if t != [] && Space(t[|t| - 1]) {
      TrimEndCuts(t[..|t| - 1]);
      assert t[..|t| - 1][..|TrimEnd(t)|] == t[..|TrimEnd(t)|];
    }
  }

  lemma {:induction false} TrimStartCuts(t: Text)
    ensures |TrimStart(t)| <= |t| && TrimStart(t) == t[|t| - |TrimStart(t)|..]
    ensures forall p :: 0 <= p < |t| - |TrimStart(t)| ==> Space(t[p])
  {
    if t != [] && Space(t[0]) {
      TrimStartCuts(t[1..]);
    }
  }

  /** What is left after the next chunk. */
  function Rest(t: Text, max: nat): (r: Text)
    ensures |r| <= |t| - End(t, max)
  {
    TrimStartCuts(t[End(t, max)..]);
    TrimStart(t[End(t, max)..])
  }

  /** Every piece over the limit has a next chunk, so the loop comes to an end. */
  predicate Ends(t: Text, max: nat)
    decreases |t|
  {
    Bytes(t) <= max || (End(t, max) > 0 && Ends(Rest(t, max), max))
  }

  /** The chunks of `t`, without the ones that were nothing but space. */
  function Chunks(t: Text, max: nat): seq<Text>
    requires Ends(t, max)
    decreases |t|
  {
    if t == [] then [] else
    if Bytes(t) <= max then [t] else
    var head := TrimEnd(t[..End(t, max)]);
    (if head == [] then [] else [head]) + Chunks(Rest(t, max), max)
  }

  /** `starts` places the chunks in the text in order; everything between them is space. */
  ghost predicate Tiles(t: Text, chunks: seq<Text>, starts: seq<nat>) {
    && |starts| == |chunks|
    && (forall i :: 0 <= i < |chunks| ==>
          starts[i] + |chunks[i]| <= |t| && t[starts[i]..starts[i] + |chunks[i]|] == chunks[i])
    && (forall i :: 0 <= i <= |chunks| ==> GapIsSpace(t, GapStart(chunks, starts, i), GapEnd(t, starts, i)))
  }

  ghost function GapStart(chunks: seq<Text>, starts: seq<nat>, i: nat): nat
    requires |starts| == |chunks| && i <= |chunks|
  {
    if i == 0 then 0 else starts[i - 1] + |chunks[i - 1]|
  }

  ghost function GapEnd(t: Text, starts: seq<nat>, i: nat): nat
    requires i <= |starts|
  {
    if i == |starts| then |t| else starts[i]
  }

  ghost predicate GapIsSpace(t: Text, from: nat, to: nat) {
    from <= to && forall p :: from <= p < to && p < |t| ==> Space(t[p])
  }

  /** The next chunk and the rest, as places in the text. */
  lemma HeadAndRest(t: Text, max: nat, head: Text, rest: Text)
    requires Ends(t, max) && Bytes(t) > max
    requires head == TrimEnd(t[..End(t, max)]) && rest == Rest(t, max)
    ensures Ends(rest, max)
    ensures |head| <= |t| - |rest| <= |t| && head == t[..|head|] && rest == t[|t| - |rest|..]
    ensures Bytes(head) <= max && |rest| < |t|
    ensures GapIsSpace(t, |head|, |t| - |rest|)
    ensures Chunks(t, max) == (if head == [] then [] else [head]) + Chunks(rest, max)
  {
    hide Bytes, Cut, Boundary, Preferred, TrimEnd, TrimStart;
    ChunksUnfold(t, max);
    EndFits(t, max);
    var e := End(t, max);
    TrimEndCuts(t[..e]);
    TrimStartCuts(t[e..]);
    assert head == t[..|head|];
    PrefixesGrow(t, |head|, e);
    forall p | |head| <= p < |t| - |rest| ensures Space(t[p]) {
      if p < e { assert Space(t[..e][p]); } else { assert Space(t[e..][p - e]); }
    }
  }

  lemma WholeTiles(t: Text)
    ensures if t == [] then Tiles(t, [], []) else Tiles(t, [t], [0])
  {
    assert t[0..|t|] == t;
  }

  lemma NothingTears(t: Text, max: nat)
    requires Bytes(t) <= max
    ensures !SomePieceTears(t, max) && !Torn(t, [], []) && !Torn(t, [t], [0])
  {
    hide Bytes, PairAtLimit;
  }

  /** Chunks are never empty, always fit, and together are the text less the white space
      between them. */
  lemma {:induction false} ChunksFitAndTile(t: Text, max: nat) returns (starts: seq<nat>)
    requires Ends(t, max)
    ensures forall i :: 0 <= i < |Chunks(t, max)| ==> Chunks(t, max)[i] != [] && Bytes(Chunks(t, max)[i]) <= max
    ensures Tiles(t, Chunks(t, max), starts)
    ensures Torn(t, Chunks(t, max), starts) <==> SomePieceTears(t, max)
    decreases |t|
  {
    hide *;
    SplitEnds(t, max);
    WholeTiles(t);
    if Bytes(t) <= max {
      starts := if t == [] then [] else [0];
      NothingTears(t, max);
    } else {
      var head, rest := TrimEnd(t[..End(t, max)]), Rest(t, max);
      HeadAndRest(t, max, head, rest);
      var later := ChunksFitAndTile(rest, max);
      starts := Shift(t, rest, |t| - |rest|, head, Chunks(rest, max), later);
      PlacesOf(rest, Chunks(rest, max), later);
      TornShift(t, rest, |t| - |rest|, head, Chunks(rest, max), later);
      HeadTears(t, max, head);
      PieceTears(t, max);
    }
  }

  // ----------------------------------------------------------- what gets torn

  /** A paragraph, line or word end in the second half of the largest prefix that fits. */
  predicate HasBoundary(t: Text, max: nat) {
    var cut := Cut(t, max, 0);
    var b := Boundary(t[..cut]);
    b.Some? && 2 * b.value > cut
  }

  /** A surrogate pair starts three bytes before the limit. */
  ghost predicate PairAtLimit(t: Text, max: nat) {
    exists k: nat :: InsidePair(t, k + 1) && Bytes(t[..k]) + 3 == max
  }

  /** The next chunk ends inside a surrogate pair exactly when a pair starts three bytes before
      the limit and there is no boundary to end at instead. */
  lemma AChunkEndTearsAPairExactlyWhen(t: Text, max: nat)
    ensures InsidePair(t, End(t, max)) <==> PairAtLimit(t, max) && !HasBoundary(t, max)
  {
    ACutTearsAPairExactlyWhen(t, max);
    EndIs(t, max);
    hide Bytes, Cut, Boundary, End, HasBoundary;
    assert PairAtLimit(t, max) <==> InsidePair(t, Cut(t, max, 0));
    hide PairAtLimit;
  }

  lemma EndIs(t: Text, max: nat)
    ensures if HasBoundary(t, max) then !InsidePair(t, End(t, max)) else End(t, max) == Cut(t, max, 0)
  {
    hide Bytes, Cut, Boundary;
    var cut := Cut(t, max, 0);
    var b := Boundary(t[..cut]);
    if b.Some? {
      assert t[..cut][b.value - 1] == t[b.value - 1];
      assert !InsidePair(t, b.value);
    }
    hide InsidePair;
  }

  /** Some piece over the limit, of those the loop cuts, is cut inside a pair. */
  ghost predicate SomePieceTears(t: Text, max: nat)
    requires Ends(t, max)
    decreases |t|
  {
    Bytes(t) > max && ((PairAtLimit(t, max) && !HasBoundary(t, max)) || SomePieceTears(Rest(t, max), max))
  }

  /** A chunk ends inside a surrogate pair of the text. */
  ghost predicate Torn(t: Text, chunks: seq<Text>, starts: seq<nat>) {
    exists i: nat :: TornAt(t, chunks, starts, i)
  }

  ghost predicate TornAt(t: Text, chunks: seq<Text>, starts: seq<nat>, i: nat) {
    i < |chunks| && i < |starts| && InsidePair(t, starts[i] + |chunks[i]|)
  }

  lemma PieceTears(t: Text, max: nat)
    requires Ends(t, max) && Bytes(t) > max
    ensures Ends(Rest(t, max), max)
    ensures SomePieceTears(t, max) <==> InsidePair(t, End(t, max)) || SomePieceTears(Rest(t, max), max)
  {
    AChunkEndTearsAPairExactlyWhen(t, max);
    hide PairAtLimit, HasBoundary, InsidePair, Bytes, End, Rest;
  }

  lemma PlacesOf(t: Text, chunks: seq<Text>, starts: seq<nat>)
    requires Tiles(t, chunks, starts)
    ensures |starts| == |chunks| && forall i :: 0 <= i < |chunks| ==> starts[i] + |chunks[i]| <= |t|
  {
  }

  /** Trimming a head that ends inside a pair takes nothing off, and a trimmed head does not end
      inside one. */
  lemma HeadTears(t: Text, max: nat, head: Text)
    requires head == TrimEnd(t[..End(t, max)])
    ensures head != [] && InsidePair(t, |head|) <==> InsidePair(t, End(t, max))
  {
    var e := End(t, max);
    TrimEndCuts(t[..e]);
    hide End, Bytes, Cut;
    if InsidePair(t, e) { assert t[..e][e - 1] == t[e - 1]; }
    if |head| < e { assert t[..e][|head|] == t[|head|]; }
  }

  lemma TornShift(t: Text, rest: Text, skip: nat, head: Text, chunks: seq<Text>, later: seq<nat>)
    requires skip <= |t| && rest == t[skip..] && |head| <= skip && |later| == |chunks|
    requires forall i :: 0 <= i < |chunks| ==> chunks[i] != [] && later[i] + |chunks[i]| <= |rest|
    ensures Torn(t, (if head == [] then [] else [head]) + chunks, (if head == [] then [] else [0]) + Moved(later, skip))
      <==> (head != [] && InsidePair(t, |head|)) || Torn(rest, chunks, later)
  {
    var all := (if head == [] then [] else [head]) + chunks;
    var starts := (if head == [] then [] else [0]) + Moved(later, skip);
    var n: nat := if head == [] then 0 else 1;
    forall i: nat ensures TornAt(t, all, starts, n + i) <==> TornAt(rest, chunks, later, i) {
      TornMoves(t, rest, skip, head, chunks, later, i);
    }
    if head != [] { TornHead(t, skip, head, chunks, later); }
    assert head != [] ==> (TornAt(t, all, starts, 0) <==> InsidePair(t, |head|));
    hide TornAt, InsidePair, Moved;
    if i: nat :| TornAt(rest, chunks, later, i) { assert TornAt(t, all, starts, n + i); }
    if i: nat :| TornAt(t, all, starts, i) {
      if i >= n {
        var k: nat := i - n;
        assert TornAt(t, all, starts, n + k);
        assert TornAt(rest, chunks, later, k);
      } else {
        assert i == 0;
      }
    }
    if head != [] && InsidePair(t, |head|) {
      var first: nat := 0;
      assert TornAt(t, all, starts, first);
    }
  }

  lemma TornHead(t: Text, skip: nat, head: Text, chunks: seq<Text>, later: seq<nat>)
    requires head != []
    ensures var all, starts := [head] + chunks, [0] + Moved(later, skip);
      TornAt(t, all, starts, 0) <==> InsidePair(t, |head|)
  {
  }

  lemma TornMoves(t: Text, rest: Text, skip: nat, head: Text, chunks: seq<Text>, later: seq<nat>, i: nat)
    requires skip <= |t| && rest == t[skip..] && |later| == |chunks|
    requires forall k :: 0 <= k < |chunks| ==> chunks[k] != [] && later[k] + |chunks[k]| <= |rest|
    ensures var all, starts := (if head == [] then [] else [head]) + chunks, (if head == [] then [] else [0]) + Moved(later, skip);
      TornAt(t, all, starts, (if head == [] then 0 else 1) + i) <==> TornAt(rest, chunks, later, i)
  {
    var n := if head == [] then 0 else 1;
    if i < |chunks| {
      assert ((if head == [] then [] else [head]) + chunks)[n + i] == chunks[i];
      assert ((if head == [] then [] else [0]) + Moved(later, skip))[n + i] == later[i] + skip;
      MovedPair(t, rest, skip, later[i] + |chunks[i]|);
    }
  }

  lemma MovedPair(t: Text, rest: Text, skip: nat, p: nat)
    requires skip <= |t| && rest == t[skip..] && 0 < p <= |rest|
    ensures InsidePair(t, skip + p) <==> InsidePair(rest, p)
  {
  }

  /** Splitting a message tears a character exactly when some piece that is over the limit has a
      surrogate pair starting three bytes before it and no boundary to end at instead. */
  lemma SplittingTearsACharacterExactlyWhen(t: Text, max: nat) returns (starts: seq<nat>)
    requires Ends(t, max)
    ensures Tiles(t, Split(t, max), starts)
    ensures Torn(t, Split(t, max), starts) <==> SomePieceTears(t, max)
  {
    if Bytes(t) <= max {
      starts := [0];
      assert t[0..|t|] == t;
    } else {
      starts := ChunksFitAndTile(t, max);
    }
  }

  /** Moves the placement of the rest's chunks behind the head. */
  lemma Shift(t: Text, rest: Text, skip: nat, head: Text, chunks: seq<Text>, later: seq<nat>) returns (starts: seq<nat>)
    requires skip <= |t| && rest == t[skip..] && |head| <= skip && head == t[..|head|]
    requires GapIsSpace(t, |head|, skip) && Tiles(rest, chunks, later)
    ensures Tiles(t, (if head == [] then [] else [head]) + chunks, starts)
    ensures starts == (if head == [] then [] else [0]) + Moved(later, skip)
  {
    var moved := Moved(later, skip);
    var n := if head == [] then 0 else 1;
    starts := (if head == [] then [] else [0]) + moved;
    var all := (if head == [] then [] else [head]) + chunks;
    forall i | 0 <= i < |all|
      ensures starts[i] + |all[i]| <= |t| && t[starts[i]..starts[i] + |all[i]|] == all[i]
    {
      if i >= n {
        assert all[i] == chunks[i - n] && starts[i] == later[i - n] + skip;
        assert t[starts[i]..starts[i] + |all[i]|] == rest[later[i - n]..later[i - n] + |all[i]|];
      }
    }
    hide GapIsSpace, GapStart, GapEnd;
    forall i | 0 <= i <= |all| ensures GapIsSpace(t, GapStart(all, starts, i), GapEnd(t, starts, i)) {
      ShiftGap(t, rest, skip, head, chunks, later, i);
    }
  }

  function Moved(later: seq<nat>, skip: nat): seq<nat> {
    seq(|later|, i requires 0 <= i < |later| => later[i] + skip)
  }

  lemma ShiftGap(t: Text, rest: Text, skip: nat, head: Text, chunks: seq<Text>, later: seq<nat>, i: nat)
    requires skip <= |t| && rest == t[skip..] && |head| <= skip && |chunks| == |later|
    requires GapIsSpace(t, |head|, skip)
    requires forall k :: 0 <= k <= |chunks| ==> GapIsSpace(rest, GapStart(chunks, later, k), GapEnd(rest, later, k))
    requires i <= |(if head == [] then [] else [head]) + chunks|
    ensures var all := (if head == [] then [] else [head]) + chunks;
      var starts := (if head == [] then [] else [0]) + Moved(later, skip);
      GapIsSpace(t, GapStart(all, starts, i), GapEnd(t, starts, i))
  {
    var n := if head == [] then 0 else 1;
    var all := (if head == [] then [] else [head]) + chunks;
    var starts := (if head == [] then [] else [0]) + Moved(later, skip);
    if i >= n {
      var from, to := GapStart(chunks, later, i - n), GapEnd(rest, later, i - n);
      assert GapIsSpace(rest, from, to);
      assert GapEnd(t, starts, i) == to + skip;
      if i > n { assert starts[i - 1] == later[i - 1 - n] + skip && all[i - 1] == chunks[i - 1 - n]; }
      GapMoves(t, rest, skip, |head|, from, to, GapStart(all, starts, i));
    }
  }

  lemma GapMoves(t: Text, rest: Text, skip: nat, head: nat, from: nat, to: nat, start: nat)
    requires head <= skip <= |t| && rest == t[skip..]
    requires GapIsSpace(t, head, skip) && GapIsSpace(rest, from, to)
    requires start == from + skip || (from == 0 && start == head)
    ensures GapIsSpace(t, start, to + skip)
  {
    forall p | start <= p < to + skip && p < |t| ensures Space(t[p]) {
      if p >= skip { assert rest[p - skip] == t[p]; }
    }
  }

  /** The message as the source returns it. */
  function Split(t: Text, max: nat): seq<Text>
    requires Ends(t, max)
  {
    if Bytes(t) <= max then [t] else Chunks(t, max)
  }

  method FindCut(rest: Text, max: nat) returns (cut: nat)
    ensures cut == Cut(rest, max, 0)
  {
    cut := |rest|;
    assert rest[..|rest|] == rest && rest[..0] == [];
    while cut > 0 && Bytes(rest[..cut]) > max
      invariant cut <= |rest|
    {
      cut := cut * 9 / 10;
    }
    while cut < |rest| && Bytes(rest[..cut + 1]) <= max
      invariant cut <= |rest| && Bytes(rest[..cut]) <= max
    {
      cut := cut + 1;
    }
    CutIsLargest(rest, max, cut);
  }

  /** Splits at paragraphs, lines or words where it can, and cuts where it cannot. */
  method SplitMessage(text: Text, maxBytes: nat) returns (chunks: seq<Text>)
    requires Ends(text, maxBytes)
    ensures chunks == Split(text, maxBytes)
  {
    hide *;
    SplitEnds(text, maxBytes);
    if Bytes(text) <= maxBytes { return [text]; }
    chunks := [];
    var rest := text;
    while Bytes(rest) > maxBytes
      invariant Ends(rest, maxBytes)
      invariant Chunks(text, maxBytes) == chunks + Chunks(rest, maxBytes)
      decreases |rest|
    {
      ChunksUnfold(rest, maxBytes);
      var cut := FindCut(rest, maxBytes);
      var end := Preferred(cut, Boundary(rest[..cut]));
      var head := TrimEnd(rest[..end]);
      if head != [] { chunks := chunks + [head]; }
      rest := TrimStart(rest[end..]);
      if rest == [] { break; }
    }
    SplitEnds(rest, maxBytes);
    if rest != [] { chunks := chunks + [rest]; }
  }

  lemma ChunksUnfold(t: Text, max: nat)
    requires Ends(t, max) && Bytes(t) > max
    ensures var e := Preferred(Cut(t, max, 0), Boundary(t[..Cut(t, max, 0)]));
      && e <= |t| && |TrimStart(t[e..])| < |t| && Ends(TrimStart(t[e..]), max)
      && Chunks(t, max) ==
           (if TrimEnd(t[..e]) == [] then [] else [TrimEnd(t[..e])]) + Chunks(TrimStart(t[e..]), max)
  {
    NoProgressExactlyWhen(t, max);
    TrimStartCuts(t[End(t, max)..]);
  }

  /** The loop comes to an end exactly when the text fits, or its first unit fits and so does
      every unit that is not white space; in particular for every limit of three bytes. */
  lemma {:induction false} TheLoopEndsExactlyWhen(t: Text, max: nat)
    ensures Ends(t, max) <==>
      || Bytes(t) <= max
      || (UnitBytes(t[0]) <= max && forall i :: 0 <= i < |t| && !Space(t[i]) ==> UnitBytes(t[i]) <= max)
    decreases |t|
  {
    if Bytes(t) > max {
      NoProgressExactlyWhen(t, max);
      if End(t, max) > 0 {
        RestStartsAtInk(t, max);
        TheLoopEndsExactlyWhen(Rest(t, max), max);
        hide Rest, End, Bytes, Space;
        InkStays(t, max);
      }
    }
  }

  lemma ThreeBytesAreEnough(t: Text, max: nat)
    requires max >= 3
    ensures Ends(t, max)
  {
    TheLoopEndsExactlyWhen(t, max);
  }

  lemma RestStartsAtInk(t: Text, max: nat)
    ensures Rest(t, max) != [] ==> !Space(Rest(t, max)[0])
  {
    TrimStartsAtInk(t[End(t, max)..]);
  }

  lemma {:induction false} TrimStartsAtInk(t: Text)
    ensures TrimStart(t) != [] ==> !Space(TrimStart(t)[0])
  {
    if t != [] && Space(t[0]) { TrimStartsAtInk(t[1..]); }
  }

  /** A unit takes no more bytes than the text up to it. */
  lemma UnitWithin(t: Text, k: nat)
    requires k < |t|
    ensures UnitBytes(t[k]) <= Bytes(t[..k + 1])
  {
    assert t[..k + 1][..k] == t[..k];
    if InsidePair(t, k) { assert t[..k][..k - 1] == t[..k - 1]; }
  }

  /** If every other piece of ink fits the limit, so does what the chunk took; and the rest has
      all the ink the chunk did not take. */
  lemma InkStays(t: Text, max: nat)
    requires Bytes(t) > max && End(t, max) > 0
    ensures var rest := Rest(t, max);
      && (forall i :: 0 <= i < |t| && !Space(t[i]) && UnitBytes(t[i]) > max ==>
            Bytes(rest) > max && exists j :: 0 <= j < |rest| && rest[j] == t[i])
      && (forall j :: 0 <= j < |rest| ==> rest[j] in t)
  {
    var e, rest := End(t, max), Rest(t, max);
    EndFits(t, max);
    TrimStartCuts(t[e..]);
    forall i | 0 <= i < |t| && !Space(t[i]) && UnitBytes(t[i]) > max
      ensures Bytes(rest) > max && exists j :: 0 <= j < |rest| && rest[j] == t[i]
    {
      if i < e {
        UnitWithin(t, i);
        PrefixesGrow(t, i + 1, e);
      }
      var skip := |t| - |rest|;
      assert i >= skip by {
        forall p | e <= p < skip ensures Space(t[p]) { assert t[e..][p - e] == t[p]; }
      }
      assert rest[i - skip] == t[i];
      UnitWithin(rest, i - skip);
      PrefixesGrow(rest, i - skip + 1, |rest|);
      assert rest[..|rest|] == rest;
    }
    forall j | 0 <= j < |rest| ensures rest[j] in t { assert rest[j] == t[|t| - |rest| + j]; }
  }

  lemma SplitEnds(t: Text, max: nat)
    requires Ends(t, max)
    ensures Bytes(t) <= max ==> Split(t, max) == [t] && Chunks(t, max) == if t == [] then [] else [t]
    ensures Bytes(t) > max ==> Split(t, max) == Chunks(t, max)
    ensures Ends([], max) && Chunks([], max) == []
  {
  }

  /** The letter "a" and one emoji. */
  const A_AND_EMOJI: Text := [0x61, 0xD83D, 0xDE00]

  lemma TheEmojiIsCut()
    ensures Cut(A_AND_EMOJI, 4, 0) == 2 && Bytes(A_AND_EMOJI) > 4
  {
    var t := A_AND_EMOJI;
    assert t[..0] == [] && t[..3] == t;
    assert Bytes(t[..1]) == 1 by { assert t[..1][..0] == []; }
    PairBytes(t, 1);
    CutIsLargest(t, 4, 2);
  }

  lemma FoundIsPresent(window: Text, needle: Text)
    requires needle != []
    ensures LastIndexOf(window, needle) >= 0 ==> needle[0] in window
  {
    var i := LastIndexOf(window, needle);
    if i >= 0 { assert window[i..i + |needle|][0] == window[i]; }
  }

  ghost predicate NoSpace(t: Text) { forall i :: 0 <= i < |t| ==> !Space(t[i]) }

  lemma NoBoundary(head: Text)
    requires NoSpace(head)
    ensures Boundary(head) == None && TrimEnd(head) == head && TrimStart(head) == head
  {
    FoundIsPresent(head, PARAGRAPH);
    FoundIsPresent(head, LINE);
    FoundIsPresent(head, WORD);
    assert Space(10) && Space(32);
  }

  lemma CutIsInside(t: Text, max: nat)
    requires Bytes(t) > max
    ensures Cut(t, max, 0) < |t|
  {
    CutFits(t, max, 0);
    assert t[..0] == [] && t[..|t|] == t;
  }

  /** Text without white space is cut where its bytes run out. */
  lemma CutOnceExactly(t: Text, max: nat, cut: nat)
    requires max >= 3 && cut == Cut(t, max, 0) && Bytes(t) > max >= Bytes(t[cut..])
    requires NoSpace(t) && cut > 0
    ensures cut < |t| && Ends(t, max) && Split(t, max) == [t[..cut], t[cut..]]
  {
    hide *;
    var head, rest := t[..cut], t[cut..];
    ThreeBytesAreEnough(t, max);
    ThreeBytesAreEnough(rest, max);
    CutIsInside(t, max);
    NoSpaceInside(t, cut);
    NoBoundary(head);
    NoBoundary(rest);
    NothingPreferred(cut);
    assert head != [] && rest != [];
    OneCut(t, max, cut, head, rest);
    SplitEnds(t, max);
  }

  lemma OneCut(t: Text, max: nat, cut: nat, head: Text, rest: Text)
    requires Ends(t, max) && Ends(rest, max) && Bytes(t) > max >= Bytes(rest) && cut <= |t|
    requires cut == Preferred(Cut(t, max, 0), Boundary(t[..Cut(t, max, 0)]))
    requires head == t[..cut] == TrimEnd(t[..cut]) && rest == t[cut..] == TrimStart(t[cut..])
    requires head != [] && rest != []
    ensures Chunks(t, max) == [head, rest]
  {
    hide *;
    ChunksUnfold(t, max);
    SplitEnds(rest, max);
  }

  lemma NoSpaceInside(t: Text, cut: nat)
    requires NoSpace(t) && cut <= |t|
    ensures NoSpace(t[..cut]) && NoSpace(t[cut..])
  {
    hide Space;
  }

  lemma NothingPreferred(cut: nat)
    ensures Preferred(cut, None) == cut
  {
  }

  /** At four bytes the emoji's halves part ways. */
  lemma SplittingCanTearACharacter()
    ensures Ends(A_AND_EMOJI, 4) && Split(A_AND_EMOJI, 4) == [[0x61, 0xD83D], [0xDE00]] && InsidePair(A_AND_EMOJI, 2)
  {
    TheEmojiIsCut();
    var head, rest := A_AND_EMOJI[..2], A_AND_EMOJI[2..];
    assert rest[..0] == [] && Bytes(rest) == 3;
    assert head == [0x61, 0xD83D] && rest == [0xDE00];
    assert NoSpace(A_AND_EMOJI);
    hide Bytes, Cut, Split, NoSpace;
    CutOnceExactly(A_AND_EMOJI, 4, 2);
  }

  // ------------------------------------------------------------ oversize policy

  datatype Policy = SplitUp | Truncate | Reject

  /** "\n\n[truncated]" */
  const MARKER: Text := [10, 10, 91, 116, 114, 117, 110, 99, 97, 116, 101, 100, 93]

  /** The policies that split need the splitting to come to an end. */
  predicate Decidable(t: Text, max: nat, policy: Policy) { policy == Reject || Ends(t, max) }

  function Bodies(t: Text, max: nat, policy: Policy): seq<Text>
    requires Decidable(t, max, policy)
  {
    if Bytes(t) <= max then [t] else
    match policy
    case SplitUp => Split(t, max)
    case Truncate => if Split(t, max) == [] then [] else [Split(t, max)[0] + MARKER]
    case Reject => []
  }

  lemma {:induction false} AppendAscii(t: Text, tail: Text)
    requires forall i :: 0 <= i < |tail| ==> tail[i] < 0x80
    ensures Bytes(t + tail) == Bytes(t) + |tail|
  {
    if tail == [] {
      assert t + tail == t;
    } else {
      var front := tail[..|tail| - 1];
      AppendAscii(t, front);
      assert (t + tail)[..|t + tail| - 1] == t + front;
    }
  }

  lemma MarkerBytes(t: Text)
    ensures Bytes(t + MARKER) == Bytes(t) + 13
  {
    AppendAscii(t, MARKER);
  }

  /** Every body fits, except that a truncated one may exceed the limit by its 13-byte marker. */
  lemma BodiesFit(t: Text, max: nat, policy: Policy, i: nat)
    requires Decidable(t, max, policy) && i < |Bodies(t, max, policy)|
    ensures Bytes(Bodies(t, max, policy)[i]) <= max + (if policy == Truncate && Bytes(t) > max then 13 else 0)
    ensures Bytes(t) > max ==> Bodies(t, max, policy)[i] != []
  {
    hide Bytes, Chunks, Tiles;
    if Bytes(t) > max {
      var starts := ChunksFitAndTile(t, max);
      if policy == Truncate { MarkerBytes(Split(t, max)[0]); }
    }
  }
}
